/**
 * The token program as the lottery uses it: the accounts of one mint, and the
 * transfer, mint-to and burn operations with the checks they make before moving
 * anything. Freezing, delegates and u64 balance overflow are not modelled.
 */
module Token {
  import opened Base
  import opened Keys

  /** A token account: the authority that may debit it, and its balance. */
  datatype Account = Account(owner: Address, amount: nat)

  /** All token accounts of one mint, by address. */
  type Ledger = map<Address, Account>

  ghost function Pick(l: Ledger): (a: Address)
    requires l != map[]
    ensures a in l
  {
    var a :| a in l; a
  }

  /** The amount held in all accounts of the ledger. */
  ghost function Total(l: Ledger): nat
    decreases |l|
  {
    if l == map[] then 0
    else
      var a := Pick(l);
      assert |l - {a}| == |l| - 1 by { assert (l - {a}).Keys == l.Keys - {a}; }
      l[a].amount + Total(l - {a})
  }

  /** Removing any one account takes exactly its balance out of the total. */
  lemma {:induction false} TotalRemove(l: Ledger, a: Address)
    requires a in l
    ensures Total(l) == l[a].amount + Total(l - {a})
    decreases |l|
  {
    var b := Pick(l);
    if b != a {
      assert (l - {b}).Keys == l.Keys - {b};
      assert (l - {a}).Keys == l.Keys - {a};
      TotalRemove(l - {b}, a);
      TotalRemove(l - {a}, b);
      assert l - {b} - {a} == l - {a} - {b};
    }
  }

  /** Overwriting one account changes the total by the difference of the two balances. */
  lemma TotalUpdate(l: Ledger, a: Address, v: Account)
    ensures Total(l[a := v]) == Total(l) - (if a in l then l[a].amount else 0) + v.amount
  {
    TotalRemove(l[a := v], a);
    if a in l {
      TotalRemove(l, a);
      assert l[a := v] - {a} == l - {a};
    } else {
      assert l[a := v] - {a} == l;
    }
  }

  /**
   * `token::transfer`: move `amount` from `from` to `to`, signed by `authority`.
   * It fails when the source holds too little or is not owned by the signer; a
   * transfer from an account to itself moves nothing. No token is created or destroyed.
   */
  function Transfer(l: Ledger, from: Address, to: Address, amount: nat, authority: Address): (r: Result<Ledger>)
    requires from in l && to in l
    ensures r.Err? <==> l[from].amount < amount || l[from].owner != authority
    ensures r.Err? ==> r.error == (if l[from].amount < amount then InsufficientFunds else OwnerMismatch)
    ensures r.Ok? ==> (forall a :: a in r.value <==> a in l) && Total(r.value) == Total(l)
    ensures r.Ok? ==> forall a :: a in l ==> r.value[a].owner == l[a].owner
    ensures r.Ok? ==> forall a :: a in l && a != from && a != to ==> r.value[a] == l[a]
    ensures r.Ok? && from != to ==>
      r.value[from].amount == l[from].amount - amount && r.value[to].amount == l[to].amount + amount
    ensures r.Ok? && from == to ==> r.value == l
  {
    if l[from].amount < amount then Err(InsufficientFunds)
    else if l[from].owner != authority then Err(OwnerMismatch)
    else if from == to then Ok(l)
    else
      var debited := l[from := l[from].(amount := l[from].amount - amount)];
      var credited := debited[to := debited[to].(amount := debited[to].amount + amount)];
      TotalUpdate(l, from, debited[from]);
      TotalUpdate(debited, to, credited[to]);
      Ok(credited)
  }

  /** `token::mint_to` by the mint's authority: `amount` new tokens appear in `to`. */
  function MintTo(l: Ledger, to: Address, amount: nat): (r: Ledger)
    requires to in l
    ensures (forall a :: a in r <==> a in l) && Total(r) == Total(l) + amount
    ensures r[to] == l[to].(amount := l[to].amount + amount)
    ensures forall a :: a in l && a != to ==> r[a] == l[a]
  {
    TotalUpdate(l, to, l[to].(amount := l[to].amount + amount));
    l[to := l[to].(amount := l[to].amount + amount)]
  }

  /** `token::burn` signed by `authority`: `amount` tokens leave `from` and the supply. */
  function Burn(l: Ledger, from: Address, amount: nat, authority: Address): (r: Result<Ledger>)
    requires from in l
    ensures r.Err? <==> l[from].amount < amount || l[from].owner != authority
    ensures r.Err? ==> r.error == (if l[from].amount < amount then InsufficientFunds else OwnerMismatch)
    ensures r.Ok? ==> (forall a :: a in r.value <==> a in l) && Total(r.value) == Total(l) - amount
    ensures r.Ok? ==> r.value[from] == l[from].(amount := l[from].amount - amount)
    ensures r.Ok? ==> forall a :: a in l && a != from ==> r.value[a] == l[a]
  {
    if l[from].amount < amount then Err(InsufficientFunds)
    else if l[from].owner != authority then Err(OwnerMismatch)
    else
      TotalUpdate(l, from, l[from].(amount := l[from].amount - amount));
      Ok(l[from := l[from].(amount := l[from].amount - amount)])
  }

  /** `init_if_needed` on a token account: an empty account for `owner` appears at `at` if none is there. */
  function InitIfNeeded(l: Ledger, at: Address, owner: Address): (r: Ledger)
    ensures (forall a :: a in r <==> a in l || a == at) && Total(r) == Total(l)
    ensures at in l ==> r == l
    ensures at !in l ==> r == l[at := Account(owner, 0)]
  {
    if at in l then l
    else
      TotalUpdate(l, at, Account(owner, 0));
      l[at := Account(owner, 0)]
  }
}
