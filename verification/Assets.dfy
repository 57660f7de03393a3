/** The fungible-assets ledger behind every pallet: balances per (asset, account) and issuance per asset. */
module Assets {
  import opened Base
  import opened Sums

  datatype Ledger = Ledger(balances: map<(Asset, Account), nat>, issuance: map<Asset, nat>) {

    function Balance(a: Asset, w: Account): nat {
      if (a, w) in balances then balances[(a, w)] else 0
    }

    function Issued(a: Asset): nat {
      if a in issuance then issuance[a] else 0
    }

    function Set(a: Asset, w: Account, n: nat): Ledger {
      this.(balances := balances[(a, w) := n])
    }

    function Transfer(a: Asset, from: Account, to: Account, amount: nat): (r: Result<Ledger>)
      ensures r.Ok? <==> amount <= Balance(a, from)
      ensures r.Ok? ==> Moved(this, r.value, a, from, to, amount)
    {
      if amount == 0 then Ok(this)
      else if Balance(a, from) < amount then Err(FundsUnavailable) else
        var taken := Set(a, from, Balance(a, from) - amount);
        Ok(taken.Set(a, to, taken.Balance(a, to) + amount))
    }

    function Mint(a: Asset, to: Account, amount: nat): (r: Result<Ledger>)
      ensures r.Ok? <==> Issued(a) + amount <= U128_MAX
      ensures r.Ok? ==> Changed(this, r.value, a, to, amount, amount)
    {
      if Issued(a) + amount > U128_MAX then Err(Overflow) else
        Ok(Set(a, to, Balance(a, to) + amount).(issuance := issuance[a := Issued(a) + amount]))
    }

    function Burn(a: Asset, from: Account, amount: nat): (r: Result<Ledger>)
      ensures r.Ok? ==> amount <= Balance(a, from) && amount <= Issued(a)
      ensures amount <= Balance(a, from) && amount <= Issued(a) ==> r.Ok?
      ensures r.Ok? ==> Changed(this, r.value, a, from, 0 - amount, 0 - amount)
    {
      if Balance(a, from) < amount || Issued(a) < amount then Err(FundsUnavailable) else
        Ok(Set(a, from, Balance(a, from) - amount).(issuance := issuance[a := Issued(a) - amount]))
    }
  }

  /** Only the two named balances differ, and what leaves one enters the other. */
  ghost predicate Moved(l: Ledger, n: Ledger, a: Asset, from: Account, to: Account, amount: nat) {
    && n.issuance == l.issuance
    && (forall b: Asset, w: Account :: (b, w) != (a, from) && (b, w) != (a, to) ==> n.Balance(b, w) == l.Balance(b, w))
    && (from != to ==> n.Balance(a, from) == l.Balance(a, from) - amount)
    && (from != to ==> n.Balance(a, to) == l.Balance(a, to) + amount)
    && (from == to ==> n.Balance(a, to) == l.Balance(a, to))
  }

  /** Only one balance and the issuance of its asset differ, by the given amounts. */
  ghost predicate Changed(l: Ledger, n: Ledger, a: Asset, w: Account, delta: int, issued: int) {
    && (forall b: Asset, v: Account :: (b, v) != (a, w) ==> n.Balance(b, v) == l.Balance(b, v))
    && (forall b: Asset :: b != a ==> n.Issued(b) == l.Issued(b))
    && n.Balance(a, w) == l.Balance(a, w) + delta
    && n.Issued(a) == l.Issued(a) + issued
  }

  // ---------- issuance is the sum of the balances ----------

  ghost function Holdings(l: Ledger, a: Asset): map<(Asset, Account), int> {
    map p | p in l.balances && p.0 == a :: l.balances[p]
  }

  ghost predicate Backed(l: Ledger) {
    forall a: Asset :: Sum(Holdings(l, a)) == l.Issued(a)
  }

  lemma SetHoldings(l: Ledger, a: Asset, w: Account, n: nat)
    ensures Sum(Holdings(l.Set(a, w, n), a)) == Sum(Holdings(l, a)) + n - l.Balance(a, w)
    ensures forall b: Asset :: b != a ==> Holdings(l.Set(a, w, n), b) == Holdings(l, b)
  {
    hide Sum;
    assert Holdings(l.Set(a, w, n), a) == Holdings(l, a)[(a, w) := n];
    SumUpdate(Holdings(l, a), (a, w), n);
  }

  lemma MoveHoldings(l: Ledger, a: Asset, from: Account, to: Account, amount: nat)
    requires amount <= l.Balance(a, from)
    ensures var taken := l.Set(a, from, l.Balance(a, from) - amount);
            var end := taken.Set(a, to, taken.Balance(a, to) + amount);
            && Sum(Holdings(end, a)) == Sum(Holdings(l, a))
            && forall b: Asset :: b != a ==> Holdings(end, b) == Holdings(l, b)
  {
    hide Sum;
    var taken := l.Set(a, from, l.Balance(a, from) - amount);
    SetHoldings(l, a, from, l.Balance(a, from) - amount);
    SetHoldings(taken, a, to, taken.Balance(a, to) + amount);
  }

  lemma TransferBacked(l: Ledger, a: Asset, from: Account, to: Account, amount: nat)
    requires Backed(l) && l.Transfer(a, from, to, amount).Ok?
    ensures Backed(l.Transfer(a, from, to, amount).value)
  {
    hide Sum;
    if amount > 0 {
      MoveHoldings(l, a, from, to, amount);
    }
  }

  lemma MintBacked(l: Ledger, a: Asset, to: Account, amount: nat)
    requires Backed(l) && l.Mint(a, to, amount).Ok?
    ensures Backed(l.Mint(a, to, amount).value)
  {
    hide Sum;
    SetIssuance(l.Set(a, to, l.Balance(a, to) + amount), l.issuance[a := l.Issued(a) + amount]);
    SetHoldings(l, a, to, l.Balance(a, to) + amount);
  }

  lemma BurnBacked(l: Ledger, a: Asset, from: Account, amount: nat)
    requires Backed(l) && l.Burn(a, from, amount).Ok?
    ensures Backed(l.Burn(a, from, amount).value)
  {
    hide Sum;
    SetIssuance(l.Set(a, from, l.Balance(a, from) - amount), l.issuance[a := l.Issued(a) - amount]);
    SetHoldings(l, a, from, l.Balance(a, from) - amount);
  }

  lemma SetIssuance(l: Ledger, issuance: map<Asset, nat>)
    ensures forall b: Asset :: Holdings(l.(issuance := issuance), b) == Holdings(l, b)
  {
  }

  /** Two accounts together hold no more than was issued. */
  lemma TwoHolders(l: Ledger, a: Asset, x: Account, y: Account)
    requires Backed(l) && x != y
    ensures l.Balance(a, x) + l.Balance(a, y) <= l.Issued(a)
  {
    var m := Holdings(l, a);
    SumNonNegative(m);
    if (a, x) in m {
      SumRemove(m, (a, x));
      SumNonNegative(m - {(a, x)});
      if (a, y) in m {
        SumAtLeast(m - {(a, x)}, (a, y));
      }
    } else if (a, y) in m {
      SumAtLeast(m, (a, y));
    }
  }

  // ---------- balances are machine integers ----------

  /** Issuance is the sum of the balances and fits 128 bits, and so does every balance. */
  ghost predicate Fits(l: Ledger) {
    Backed(l) && forall a: Asset :: l.Issued(a) <= U128_MAX
  }

  lemma BalanceFits(l: Ledger, a: Asset, x: Account, y: Account)
    requires Fits(l) && x != y
    ensures l.Balance(a, x) + l.Balance(a, y) <= U128_MAX
  {
    TwoHolders(l, a, x, y);
  }

  lemma TransferFits(l: Ledger, a: Asset, from: Account, to: Account, amount: nat)
    requires Fits(l) && l.Transfer(a, from, to, amount).Ok?
    ensures Fits(l.Transfer(a, from, to, amount).value)
  {
    hide Backed, Ledger.Transfer;
    TransferBacked(l, a, from, to, amount);
    assert forall b: Asset :: l.Transfer(a, from, to, amount).value.Issued(b) == l.Issued(b);
  }

  // ---------- ledgers to start from ----------

  lemma EmptyLedger() returns (l: Ledger)
    ensures Backed(l) && Fits(l)
    ensures forall a: Asset :: l.Issued(a) == 0
    ensures forall a: Asset, w: Account :: l.Balance(a, w) == 0
  {
    l := Ledger(map[], map[]);
    forall a: Asset
      ensures Sum(Holdings(l, a)) == 0
    {
      assert Holdings(l, a) == map[];
    }
  }

  lemma Minted(l: Ledger, a: Asset, w: Account, amount: nat) returns (n: Ledger)
    requires Backed(l) && l.Issued(a) + amount <= U128_MAX
    ensures Backed(n) && Changed(l, n, a, w, amount, amount)
    ensures Fits(l) ==> Fits(n)
  {
    hide Backed;
    n := l.Mint(a, w, amount).value;
    MintBacked(l, a, w, amount);
  }
}
