/** Quoting a path backwards: what `get_amounts_in` asks at every asset against the least that is needed there, and what
    quoting or trading that input forwards brings. */
module AmmQuotes {
  import opened Base
  import opened Assets
  import opened AmmMath
  import opened Amm
  import opened AmmEffects
  import opened AmmRuns
  import opened AmmTrades

  /** The pool of two assets has what is paid in on the first side, what is paid out on the second. */
  predicate HasPool(s: State, a: Asset, b: Asset) {
    a != b && (if a > b then (a, b) in s.pools else (b, a) in s.pools)
  }

  function ReserveIn(s: State, a: Asset, b: Asset): nat
    requires HasPool(s, a, b)
  {
    if a > b then s.pools[(a, b)].base else s.pools[(b, a)].quote
  }

  function ReserveOut(s: State, a: Asset, b: Asset): nat
    requires HasPool(s, a, b)
  {
    if a > b then s.pools[(a, b)].quote else s.pools[(b, a)].base
  }

  lemma ReservesAre(s: State, a: Asset, b: Asset)
    ensures GetReserves(s, a, b).Ok? <==> HasPool(s, a, b)
    ensures GetReserves(s, a, b).Ok? ==> GetReserves(s, a, b).value == (ReserveIn(s, a, b), ReserveOut(s, a, b))
  {
  }

  lemma ReservesFit(s: State, a: Asset, b: Asset)
    requires AmmInv(s) && HasPool(s, a, b)
    ensures 0 < ReserveIn(s, a, b) <= U128_MAX && 0 < ReserveOut(s, a, b) <= U128_MAX
  {
    hide Backed;
    assert PoolOk(s, if a > b then (a, b) else (b, a));
  }

  /** What hop `i` of a path needs at the least to bring `wanted`. */
  function HopLeast(s: State, path: seq<Asset>, i: nat, wanted: nat): nat
    requires i + 1 < |path| && HasPool(s, path[i], path[i + 1]) && wanted < ReserveOut(s, path[i], path[i + 1])
    requires s.cfg.lpFee < MILLION
  {
    LeastIn(s.cfg.lpFee, wanted, ReserveIn(s, path[i], path[i + 1]), ReserveOut(s, path[i], path[i + 1]))
  }

  /** The hop exists and can pay what is wanted from it. */
  predicate HopPays(s: State, path: seq<Asset>, i: nat, wanted: nat)
    requires i + 1 < |path|
  {
    HasPool(s, path[i], path[i + 1]) && wanted < ReserveOut(s, path[i], path[i + 1])
  }

  /** The reverse quote: it ends with the wanted amount, and what it asks before every hop is within one unit of the
      least that brings what it asks after that hop. */
  lemma {:induction false} ReverseQuote(s: State, amountOut: nat, path: seq<Asset>, i: nat)
    requires AmmInv(s) && 2 * s.cfg.lpFee <= MILLION && path != []
    requires GetAmountsIn(s, amountOut, path).Ok? && i + 1 < |path|
    ensures var r := GetAmountsIn(s, amountOut, path).value;
            && |r| == |path| && r[|path| - 1] == amountOut
            && HopPays(s, path, i, r[i + 1])
            && -1 <= r[i] - HopLeast(s, path, i, r[i + 1]) <= 1
            && GetAmountIn(s.cfg.lpFee, r[i + 1], ReserveIn(s, path[i], path[i + 1]), ReserveOut(s, path[i], path[i + 1]))
               == Ok(r[i])
    decreases |path|
  {
    hide AmmInv, GetAmountIn, GetReserves, LeastIn;
    var r := GetAmountsIn(s, amountOut, path).value;
    var after := GetAmountsIn(s, amountOut, path[1..]).value;
    ReservesAre(s, path[0], path[1]);
    if i == 0 {
      EndsWith(s, amountOut, path);
      ReservesFit(s, path[0], path[1]);
      PaysLess(s.cfg.lpFee, after[0], ReserveIn(s, path[0], path[1]), ReserveOut(s, path[0], path[1]));
      AmountInWithinOne(s.cfg.lpFee, after[0], ReserveIn(s, path[0], path[1]), ReserveOut(s, path[0], path[1]));
    } else {
      ReverseQuote(s, amountOut, path[1..], i - 1);
      assert r[i] == after[i - 1] && r[i + 1] == after[i];
    }
  }

  /** What is asked before every hop is within one unit of the least that the hop needs. */
  ghost predicate NearLeast(s: State, path: seq<Asset>, r: seq<nat>)
    requires |r| == |path| && s.cfg.lpFee < MILLION
  {
    forall i :: 0 <= i < |path| - 1 ==> HopNearLeast(s, path, r, i)
  }

  ghost predicate HopNearLeast(s: State, path: seq<Asset>, r: seq<nat>, i: nat)
    requires |r| == |path| && i + 1 < |path| && s.cfg.lpFee < MILLION
  {
    HopPays(s, path, i, r[i + 1]) && -1 <= r[i] - HopLeast(s, path, i, r[i + 1]) <= 1
  }

  lemma ReverseQuoteNear(s: State, amountOut: nat, path: seq<Asset>)
    requires AmmInv(s) && 2 * s.cfg.lpFee <= MILLION && path != [] && GetAmountsIn(s, amountOut, path).Ok?
    ensures NearLeast(s, path, GetAmountsIn(s, amountOut, path).value)
  {
    hide AmmInv, GetAmountsIn, LeastIn, HopPays;
    forall i | 0 <= i < |path| - 1
      ensures HopNearLeast(s, path, GetAmountsIn(s, amountOut, path).value, i)
    {
      ReverseQuote(s, amountOut, path, i);
    }
  }

  lemma {:induction false} EndsWith(s: State, amountOut: nat, path: seq<Asset>)
    requires path != [] && s.cfg.lpFee < MILLION && GetAmountsIn(s, amountOut, path).Ok?
    ensures var r := GetAmountsIn(s, amountOut, path).value; r[|path| - 1] == amountOut
    decreases |path|
  {
    hide GetAmountIn, GetReserves;
    if |path| > 1 {
      EndsWith(s, amountOut, path[1..]);
    }
  }

  lemma PaysLess(fee: nat, wanted: nat, reserveIn: nat, reserveOut: nat)
    requires fee < MILLION && GetAmountIn(fee, wanted, reserveIn, reserveOut).Ok?
    ensures wanted < reserveOut
  {
  }

  /** A reverse quote exists exactly if every hop can be quoted. */
  lemma {:induction false} ReverseQuoteExists(s: State, amountOut: nat, path: seq<Asset>)
    requires path != [] && s.cfg.lpFee < MILLION
    ensures GetAmountsIn(s, amountOut, path).Ok? <==>
              exists r: seq<nat> :: ChainedBack(s, amountOut, path, r)
    ensures GetAmountsIn(s, amountOut, path).Ok? ==> ChainedBack(s, amountOut, path, GetAmountsIn(s, amountOut, path).value)
    decreases |path|
  {
    hide GetAmountIn, GetReserves;
    if |path| == 1 {
      assert ChainedBack(s, amountOut, path, [amountOut]);
    } else {
      ReservesAre(s, path[0], path[1]);
      ReverseQuoteExists(s, amountOut, path[1..]);
      if GetAmountsIn(s, amountOut, path).Ok? {
        ChainOneMore(s, amountOut, path, GetAmountsIn(s, amountOut, path).value);
      }
      if r: seq<nat> :| ChainedBack(s, amountOut, path, r) {
        ChainOneLess(s, amountOut, path, r);
        ChainsAgree(s, amountOut, path[1..], r[1..], GetAmountsIn(s, amountOut, path[1..]).value);
      }
    }
  }

  /** Amounts linked hop by hop, from the wanted one at the end to the one asked at the start. */
  ghost predicate ChainedBack(s: State, amountOut: nat, path: seq<Asset>, r: seq<nat>)
    requires path != [] && s.cfg.lpFee < MILLION
  {
    && |r| == |path| && r[|path| - 1] == amountOut
    && forall i :: 0 <= i < |path| - 1 ==> Linked(s, path, r, i)
  }

  ghost predicate Linked(s: State, path: seq<Asset>, r: seq<nat>, i: nat)
    requires |r| == |path| && i + 1 < |path| && s.cfg.lpFee < MILLION
  {
    && HasPool(s, path[i], path[i + 1])
    && GetAmountIn(s.cfg.lpFee, r[i + 1], ReserveIn(s, path[i], path[i + 1]), ReserveOut(s, path[i], path[i + 1]))
       == Ok(r[i])
  }

  lemma ChainOneMore(s: State, amountOut: nat, path: seq<Asset>, r: seq<nat>)
    requires |path| > 1 && s.cfg.lpFee < MILLION && |r| == |path|
    requires ChainedBack(s, amountOut, path[1..], r[1..]) && Linked(s, path, r, 0)
    ensures ChainedBack(s, amountOut, path, r)
  {
    forall i | 0 <= i < |path| - 1
      ensures Linked(s, path, r, i)
    {
      if i > 0 {
        assert Linked(s, path[1..], r[1..], i - 1);
      }
    }
  }

  lemma ChainOneLess(s: State, amountOut: nat, path: seq<Asset>, r: seq<nat>)
    requires |path| > 1 && s.cfg.lpFee < MILLION && ChainedBack(s, amountOut, path, r)
    ensures ChainedBack(s, amountOut, path[1..], r[1..]) && Linked(s, path, r, 0)
  {
    forall i | 0 <= i < |path[1..]| - 1
      ensures Linked(s, path[1..], r[1..], i)
    {
      assert Linked(s, path, r, i + 1);
    }
  }

  /** There is only one such chain. */
  lemma {:induction false} ChainsAgree(s: State, amountOut: nat, path: seq<Asset>, r: seq<nat>, q: seq<nat>)
    requires path != [] && s.cfg.lpFee < MILLION
    requires ChainedBack(s, amountOut, path, r) && ChainedBack(s, amountOut, path, q)
    ensures r == q
    decreases |path|
  {
    if |path| > 1 {
      ChainOneLess(s, amountOut, path, r);
      ChainOneLess(s, amountOut, path, q);
      ChainsAgree(s, amountOut, path[1..], r[1..], q[1..]);
      assert r == [r[0]] + r[1..] && q == [q[0]] + q[1..];
    }
  }

  // ---------- forwards again ----------

  /** What is asked before the hop does bring what is asked after it: the net input needed not be rounded, or the unit
      lost in rounding is worth no more than the one unit added. */
  predicate HopSuffices(s: State, path: seq<Asset>, i: nat, wanted: nat)
    requires i + 1 < |path| && HopPays(s, path, i, wanted) && s.cfg.lpFee < MILLION
  {
    var x, y := ReserveIn(s, path[i], path[i + 1]), ReserveOut(s, path[i], path[i + 1]);
    var net := x * wanted / (y - wanted);
    || x * wanted % (y - wanted) == 0
    || CeilDiv((net + 1) * MILLION, MILLION - s.cfg.lpFee) <= CeilDiv(net * MILLION, MILLION - s.cfg.lpFee) + 1
  }

  lemma SufficesIsEnough(s: State, amountOut: nat, path: seq<Asset>, i: nat)
    requires AmmInv(s) && 2 * s.cfg.lpFee <= MILLION && path != []
    requires GetAmountsIn(s, amountOut, path).Ok? && i + 1 < |path|
    ensures var r := GetAmountsIn(s, amountOut, path).value;
            && |r| == |path| && HopPays(s, path, i, r[i + 1])
            && (HopSuffices(s, path, i, r[i + 1]) <==> HopLeast(s, path, i, r[i + 1]) <= r[i])
  {
    hide AmmInv, GetAmountIn, GetAmountsIn, LeastIn, GetAmountOut;
    ReverseQuote(s, amountOut, path, i);
    var r := GetAmountsIn(s, amountOut, path).value;
    var x, y := ReserveIn(s, path[i], path[i + 1]), ReserveOut(s, path[i], path[i + 1]);
    ReservesFit(s, path[i], path[i + 1]);
    AmountInSuffices(s.cfg.lpFee, r[i + 1], x, y);
    LeastInIsLeast(s.cfg.lpFee, r[i + 1], x, y, r[i]);
  }

  /** Quoting forwards, step by step: a hop brings at least what was wanted after it exactly if at least the least for
      that comes in. */
  lemma ForwardHop(s: State, amountIn: nat, path: seq<Asset>, wanted: nat)
    requires AmmInv(s) && |path| > 1 && GetAmountsOut(s, amountIn, path[..|path| - 1]).Ok?
    requires HopPays(s, path, |path| - 2, wanted)
    ensures GetAmountsOut(s, amountIn, path).Ok?
    ensures var before, all := GetAmountsOut(s, amountIn, path[..|path| - 1]).value, GetAmountsOut(s, amountIn, path).value;
            && all[..|path| - 1] == before
            && (all[|path| - 1] >= wanted <==> HopLeast(s, path, |path| - 2, wanted) <= before[|path| - 2])
  {
    hide GetAmountOut, LeastIn, Backed, GetReserves;
    var n := |path|;
    ReservesAre(s, path[n - 2], path[n - 1]);
    ReservesFit(s, path[n - 2], path[n - 1]);
    var before := GetAmountsOut(s, amountIn, path[..n - 1]).value;
    LeastInIsLeast(s.cfg.lpFee, wanted, ReserveIn(s, path[n - 2], path[n - 1]), ReserveOut(s, path[n - 2], path[n - 1]),
                   before[n - 2]);
  }

  /** Every hop of the path suffices for what is asked after it. */
  ghost predicate AllSuffice(s: State, path: seq<Asset>, r: seq<nat>)
    requires |r| == |path| && s.cfg.lpFee < MILLION
  {
    forall i :: 0 <= i < |path| - 1 ==> HopIsGood(s, path, r, i)
  }

  predicate HopIsGood(s: State, path: seq<Asset>, r: seq<nat>, i: nat)
    requires |r| == |path| && i + 1 < |path| && s.cfg.lpFee < MILLION
  {
    HopPays(s, path, i, r[i + 1]) && HopSuffices(s, path, i, r[i + 1])
  }

  /** Back and forth: where every hop suffices, quoting the asked input forwards brings at least the asked amount at
      every asset, so at least the wanted amount at the end. */
  lemma {:induction false} BackAndForth(s: State, amountOut: nat, path: seq<Asset>, n: nat)
    requires AmmInv(s) && 2 * s.cfg.lpFee <= MILLION && 1 <= n <= |path| && GetAmountsIn(s, amountOut, path).Ok?
    requires AllSuffice(s, path, GetAmountsIn(s, amountOut, path).value)
    ensures var r := GetAmountsIn(s, amountOut, path).value;
            && GetAmountsOut(s, r[0], path[..n]).Ok?
            && forall i :: 0 <= i < n ==> GetAmountsOut(s, r[0], path[..n]).value[i] >= r[i]
    decreases n
  {
    hide AmmInv, GetAmountsIn, HopSuffices, GetReserves, GetAmountOut, LeastIn;
    var r := GetAmountsIn(s, amountOut, path).value;
    if n > 1 {
      BackAndForth(s, amountOut, path, n - 1);
      assert path[..n][..n - 1] == path[..n - 1];
      SufficesIsEnough(s, amountOut, path, n - 2);
      assert HopIsGood(s, path, r, n - 2);
      assert path[..n][n - 2] == path[n - 2] && path[..n][n - 1] == path[n - 1];
      ForwardHop(s, r[0], path[..n], r[n - 1]);
      var before, all := GetAmountsOut(s, r[0], path[..n - 1]).value, GetAmountsOut(s, r[0], path[..n]).value;
      assert forall i :: 0 <= i < n - 1 ==> all[i] == all[..n - 1][i] == before[i];
    }
  }

  /** And so it is with trading: the asked input, traded along a path of different pools, pays out at least what was
      asked at every asset. */
  lemma TradeReaches(s: State, who: UserId, amountOut: nat, path: seq<Asset>)
    requires AmmInv(s) && 2 * s.cfg.lpFee <= MILLION && path != [] && DistinctHops(path)
    requires GetAmountsIn(s, amountOut, path).Ok? && AllSuffice(s, path, GetAmountsIn(s, amountOut, path).value)
    requires SwapAlong(s, who, GetAmountsIn(s, amountOut, path).value[0], path).Ok?
    ensures var r := GetAmountsIn(s, amountOut, path).value;
            var paid := SwapAlong(s, who, r[0], path).value.1;
            && |paid| == |path| && (forall i :: 0 <= i < |path| ==> paid[i] >= r[i]) && paid[|path| - 1] >= amountOut
  {
    hide AmmInv, GetAmountsIn, GetAmountsOut, SwapAlong, AllSuffice, DistinctHops;
    var r := GetAmountsIn(s, amountOut, path).value;
    InvFee(s);
    BackAndForth(s, amountOut, path, |path|);
    assert path[..|path|] == path;
    EndsWith(s, amountOut, path);
    QuoteRefinesTrade(s, who, r[0], path);
  }
}
