/** One table's purge under the delete-fraction cap, and what chains of purges compose to. */
module StalePurge {
  import opened ChildRows

  // The cap as an exact fraction; a share of stale rows at or past it is refused.
  datatype Fraction = Fraction(num: nat, den: nat)
  type Cap = c: Fraction | c.den > 0 witness Fraction(9, 10)

  const DEFAULT_MAX_DELETE_FRACTION: Cap := Fraction(9, 10)

  function Stale(t: Table, boundary: int): set<ChildKey> {
    set k | k in t && t[k].updatedAt < boundary
  }

  function Fresh(t: Table, boundary: int): Table {
    t - Stale(t, boundary)
  }

  // Some rows are stale, and they are too large a share of the table.
  predicate Refused(t: Table, boundary: int, cap: Cap) {
    var stale := |Stale(t, boundary)|;
    stale > 0 && stale * cap.den >= cap.num * |t|
  }

  function PurgeTable(t: Table, boundary: int, cap: Cap): Table {
    if Refused(t, boundary, cap) then t else Fresh(t, boundary)
  }

  function PurgeChain(t: Table, boundaries: seq<int>, cap: Cap): Table {
    if boundaries == [] then t
    else PurgeTable(PurgeChain(t, boundaries[..|boundaries| - 1], cap), boundaries[|boundaries| - 1], cap)
  }

  lemma FreshSize(t: Table, boundary: int)
    ensures |Fresh(t, boundary)| == |t| - |Stale(t, boundary)|
  {
    var stale := Stale(t, boundary);
    assert t.Keys == Fresh(t, boundary).Keys + stale;
    assert Fresh(t, boundary).Keys !! stale;
    assert |Fresh(t, boundary).Keys| == |Fresh(t, boundary)| && |t.Keys| == |t|;
  }

  // The rows refreshed since `b`, and whether the share of the others is small enough to let them go.
  function Refreshed(t: Table, b: int): Table {
    map k | k in t && t[k].updatedAt >= b :: t[k]
  }

  predicate Accepts(t: Table, b: int, cap: Cap) {
    var kept := Refreshed(t, b);
    kept == t || (|t| - |kept|) * cap.den < cap.num * |t|
  }

  // A purge keeps exactly the refreshed rows when they are all there is, or when the share of the others
  // is strictly below the cap; otherwise it keeps everything.
  lemma PurgeKeepsExactly(t: Table, b: int, cap: Cap)
    ensures var kept := map k | k in t && t[k].updatedAt >= b :: t[k];
            PurgeTable(t, b, cap) == if kept == t || (|t| - |kept|) * cap.den < cap.num * |t| then kept else t
    ensures Fresh(t, b) == Refreshed(t, b) && (Refused(t, b, cap) <==> !Accepts(t, b, cap))
  {
    FreshSize(t, b);
    assert Fresh(t, b) == Refreshed(t, b);
    if Stale(t, b) == {} {
      assert Refreshed(t, b) == t;
    } else {
      var k :| k in Stale(t, b);
      assert k in t && k !in Refreshed(t, b);
      assert |Stale(t, b)| > 0;
    }
  }

  // The default cap: nine stale rows in ten are refused, any smaller share goes.
  lemma DefaultCapIsNineTenths(t: Table, b: int)
    ensures Accepts(t, b, DEFAULT_MAX_DELETE_FRACTION) <==>
            Refreshed(t, b) == t || 10 * (|t| - |Refreshed(t, b)|) < 9 * |t|
  {
  }

  // Purging removes only rows older than the boundary and changes no other row.
  lemma PurgeKeepsFreshRows(t: Table, boundary: int, cap: Cap)
    ensures var t' := PurgeTable(t, boundary, cap);
            && (forall k :: k in t' ==> k in t && t'[k] == t[k])
            && (forall k :: k in t && k !in t' ==> t[k].updatedAt < boundary)
  {
  }

  // A table already purged has no stale row left, so purging again deletes nothing.
  lemma PurgeIsIdempotent(t: Table, boundary: int, cap: Cap)
    ensures PurgeTable(PurgeTable(t, boundary, cap), boundary, cap) == PurgeTable(t, boundary, cap)
  {
    if !Refused(t, boundary, cap) {
      assert Stale(Fresh(t, boundary), boundary) == {};
    }
  }

  /******* Composition *******/

  // One purge at an earlier boundary leaves the same rows to be fresh later, and can only help
  // the later purge stay under the cap.
  lemma EarlierPurgeIsAbsorbed(t: Table, earlier: int, later: int, cap: Cap)
    requires earlier <= later && !Refused(t, later, cap)
    ensures Fresh(PurgeTable(t, earlier, cap), later) == Fresh(t, later)
    ensures !Refused(PurgeTable(t, earlier, cap), later, cap)
  {
    if !Refused(t, earlier, cap) {
      var t' := Fresh(t, earlier);
      var gone := Stale(t, earlier);
      assert gone <= Stale(t, later);
      assert Stale(t', later) == Stale(t, later) - gone;
      assert |Stale(t', later)| == |Stale(t, later)| - |gone|;
      FreshSize(t, earlier);
      RemovingStaleLowersTheShare(|Stale(t, later)|, |t|, |gone|, cap) by {
        assert Stale(t, later) <= t.Keys;
        SubsetSize(Stale(t, later), t.Keys);
      }
    }
  }

  lemma {:induction false} SubsetSize(a: set<ChildKey>, b: set<ChildKey>)
    requires a <= b
    ensures |a| <= |b|
  {
    assert b == a + (b - a);
  }

  lemma RemovingStaleLowersTheShare(stale: nat, total: nat, gone: nat, cap: Cap)
    requires gone <= stale <= total
    requires stale > 0 ==> stale * cap.den < cap.num * total
    ensures stale - gone > 0 ==> (stale - gone) * cap.den < cap.num * (total - gone)
  {
    if stale - gone > 0 {
      if cap.num >= cap.den {
        assert stale < total || cap.num > cap.den;
        ShareBelowOne(stale - gone, total - gone, cap);
      } else {
        ShareAboveNone(stale, total, gone, cap.num, cap.den);
      }
    }
  }

  lemma ShareAboveNone(stale: nat, total: nat, gone: nat, num: nat, den: nat)
    requires gone <= stale <= total && num <= den && stale * den < num * total
    ensures (stale - gone) * den < num * (total - gone)
  {
    WeakProduct(den, num, gone);
    assert (stale - gone) * den == stale * den - gone * den;
    assert num * (total - gone) == num * total - gone * num;
  }

  lemma ShareBelowOne(stale: nat, total: nat, cap: Cap)
    requires 0 < stale <= total && cap.num >= cap.den
    requires stale < total || cap.num > cap.den
    ensures stale * cap.den < cap.num * total
  {
    assert stale * cap.den <= total * cap.den <= total * cap.num;
    if stale < total {
      assert (total - stale) * cap.den > 0;
    } else {
      assert total * (cap.num - cap.den) > 0;
    }
  }

  // A chain of purges whose last one alone would be accepted is that one purge.
  lemma {:induction false} ChainIsItsLastPurge(t: Table, boundaries: seq<int>, last: int, cap: Cap)
    requires forall b :: b in boundaries ==> b <= last
    requires Accepts(t, last, cap)
    ensures PurgeChain(t, boundaries + [last], cap) == PurgeTable(t, last, cap) == Refreshed(t, last)
  {
    PurgeKeepsExactly(t, last, cap);
    AbsorbChain(t, boundaries, last, cap);
    assert (boundaries + [last])[..|boundaries|] == boundaries;
  }

  lemma {:induction false} AbsorbChain(t: Table, boundaries: seq<int>, last: int, cap: Cap)
    requires forall b :: b in boundaries ==> b <= last
    requires !Refused(t, last, cap)
    ensures var t' := PurgeChain(t, boundaries, cap);
            !Refused(t', last, cap) && Fresh(t', last) == Fresh(t, last)
  {
    if boundaries != [] {
      var init, b := boundaries[..|boundaries| - 1], boundaries[|boundaries| - 1];
      assert b in boundaries && forall x :: x in init ==> x in boundaries;
      AbsorbChain(t, init, last, cap);
      EarlierPurgeIsAbsorbed(PurgeChain(t, init, cap), b, last, cap);
      assert PurgeChain(t, boundaries, cap) == PurgeTable(PurgeChain(t, init, cap), b, cap);
    }
  }

  /******* Retention *******/

  function Power(b: nat, n: nat): nat {
    if n == 0 then 1 else b * Power(b, n - 1)
  }

  // One purge keeps more than the share the cap leaves.
  lemma PurgeRetains(t: Table, boundary: int, cap: Cap)
    requires 0 < cap.num <= cap.den && |t| > 0
    ensures |PurgeTable(t, boundary, cap)| * cap.den > |t| * (cap.den - cap.num)
    ensures |PurgeTable(t, boundary, cap)| > 0
  {
    FreshSize(t, boundary);
    KeptShare(|t|, if Refused(t, boundary, cap) then 0 else |Stale(t, boundary)|, cap);
  }

  lemma KeptShare(total: nat, stale: nat, cap: Cap)
    requires 0 < cap.num <= cap.den && total > 0 && (stale == 0 || stale * cap.den < cap.num * total)
    ensures (total - stale) * cap.den > total * (cap.den - cap.num) && total > stale
  {
    assert cap.num * total > 0;
    assert total * (cap.den - cap.num) == total * cap.den - cap.num * total;
    assert (total - stale) * cap.den == total * cap.den - stale * cap.den;
    assert total * (cap.den - cap.num) >= 0;
    PositiveFactor(total - stale, cap.den);
  }

  lemma PositiveFactor(a: int, b: nat)
    ensures a <= 0 ==> a * b <= 0
  {
  }

  // k purges of a non-empty table leave more than (1 - cap)^k of it, and never empty it.
  lemma {:induction false} ChainRetains(t: Table, boundaries: seq<int>, cap: Cap)
    requires 0 < cap.num <= cap.den && |t| > 0
    ensures var kept := |PurgeChain(t, boundaries, cap)|;
            && kept > 0
            && kept * Power(cap.den, |boundaries|) >= |t| * Power(cap.den - cap.num, |boundaries|)
            && (boundaries != [] ==> kept * Power(cap.den, |boundaries|) > |t| * Power(cap.den - cap.num, |boundaries|))
  {
    if boundaries != [] {
      var init, k := boundaries[..|boundaries| - 1], |boundaries| - 1;
      ChainRetains(t, init, cap);
      var before := PurgeChain(t, init, cap);
      PurgeRetains(before, boundaries[k], cap);
      PowerPositive(cap.den, k);
      RetentionStep(|before|, |PurgeChain(t, boundaries, cap)|, |t|, cap.den, cap.den - cap.num,
                    Power(cap.den, k), Power(cap.den - cap.num, k));
    }
  }

  lemma {:induction false} PowerPositive(b: nat, n: nat)
    requires b > 0
    ensures Power(b, n) > 0
  {
    if n > 0 {
      PowerPositive(b, n - 1);
      assert b * Power(b, n - 1) > 0;
    }
  }

  lemma RetentionStep(before: nat, after: nat, total: nat, den: nat, left: nat, denK: nat, leftK: nat)
    requires after * den > before * left && before * denK >= total * leftK && denK > 0
    ensures after * (den * denK) > total * (left * leftK)
  {
    calc {
      after * (den * denK);
      (after * den) * denK;
    > { StrictProduct(after * den, before * left, denK); }
      (before * left) * denK;
      left * (before * denK);
    >= { WeakProduct(before * denK, total * leftK, left); }
      left * (total * leftK);
      total * (left * leftK);
    }
  }

  lemma StrictProduct(a: nat, b: nat, c: nat)
    requires a > b && c > 0
    ensures a * c > b * c
  {
    assert (a - b) * c > 0;
  }

  lemma WeakProduct(a: nat, b: nat, c: nat)
    requires a >= b
    ensures c * a >= c * b
  {
    assert c * (a - b) >= 0;
  }
}
