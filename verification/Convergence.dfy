/** Refreshing upserts converge: order and repetition only move the refresh times. */
module Convergence {
  import opened ChildRows

  lemma {:induction false} UpsertsAreMerge(t: Table, ds: seq<Derived>, now: int)
    ensures UpsertAll(t, ds, now, true) == t + UpsertAll(map[], ds, now, true)
  {
    if ds != [] {
      UpsertsAreMerge(t, ds[..|ds| - 1], now);
    }
  }

  // A run of messages acts on any table as one merge.
  lemma {:induction false} ReplayIsMerge(t: Table, bs: seq<Batch>)
    ensures Replay(t, bs) == t + Replay(map[], bs)
  {
    if bs != [] {
      var init, last := bs[..|bs| - 1], bs[|bs| - 1];
      ReplayIsMerge(t, init);
      UpsertsAreMerge(Replay(t, init), last.rows, last.now);
      UpsertsAreMerge(Replay(map[], init), last.rows, last.now);
    }
  }

  lemma {:induction false} UpsertedRows(ds: seq<Derived>, now: int)
    ensures var e := UpsertAll(map[], ds, now, true);
            && e.Keys == KeysOf(set d | d in ds)
            && forall k :: k in e ==> e[k].updatedAt == now && Derived(k, e[k].ended) in ds
  {
    if ds != [] {
      var init, last := ds[..|ds| - 1], ds[|ds| - 1];
      UpsertedRows(init, now);
      var e, e0 := UpsertAll(map[], ds, now, true), UpsertAll(map[], init, now, true);
      assert e == e0[last.key := ChildRow(last.ended, now)];
      assert (set d | d in ds) == (set d | d in init) + {last};
      assert last.key in KeysOf(set d | d in ds);
      forall k | k in e ensures Derived(k, e[k].ended) in ds {
        assert k != last.key ==> Derived(k, e0[k].ended) in init;
        assert k == last.key ==> Derived(k, e[k].ended) == last;
      }
    }
  }

  // The rows a run leaves are exactly the reported keys, each with a reported value and time.
  lemma {:induction false} ReplayedRows(bs: seq<Batch>)
    ensures var e := Replay(map[], bs);
            && e.Keys == KeysOf(Reported(bs))
            && (forall k :: k in e ==> Derived(k, e[k].ended) in Reported(bs)
                                       && exists b :: b in bs && b.now == e[k].updatedAt)
  {
    if bs != [] {
      var init, last := bs[..|bs| - 1], bs[|bs| - 1];
      ReplayedRows(init);
      UpsertsAreMerge(Replay(map[], init), last.rows, last.now);
      UpsertedRows(last.rows, last.now);
      assert forall b :: b in bs <==> b in init || b == last;
      var e, e0, e1 := Replay(map[], bs), Replay(map[], init), Effect(last);
      assert e == e0 + e1;
      assert Reported(bs) == Reported(init) + (set d | d in last.rows);
      assert forall k :: k in e1.Keys <==> k in KeysOf(set d | d in last.rows);
      assert KeysOf(Reported(bs)) == KeysOf(Reported(init)) + KeysOf(set d | d in last.rows);
      assert last in bs;
    }
  }

  // Every report of one key agrees on `ended`.
  ghost predicate Agree(ds: set<Derived>) {
    forall a, b :: a in ds && b in ds && a.key == b.key ==> a.ended == b.ended
  }

  // Same reports, in any order and any number of times: same contents, whatever was there before.
  lemma Converges(t: Table, bs: seq<Batch>, bs': seq<Batch>)
    requires Reported(bs) == Reported(bs') && Agree(Reported(bs))
    ensures Contents(Replay(t, bs)) == Contents(Replay(t, bs'))
  {
    ReplayIsMerge(t, bs);
    ReplayIsMerge(t, bs');
    ReplayedRows(bs);
    ReplayedRows(bs');
    var e, e' := Replay(map[], bs), Replay(map[], bs');
    forall k | k in e ensures e[k].ended == e'[k].ended {
      assert Derived(k, e[k].ended) in Reported(bs) && Derived(k, e'[k].ended) in Reported(bs');
    }
  }

  // Two messages may be swapped exactly when they leave the same `ended` on every key they share.
  lemma SwapIff(t: Table, a: Batch, b: Batch)
    ensures Contents(Replay(t, [a, b])) == Contents(Replay(t, [b, a])) <==>
            forall k :: k in Effect(a) && k in Effect(b) ==> Effect(a)[k].ended == Effect(b)[k].ended
  {
    TwoBatches(t, a, b);
    TwoBatches(t, b, a);
    var ab, ba := Contents(Replay(t, [a, b])), Contents(Replay(t, [b, a]));
    forall k | k in Effect(a) && k in Effect(b)
      ensures k in ab && k in ba && ab[k] == Effect(b)[k].ended && ba[k] == Effect(a)[k].ended
    {
    }
  }

  lemma TwoBatches(t: Table, a: Batch, b: Batch)
    ensures Replay(t, [a, b]) == t + Effect(a) + Effect(b)
  {
    assert [a, b][..1] == [a] && [a][..0] == [];
    assert Replay(t, [a]) == UpsertAll(t, a.rows, a.now, true);
    UpsertsAreMerge(t, a.rows, a.now);
    UpsertsAreMerge(t + Effect(a), b.rows, b.now);
  }

  // A reported row reads as fresh at a boundary its message followed exactly when the conflict
  // refreshed it, it was new, or it was fresh already: the refresh on every conflict is needed.
  lemma {:induction false} LiveRowIsFreshIff(t: Table, ds: seq<Derived>, now: int, refresh: bool, boundary: int, k: ChildKey)
    requires boundary <= now && exists d :: d in ds && d.key == k
    ensures var t' := UpsertAll(t, ds, now, refresh);
            k in t' && (t'[k].updatedAt >= boundary <==> refresh || k !in t || t[k].updatedAt >= boundary)
  {
    if refresh {
      UpsertsAreMerge(t, ds, now);
      UpsertedRows(ds, now);
    } else {
      UnrefreshedTime(t, ds, now);
    }
  }

  // The refresh moves times only: the same rows hold the same `ended` with it and without.
  lemma {:induction false} RefreshChangesOnlyTimes(t: Table, ds: seq<Derived>, now: int)
    ensures Contents(UpsertAll(t, ds, now, false)) == Contents(UpsertAll(t, ds, now, true))
  {
    if ds != [] {
      var init, last := ds[..|ds| - 1], ds[|ds| - 1];
      RefreshChangesOnlyTimes(t, init, now);
      var a, b := UpsertAll(t, init, now, false), UpsertAll(t, init, now, true);
      assert Contents(a).Keys == a.Keys && Contents(b).Keys == b.Keys;
      assert forall k :: k in a ==> Contents(a)[k] == a[k].ended && Contents(b)[k] == b[k].ended;
    }
  }

  // The last report of a key gives its row.
  lemma {:induction false} LastReportWins(t: Table, ds: seq<Derived>, now: int, i: nat)
    requires i < |ds| && forall j :: i < j < |ds| ==> ds[j].key != ds[i].key
    ensures var t' := UpsertAll(t, ds, now, true); ds[i].key in t' && t'[ds[i].key] == ChildRow(ds[i].ended, now)
  {
    if i < |ds| - 1 {
      LastReportWins(t, ds[..|ds| - 1], now, i);
    }
  }

  // A key not reported keeps its row, or its absence.
  lemma {:induction false} UnreportedKeyStays(t: Table, ds: seq<Derived>, now: int, refresh: bool, k: ChildKey)
    requires forall i :: 0 <= i < |ds| ==> ds[i].key != k
    ensures var t' := UpsertAll(t, ds, now, refresh); (k in t' <==> k in t) && (k in t ==> t'[k] == t[k])
  {
    if ds != [] {
      UnreportedKeyStays(t, ds[..|ds| - 1], now, refresh, k);
    }
  }

  lemma {:induction false} UnrefreshedTime(t: Table, ds: seq<Derived>, now: int)
    ensures var t' := UpsertAll(t, ds, now, false);
            && (forall k :: k in t' <==> k in t || exists d :: d in ds && d.key == k)
            && (forall k :: k in t' ==> t'[k].updatedAt == if k in t then t[k].updatedAt else now)
  {
    if ds != [] {
      var init, last := ds[..|ds| - 1], ds[|ds| - 1];
      UnrefreshedTime(t, init, now);
      assert forall d :: d in ds <==> d in init || d == last;
    }
  }
}
