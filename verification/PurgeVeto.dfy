/** The durable veto history: how many extractions in a row, newest first, vetoed the purge. */
module PurgeVeto {
  import opened ChildRows
  import opened Store
  import opened Text

  // The extractions of the current streak: vetoed, and so is every newer one.
  ghost function Streak(latch: VetoLatch): set<string> {
    set v | v in latch && latch[v] != {} && (forall w :: w in latch && Less(v, w) ==> latch[w] != {})
  }

  // `purge_vetoed` of every recorded extraction, newest version first.
  ghost function Rows(latch: VetoLatch): (rows: seq<set<DataType>>)
    ensures |rows| == |Sorted(latch.Keys)|
  {
    var keys := Sorted(latch.Keys);
    assert forall k :: k in keys ==> k in Elements(keys);
    seq(|keys|, i requires 0 <= i < |keys| => latch[keys[|keys| - 1 - i]])
  }

  method ConsecutiveVetoes(ghost latch: VetoLatch, rows: seq<set<DataType>>) returns (consecutive: nat)
    requires rows == Rows(latch)
    ensures consecutive == |Streak(latch)|
  {
    consecutive := 0;
    for i := 0 to |rows|
      invariant consecutive == i
      invariant forall j :: 0 <= j < i ==> rows[j] != {}
    {
      if rows[i] == {} {
        break;
      }
      consecutive := consecutive + 1;
    }
    StreakIsThePrefix(latch, consecutive);
  }

  lemma StreakIsThePrefix(latch: VetoLatch, n: nat)
    requires n <= |Rows(latch)|
    requires forall i :: 0 <= i < n ==> Rows(latch)[i] != {}
    requires n < |Rows(latch)| ==> Rows(latch)[n] == {}
    ensures |Streak(latch)| == n
  {
    var keys := Sorted(latch.Keys);
    var cut := |keys| - n;
    assert forall k :: k in latch <==> k in Elements(keys);
    forall j | cut <= j < |keys| ensures latch[keys[j]] != {} {
      assert Rows(latch)[|keys| - 1 - j] == latch[keys[j]];
    }
    if n < |keys| {
      assert Rows(latch)[n] == latch[keys[cut - 1]];
    }
    StreakIsASuffix(latch, keys, cut);
    AscendingSize(keys[cut..]);
  }

  lemma StreakIsASuffix(latch: VetoLatch, keys: seq<string>, cut: nat)
    requires Ascending(keys) && Elements(keys) == latch.Keys && cut <= |keys|
    requires forall j :: cut <= j < |keys| ==> latch[keys[j]] != {}
    requires cut > 0 ==> latch[keys[cut - 1]] == {}
    ensures Streak(latch) == Elements(keys[cut..])
  {
    forall v | v in Streak(latch) ensures v in keys[cut..] {
      assert v in Elements(keys);
      var i :| 0 <= i < |keys| && keys[i] == v;
      assert cut > 0 ==> keys[cut - 1] in Elements(keys);
      assert i >= cut;
      assert keys[cut..][i - cut] == v;
    }
    forall v | v in keys[cut..] ensures v in Streak(latch) {
      var i :| 0 <= i < |keys[cut..]| && keys[cut..][i] == v;
      assert keys[cut + i] == v && v in Elements(keys);
      forall w | w in latch && Less(v, w) ensures latch[w] != {} {
        assert w in Elements(keys);
        var j :| 0 <= j < |keys| && keys[j] == w;
        NotAfter(keys, j, cut + i);
      }
    }
  }

  lemma NotAfter(keys: seq<string>, j: nat, i: nat)
    requires Ascending(keys) && j < |keys| && i < |keys| && Less(keys[i], keys[j])
    ensures i < j
  {
    LessIrreflexive(keys[i]);
    if j < i {
      LessTransitive(keys[i], keys[j], keys[i]);
    }
  }

  lemma {:induction false} AscendingSize(s: seq<string>)
    requires Ascending(s)
    ensures |Elements(s)| == |s|
  {
    if s != [] {
      var init := s[..|s| - 1];
      AscendingSize(init);
      LastIsGreatest(s);
      assert Elements(s) == Elements(init) + {s[|s| - 1]};
    }
  }

  function WithExtraction(latch: VetoLatch, key: string, vetoed: set<DataType>): VetoLatch {
    latch[key := Recorded(latch, key) + vetoed]
  }

  // The newest extraction extends the streak by one if it vetoed, and ends it if it did not.
  lemma NewestExtractionCounts(latch: VetoLatch, key: string, vetoed: set<DataType>)
    requires forall w :: w in latch ==> Less(w, key)
    ensures |Streak(WithExtraction(latch, key, vetoed))| == if vetoed == {} then 0 else |Streak(latch)| + 1
  {
    LessIrreflexive(key);
    var latch' := WithExtraction(latch, key, vetoed);
    assert latch'[key] == vetoed;
    forall w | w in latch ensures !Less(key, w) {
      if Less(key, w) {
        LessTransitive(key, w, key);
      }
    }
    if vetoed == {} {
      assert Streak(latch') == {};
    } else {
      assert Streak(latch') == Streak(latch) + {key};
    }
  }

  // A redelivery for an extraction already recorded never lowers the count.
  lemma RedeliveryNeverLowers(latch: VetoLatch, key: string, vetoed: set<DataType>)
    requires key in latch
    ensures Streak(latch) <= Streak(WithExtraction(latch, key, vetoed))
    ensures |Streak(latch)| <= |Streak(WithExtraction(latch, key, vetoed))|
  {
    var latch' := WithExtraction(latch, key, vetoed);
    forall w | w in latch ensures w in latch' && (latch[w] != {} ==> latch'[w] != {}) {
      assert w == key ==> latch[w] <= latch'[w];
    }
    StreakGrows(latch, latch');
    var before, after := Streak(latch), Streak(latch');
    assert after == before + (after - before);
  }

  lemma StreakGrows(latch: VetoLatch, latch': VetoLatch)
    requires latch'.Keys == latch.Keys
    requires forall w :: w in latch && latch[w] != {} ==> latch'[w] != {}
    ensures Streak(latch) <= Streak(latch')
  {
  }
}
