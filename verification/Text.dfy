/** Text order, as Python's `sorted` and a code-point collation see it, and ascending sequences. */
module Text {

  // Strict lexicographic order.
  predicate Less(a: string, b: string) {
    |b| > 0 && (|a| == 0 || a[0] < b[0] || (a[0] == b[0] && Less(a[1..], b[1..])))
  }

  lemma LessIrreflexive(a: string)
    ensures !Less(a, a)
  {
  }

  lemma {:induction false} LessTotal(a: string, b: string)
    ensures Less(a, b) || a == b || Less(b, a)
  {
    if a == [] || b == [] {
    } else if a[0] == b[0] {
      LessTotal(a[1..], b[1..]);
      assert a == [a[0]] + a[1..] && b == [b[0]] + b[1..];
    }
  }

  lemma {:induction false} LessTransitive(a: string, b: string, c: string)
    requires Less(a, b) && Less(b, c)
    ensures Less(a, c)
  {
    if a != [] && a[0] == b[0] && b[0] == c[0] {
      LessTransitive(a[1..], b[1..], c[1..]);
    }
  }

  // The order of code points: a proper prefix comes first, else the first differing character decides.
  lemma {:induction false} LessIff(a: string, b: string)
    ensures Less(a, b) <==>
            || (|a| < |b| && a == b[..|a|])
            || (exists i :: 0 <= i < |a| && i < |b| && a[..i] == b[..i] && a[i] < b[i])
  {
    if a == [] || b == [] {
      assert a == [] ==> a == b[..0];
    } else if a[0] != b[0] {
      if a[0] < b[0] {
        assert a[..0] == b[..0];
      }
      forall i | 0 < i < |a| && i < |b| ensures a[..i] != b[..i] {
        assert a[..i][0] == a[0] && b[..i][0] == b[0];
      }
      if |a| < |b| {
        assert b[..|a|][0] == b[0];
      }
    } else {
      LessIff(a[1..], b[1..]);
      LessTails(a, b);
    }
  }

  lemma LessTails(a: string, b: string)
    requires a != [] && b != [] && a[0] == b[0]
    ensures (|a| < |b| && a == b[..|a|]) <==> (|a[1..]| < |b[1..]| && a[1..] == b[1..][..|a[1..]|])
    ensures (exists i :: 0 <= i < |a| && i < |b| && a[..i] == b[..i] && a[i] < b[i])
            <==> (exists i :: 0 <= i < |a[1..]| && i < |b[1..]| && a[1..][..i] == b[1..][..i] && a[1..][i] < b[1..][i])
  {
    assert a == [a[0]] + a[1..] && b == [b[0]] + b[1..];
    if |a| < |b| {
      assert b[..|a|] == [b[0]] + b[1..][..|a| - 1];
    }
    forall i | 0 <= i < |a| - 1 && i < |b| - 1
      ensures (a[..i + 1] == b[..i + 1] && a[i + 1] < b[i + 1]) <==> (a[1..][..i] == b[1..][..i] && a[1..][i] < b[1..][i])
    {
      assert a[..i + 1] == [a[0]] + a[1..][..i] && b[..i + 1] == [b[0]] + b[1..][..i];
      assert [a[0]] + a[1..][..i] == [b[0]] + b[1..][..i] ==> a[1..][..i] == b[1..][..i] by {
        assert ([a[0]] + a[1..][..i])[1..] == a[1..][..i] && ([b[0]] + b[1..][..i])[1..] == b[1..][..i];
      }
    }
    if i :| 0 <= i < |a| && i < |b| && a[..i] == b[..i] && a[i] < b[i] {
      assert 0 <= i - 1 < |a[1..]| && a[..i - 1 + 1] == b[..i - 1 + 1] && a[i - 1 + 1] < b[i - 1 + 1];
    }
    if i :| 0 <= i < |a[1..]| && i < |b[1..]| && a[1..][..i] == b[1..][..i] && a[1..][i] < b[1..][i] {
      assert a[..i + 1] == b[..i + 1] && a[i + 1] < b[i + 1];
    }
  }

  ghost predicate Ascending(s: seq<string>) {
    forall i, j :: 0 <= i < j < |s| ==> Less(s[i], s[j])
  }

  ghost function Elements(s: seq<string>): set<string> {
    set x | x in s
  }

  ghost predicate IsGreatest(m: string, s: set<string>) {
    m in s && forall x :: x in s && x != m ==> Less(x, m)
  }

  lemma {:induction false} GreatestExists(s: set<string>) returns (m: string)
    requires s != {}
    ensures IsGreatest(m, s)
  {
    var x :| x in s;
    if s == {x} {
      m := x;
    } else {
      var rest := s - {x};
      assert s == {x} + rest;
      var n := GreatestExists(rest);
      LessTotal(x, n);
      if Less(x, n) {
        m := n;
      } else {
        m := x;
        forall y | y in s && y != x ensures Less(y, x) {
          if y != n { LessTransitive(y, n, x); }
        }
      }
    }
  }

  lemma GreatestUnique(m: string, n: string, s: set<string>)
    requires IsGreatest(m, s) && IsGreatest(n, s)
    ensures m == n
  {
    if m != n {
      LessTransitive(m, n, m);
      LessIrreflexive(m);
    }
  }

  // The elements of `s`, each once, in ascending order.
  ghost function Sorted(s: set<string>): (r: seq<string>)
    ensures Ascending(r) && Elements(r) == s && |r| == |s|
  {
    if s == {} then []
    else
      var m := Greatest(s);
      var r := Sorted(s - {m});
      assert forall x :: x in r ==> x in Elements(r);
      assert forall x :: x in s ==> x == m || x in Elements(r);
      r + [m]
  }

  ghost function Greatest(s: set<string>): (m: string)
    requires s != {}
    ensures IsGreatest(m, s)
  {
    assert exists m :: IsGreatest(m, s) by { var m := GreatestExists(s); }
    var m :| IsGreatest(m, s);
    m
  }

  lemma LastIsGreatest(r: seq<string>)
    requires Ascending(r) && r != []
    ensures r == r[..|r| - 1] + [r[|r| - 1]] && IsGreatest(r[|r| - 1], Elements(r)) && Ascending(r[..|r| - 1])
    ensures Elements(r[..|r| - 1]) == Elements(r) - {r[|r| - 1]}
  {
    var init, last := r[..|r| - 1], r[|r| - 1];
    assert r == init + [last];
    LessIrreflexive(last);
  }

  // Only one ascending sequence holds a given set, so `Sorted` is the order any sort must reach.
  lemma {:induction false} AscendingIsSorted(r: seq<string>)
    requires Ascending(r)
    ensures r == Sorted(Elements(r))
  {
    if r != [] {
      LastIsGreatest(r);
      AscendingIsSorted(r[..|r| - 1]);
      SortedSnoc(r[..|r| - 1], r[|r| - 1], Elements(r));
    }
  }

  lemma SortedSnoc(init: seq<string>, last: string, s: set<string>)
    requires IsGreatest(last, s) && init == Sorted(s - {last})
    ensures init + [last] == Sorted(s)
  {
    SortedStep(s, last);
  }

  lemma SortedStep(s: set<string>, m: string)
    requires IsGreatest(m, s)
    ensures Sorted(s) == Sorted(s - {m}) + [m]
  {
    GreatestUnique(m, Greatest(s), s);
  }

  // Insert `x` into an ascending sequence that does not hold it.
  method InsertInOrder(s: seq<string>, x: string) returns (r: seq<string>)
    requires Ascending(s) && x !in s
    ensures Ascending(r) && Elements(r) == Elements(s) + {x}
  {
    var i := 0;
    while i < |s| && Less(s[i], x)
      invariant 0 <= i <= |s|
      invariant forall j :: 0 <= j < i ==> Less(s[j], x)
    {
      i := i + 1;
    }
    r := s[..i] + [x] + s[i..];
    if i < |s| {
      LessTotal(s[i], x);
      forall j | i < j < |s| ensures Less(x, s[j]) { LessTransitive(x, s[i], s[j]); }
    }
    assert forall y :: y in s ==> y in s[..i] || y in s[i..];
  }
}
