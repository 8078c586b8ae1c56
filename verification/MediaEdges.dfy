/** Collapsing a release's media block to one row per medium: group, sum, sort. */
module MediaEdges {
  import opened Text

  // A JSON value as far as this derivation can tell values apart.
  datatype Json = Missing | Str(text: string) | Int(number: int) | Bool(bool) | Other

  datatype MediaItem = NotAnObject | Item(medium: Json, family: Json, qty: Json)

  datatype EdgeRow = EdgeRow(medium: string, family: string, labelText: string, qty: int)

  const MAX_MEDIUM_QUANTITY := 999_999_999

  function MediumQuantity(value: Json): (q: int)
    ensures 1 <= q <= 999_999_999
    ensures q != 1 ==> value == Int(q)
    ensures value.Int? && 1 <= value.number <= 999_999_999 ==> value == Int(q)
  {
    match value
    case Int(n) => if 1 <= n <= MAX_MEDIUM_QUANTITY then n else 1
    case _ => 1
  }

  // A medium the vendored vocabulary does not hold is labelled by its own id.
  function MediumLabel(vocabulary: map<string, string>, medium: string): string {
    if medium in vocabulary then vocabulary[medium] else medium
  }

  predicate Usable(x: MediaItem) {
    x.Item? && x.medium.Str? && x.medium.text != "" && x.family.Str? && x.family.text != ""
  }

  predicate UsableFor(x: MediaItem, medium: string) {
    Usable(x) && x.medium.text == medium
  }

  /******* Reference: group by medium, sum the quantities *******/

  ghost function Media(items: seq<MediaItem>): set<string> {
    set x | x in items && Usable(x) :: x.medium.text
  }

  function Quantity(items: seq<MediaItem>, medium: string): nat {
    if items == [] then 0
    else
      var last := items[|items| - 1];
      Quantity(items[..|items| - 1], medium) + if UsableFor(last, medium) then MediumQuantity(last.qty) else 0
  }

  function Family(items: seq<MediaItem>, medium: string): string {
    if items == [] then ""
    else if UsableFor(items[0], medium) then items[0].family.text
    else Family(items[1..], medium)
  }

  function RowFor(items: seq<MediaItem>, vocabulary: map<string, string>, medium: string): EdgeRow {
    EdgeRow(medium, Family(items, medium), MediumLabel(vocabulary, medium), Quantity(items, medium))
  }

  ghost function Rows(items: seq<MediaItem>, vocabulary: map<string, string>): seq<EdgeRow> {
    var keys := Sorted(Media(items));
    seq(|keys|, i requires 0 <= i < |keys| => RowFor(items, vocabulary, keys[i]))
  }

  lemma MediaAppend(items: seq<MediaItem>, x: MediaItem)
    ensures Media(items + [x]) == Media(items) + if Usable(x) then {x.medium.text} else {}
  {
    assert forall y :: y in items + [x] <==> y in items || y == x;
    if Usable(x) {
      assert x in items + [x];
    }
  }

  lemma {:induction false} FamilyAppend(items: seq<MediaItem>, x: MediaItem, medium: string)
    ensures Family(items + [x], medium)
            == if medium in Media(items) then Family(items, medium)
               else if UsableFor(x, medium) then x.family.text else ""
  {
    if items == [] {
      assert ([] + [x])[1..] == [];
    } else {
      assert (items + [x])[1..] == items[1..] + [x];
      assert items == [items[0]] + items[1..];
      assert Media(items) == Media(items[1..]) + if Usable(items[0]) then {items[0].medium.text} else {};
      FamilyAppend(items[1..], x, medium);
    }
  }

  lemma {:induction false} AbsentMedium(items: seq<MediaItem>, medium: string)
    requires medium !in Media(items)
    ensures Quantity(items, medium) == 0
  {
    if items != [] {
      var init, last := items[..|items| - 1], items[|items| - 1];
      assert items == init + [last];
      MediaAppend(init, last);
      AbsentMedium(init, medium);
    }
  }

  // One more usable entry starts its medium's row or adds to its quantity; every other row is unchanged.
  lemma RowGrows(items: seq<MediaItem>, x: MediaItem, vocabulary: map<string, string>, medium: string)
    ensures var row, row' := RowFor(items, vocabulary, medium), RowFor(items + [x], vocabulary, medium);
            if !UsableFor(x, medium) then medium in Media(items) ==> row' == row
            else if medium in Media(items) then row' == row.(qty := row.qty + MediumQuantity(x.qty))
            else row' == EdgeRow(medium, x.family.text, MediumLabel(vocabulary, medium), MediumQuantity(x.qty))
  {
    assert (items + [x])[..|items|] == items;
    FamilyAppend(items, x, medium);
    if medium !in Media(items) {
      AbsentMedium(items, medium);
    }
  }

  // Python's sorted, over a dictionary's keys.
  method SortKeys(keys: set<string>) returns (r: seq<string>)
    ensures r == Sorted(keys)
  {
    var left := keys;
    r := [];
    while left != {}
      invariant left <= keys && Ascending(r) && Elements(r) == keys - left
    {
      var k :| k in left;
      assert k !in Elements(r);
      r := InsertInOrder(r, k);
      left := left - {k};
    }
    AscendingIsSorted(r);
  }

  // The dictionary after these items.
  ghost predicate Accumulated(byMedium: map<string, EdgeRow>, items: seq<MediaItem>, vocabulary: map<string, string>) {
    byMedium.Keys == Media(items) && forall m :: m in byMedium ==> byMedium[m] == RowFor(items, vocabulary, m)
  }

  lemma AccumulatedSkip(byMedium: map<string, EdgeRow>, items: seq<MediaItem>, x: MediaItem, vocabulary: map<string, string>)
    requires Accumulated(byMedium, items, vocabulary) && !Usable(x)
    ensures Accumulated(byMedium, items + [x], vocabulary)
  {
    MediaAppend(items, x);
    forall m | m in byMedium ensures byMedium[m] == RowFor(items + [x], vocabulary, m) {
      RowGrows(items, x, vocabulary, m);
    }
  }

  lemma AccumulatedAdd(byMedium: map<string, EdgeRow>, items: seq<MediaItem>, x: MediaItem, vocabulary: map<string, string>)
    requires Accumulated(byMedium, items, vocabulary) && Usable(x)
    ensures var m, q := x.medium.text, MediumQuantity(x.qty);
            Accumulated(byMedium[m := if m in byMedium then byMedium[m].(qty := byMedium[m].qty + q)
                                      else EdgeRow(m, x.family.text, MediumLabel(vocabulary, m), q)],
                        items + [x], vocabulary)
  {
    MediaAppend(items, x);
    forall m | m in Media(items + [x]) {
      RowGrows(items, x, vocabulary, m);
    }
  }

  method AddItem(byMedium: map<string, EdgeRow>, ghost items: seq<MediaItem>, x: MediaItem, vocabulary: map<string, string>)
    returns (r: map<string, EdgeRow>)
    requires Accumulated(byMedium, items, vocabulary)
    ensures Accumulated(r, items + [x], vocabulary)
  {
    if !x.Item? || !x.medium.Str? || x.medium.text == "" || !x.family.Str? || x.family.text == "" {
      AccumulatedSkip(byMedium, items, x, vocabulary);
      return byMedium;
    }
    AccumulatedAdd(byMedium, items, x, vocabulary);
    var m, quantity := x.medium.text, MediumQuantity(x.qty);
    if m !in byMedium {
      r := byMedium[m := EdgeRow(m, x.family.text, MediumLabel(vocabulary, m), quantity)];
    } else {
      r := byMedium[m := byMedium[m].(qty := byMedium[m].qty + quantity)];
    }
  }

  method Lookup(byMedium: map<string, EdgeRow>, keys: seq<string>) returns (rows: seq<EdgeRow>)
    requires forall j :: 0 <= j < |keys| ==> keys[j] in byMedium
    ensures |rows| == |keys| && forall j :: 0 <= j < |keys| ==> rows[j] == byMedium[keys[j]]
  {
    rows := [];
    for i := 0 to |keys|
      invariant |rows| == i && forall j :: 0 <= j < i ==> rows[j] == byMedium[keys[j]]
    {
      rows := rows + [byMedium[keys[i]]];
    }
  }

  method CollectMedia(items: seq<MediaItem>, vocabulary: map<string, string>) returns (byMedium: map<string, EdgeRow>)
    ensures Accumulated(byMedium, items, vocabulary)
  {
    byMedium := map[];
    for i := 0 to |items|
      invariant Accumulated(byMedium, items[..i], vocabulary)
    {
      assert items[..i + 1] == items[..i] + [items[i]];
      byMedium := AddItem(byMedium, items[..i], items[i], vocabulary);
    }
    assert items[..|items|] == items;
  }

  // media_edge_rows: the dictionary accumulates, and its keys come out sorted.
  method MediaEdgeRows(items: seq<MediaItem>, vocabulary: map<string, string>) returns (rows: seq<EdgeRow>)
    ensures rows == Rows(items, vocabulary)
  {
    var byMedium := CollectMedia(items, vocabulary);
    var keys := SortKeys(byMedium.Keys);
    assert forall k :: k in keys ==> k in Elements(keys);
    rows := Lookup(byMedium, keys);
  }

  /******* What the rows mean *******/

  lemma RowsAreStrictlySorted(items: seq<MediaItem>, vocabulary: map<string, string>)
    ensures var rows := Rows(items, vocabulary);
            && (forall i, j :: 0 <= i < j < |rows| ==> Less(rows[i].medium, rows[j].medium))
            && (forall m :: m in Media(items) <==> exists i :: 0 <= i < |rows| && rows[i].medium == m)
  {
    var keys, rows := Sorted(Media(items)), Rows(items, vocabulary);
    forall m ensures m in Media(items) <==> exists i :: 0 <= i < |rows| && rows[i].medium == m {
      assert m in Media(items) <==> m in Elements(keys);
      if m in keys {
        var i :| 0 <= i < |keys| && keys[i] == m;
        assert rows[i].medium == m;
      }
    }
  }

  // An entry that names medium `m` and family `f`.
  predicate Names(x: MediaItem, m: string, f: string) {
    x.Item? && x.medium == Str(m) && x.family == Str(f) && m != "" && f != ""
  }

  lemma {:induction false} FamilyIsTheFirst(items: seq<MediaItem>, m: string) returns (j: nat)
    requires m in Media(items)
    ensures j < |items| && Names(items[j], m, Family(items, m))
    ensures forall i, f :: 0 <= i < j ==> !Names(items[i], m, f)
  {
    if UsableFor(items[0], m) {
      j := 0;
    } else {
      assert items == [items[0]] + items[1..];
      var k := FamilyIsTheFirst(items[1..], m);
      j := k + 1;
      forall i, f | 0 <= i < j ensures !Names(items[i], m, f) {
        assert i > 0 ==> items[i] == items[1..][i - 1];
      }
    }
  }

  // Each row stands for the entries that name its medium: the first of them gives the family, the
  // vocabulary the label or else the id, and their quantities the quantity.
  lemma RowMeaning(items: seq<MediaItem>, vocabulary: map<string, string>, n: nat) returns (j: nat)
    requires n < |Rows(items, vocabulary)|
    ensures var row := Rows(items, vocabulary)[n];
            && j < |items| && Names(items[j], row.medium, row.family)
            && (forall i, f :: 0 <= i < j ==> !Names(items[i], row.medium, f))
            && row.labelText == (if row.medium in vocabulary then vocabulary[row.medium] else row.medium)
            && row.qty == Quantity(items, row.medium)
  {
    var keys := Sorted(Media(items));
    assert keys[n] in Elements(keys);
    j := FamilyIsTheFirst(items, keys[n]);
  }

  // A medium has a row exactly when an entry names it with a family.
  lemma RowExistsIff(items: seq<MediaItem>, vocabulary: map<string, string>, m: string)
    ensures (exists n :: 0 <= n < |Rows(items, vocabulary)| && Rows(items, vocabulary)[n].medium == m)
            <==> exists x, f :: x in items && Names(x, m, f)
  {
    RowsAreStrictlySorted(items, vocabulary);
    if m in Media(items) {
      var j := FamilyIsTheFirst(items, m);
      assert items[j] in items;
    }
    if x, f :| x in items && Names(x, m, f) {
      assert Usable(x) && x.medium.text == m;
    }
  }

  lemma QuantityOfOne(x: MediaItem, m: string)
    ensures Quantity([x], m) == if exists f :: Names(x, m, f) then MediumQuantity(x.qty) else 0
  {
    assert [x][..0] == [];
    if UsableFor(x, m) {
      assert Names(x, m, x.family.text);
    }
  }

  // How many entries contribute to a medium.
  function Entries(items: seq<MediaItem>, medium: string): nat {
    if items == [] then 0
    else Entries(items[..|items| - 1], medium) + if UsableFor(items[|items| - 1], medium) then 1 else 0
  }

  // Every row counts at least one unit an entry, and no entry counts more than the ceiling.
  lemma {:induction false} QuantityBounds(items: seq<MediaItem>, medium: string)
    ensures Entries(items, medium) <= Quantity(items, medium) <= MAX_MEDIUM_QUANTITY * Entries(items, medium)
    ensures medium in Media(items) <==> Quantity(items, medium) >= 1
  {
    if items != [] {
      var init, last := items[..|items| - 1], items[|items| - 1];
      assert items == init + [last];
      MediaAppend(init, last);
      QuantityBounds(init, medium);
    }
  }

  lemma {:induction false} QuantityAdds(a: seq<MediaItem>, b: seq<MediaItem>, medium: string)
    ensures Quantity(a + b, medium) == Quantity(a, medium) + Quantity(b, medium)
  {
    if b == [] {
      assert a + b == a;
    } else {
      assert (a + b)[..|a + b| - 1] == a + b[..|b| - 1];
      QuantityAdds(a, b[..|b| - 1], medium);
    }
  }

  lemma QuantityWithout(b: seq<MediaItem>, i: nat, medium: string)
    requires i < |b|
    ensures Quantity(b, medium) == Quantity(b[..i] + b[i + 1..], medium) + Quantity([b[i]], medium)
    ensures multiset(b[..i] + b[i + 1..]) == multiset(b) - multiset{b[i]}
  {
    var x := b[i];
    assert b == b[..i] + [x] + b[i + 1..];
    QuantityAdds(b[..i], b[i + 1..], medium);
    QuantityAdds(b[..i] + [x], b[i + 1..], medium);
    QuantityAdds(b[..i], [x], medium);
  }

  // The quantities depend on which entries the block holds, not on their order.
  lemma {:induction false} QuantityIgnoresOrder(a: seq<MediaItem>, b: seq<MediaItem>, medium: string)
    requires multiset(a) == multiset(b)
    ensures Quantity(a, medium) == Quantity(b, medium)
  {
    if a == [] {
      assert |multiset(b)| == 0;
    } else {
      var init, x := a[..|a| - 1], a[|a| - 1];
      assert a == init + [x];
      assert x in multiset(b);
      var i :| 0 <= i < |b| && b[i] == x;
      QuantityWithout(b, i, medium);
      assert multiset(init) == multiset(a) - multiset{x};
      QuantityIgnoresOrder(init, b[..i] + b[i + 1..], medium);
      QuantityAdds(init, [x], medium);
    }
  }

  // Usable entries of one medium name one family.
  ghost predicate FamiliesAgree(items: seq<MediaItem>) {
    forall x, y :: x in items && y in items && Usable(x) && UsableFor(y, x.medium.text) ==> x.family == y.family
  }

  lemma {:induction false} FamilyIsAnEntrys(items: seq<MediaItem>, medium: string)
    requires medium in Media(items)
    ensures exists x :: x in items && UsableFor(x, medium) && Family(items, medium) == x.family.text
  {
    if UsableFor(items[0], medium) {
      assert items[0] in items;
    } else {
      assert items == [items[0]] + items[1..];
      FamilyIsAnEntrys(items[1..], medium);
    }
  }

  lemma RowInRows(items: seq<MediaItem>, vocabulary: map<string, string>, medium: string) returns (i: nat)
    requires medium in Media(items)
    ensures i < |Rows(items, vocabulary)| && Rows(items, vocabulary)[i] == RowFor(items, vocabulary, medium)
  {
    var keys := Sorted(Media(items));
    assert medium in Elements(keys);
    i :| 0 <= i < |keys| && keys[i] == medium;
  }

  lemma SameEntriesSameRows(a: seq<MediaItem>, b: seq<MediaItem>, vocabulary: map<string, string>)
    requires FamiliesAgree(a) && multiset(a) == multiset(b)
    ensures Rows(a, vocabulary) == Rows(b, vocabulary)
  {
    assert forall x :: x in a <==> x in multiset(a);
    assert forall x :: x in b <==> x in multiset(b);
    assert Media(a) == Media(b);
    forall m | m in Media(a) ensures RowFor(a, vocabulary, m) == RowFor(b, vocabulary, m) {
      QuantityIgnoresOrder(a, b, m);
      FamilyIsAnEntrys(a, m);
      FamilyIsAnEntrys(b, m);
    }
    var keys := Sorted(Media(a));
    forall i | 0 <= i < |keys| ensures Rows(a, vocabulary)[i] == Rows(b, vocabulary)[i] {
      assert keys[i] in Elements(keys);
    }
  }

  // An entry moved to the front of the block.
  lemma MoveToFront(items: seq<MediaItem>, x: MediaItem) returns (moved: seq<MediaItem>)
    requires x in items
    ensures multiset(moved) == multiset(items) && moved != [] && moved[0] == x
  {
    var i :| 0 <= i < |items| && items[i] == x;
    moved := [x] + items[..i] + items[i + 1..];
    assert items == items[..i] + [x] + items[i + 1..];
  }

  // If two entries of one medium lead the block in turn and the rows stay the same, they name one family.
  lemma LeadersAgree(b: seq<MediaItem>, c: seq<MediaItem>, vocabulary: map<string, string>)
    requires b != [] && c != [] && Usable(b[0]) && UsableFor(c[0], b[0].medium.text)
    requires Rows(b, vocabulary) == Rows(c, vocabulary)
    ensures b[0].family == c[0].family
  {
    var m := b[0].medium.text;
    assert b[0] in b && c[0] in c;
    var i := RowInRows(b, vocabulary, m);
    var j := RowInRows(c, vocabulary, m);
    RowsAreDistinct(b, vocabulary);
    assert i == j;
  }

  lemma RowsAreDistinct(items: seq<MediaItem>, vocabulary: map<string, string>)
    ensures forall i, j :: 0 <= i < j < |Rows(items, vocabulary)| ==> Rows(items, vocabulary)[i].medium != Rows(items, vocabulary)[j].medium
  {
    RowsAreStrictlySorted(items, vocabulary);
    var rows := Rows(items, vocabulary);
    forall i, j | 0 <= i < j < |rows| ensures rows[i].medium != rows[j].medium {
      LessIrreflexive(rows[i].medium);
    }
  }

  // The family is the first usable entry's. So the rows of a block do not depend on its order exactly
  // when its usable entries of one medium name one family.
  lemma RowsIgnoreOrderIff(a: seq<MediaItem>, vocabulary: map<string, string>)
    ensures (forall b :: multiset(b) == multiset(a) ==> Rows(b, vocabulary) == Rows(a, vocabulary)) <==> FamiliesAgree(a)
  {
    if FamiliesAgree(a) {
      forall b | multiset(b) == multiset(a) ensures Rows(b, vocabulary) == Rows(a, vocabulary) {
        SameEntriesSameRows(a, b, vocabulary);
      }
    }
    if forall b :: multiset(b) == multiset(a) ==> Rows(b, vocabulary) == Rows(a, vocabulary) {
      forall x, y | x in a && y in a && Usable(x) && UsableFor(y, x.medium.text) ensures x.family == y.family {
        var b := MoveToFront(a, x);
        var c := MoveToFront(a, y);
        LeadersAgree(b, c, vocabulary);
      }
    }
  }

  /******* Conservation *******/

  function TotalQuantity(items: seq<MediaItem>): nat {
    if items == [] then 0
    else
      var last := items[|items| - 1];
      TotalQuantity(items[..|items| - 1]) + if Usable(last) then MediumQuantity(last.qty) else 0
  }

  function SumOver(items: seq<MediaItem>, keys: seq<string>): nat {
    if keys == [] then 0 else SumOver(items, keys[..|keys| - 1]) + Quantity(items, keys[|keys| - 1])
  }

  function SumOfRows(rows: seq<EdgeRow>): int {
    if rows == [] then 0 else SumOfRows(rows[..|rows| - 1]) + rows[|rows| - 1].qty
  }

  lemma {:induction false} OneKeyGrows(items: seq<MediaItem>, x: MediaItem, keys: seq<string>)
    requires Ascending(keys)
    ensures SumOver(items + [x], keys)
            == SumOver(items, keys) + if Usable(x) && x.medium.text in keys then MediumQuantity(x.qty) else 0
  {
    if keys != [] {
      var init, k := keys[..|keys| - 1], keys[|keys| - 1];
      OneKeyGrows(items, x, init);
      assert keys == init + [k];
      assert (items + [x])[..|items|] == items;
      LessIrreflexive(k);
    }
  }

  lemma {:induction false} SumsToTheTotal(items: seq<MediaItem>, keys: seq<string>)
    requires Ascending(keys) && Media(items) <= Elements(keys)
    ensures SumOver(items, keys) == TotalQuantity(items)
  {
    if items == [] {
      NothingToSum(keys);
    } else {
      var init, last := items[..|items| - 1], items[|items| - 1];
      assert items == init + [last];
      MediaAppend(init, last);
      SumsToTheTotal(init, keys);
      OneKeyGrows(init, last, keys);
      assert Usable(last) ==> last.medium.text in Elements(keys);
    }
  }

  lemma {:induction false} NothingToSum(keys: seq<string>)
    ensures SumOver([], keys) == 0
  {
    if keys != [] {
      NothingToSum(keys[..|keys| - 1]);
    }
  }

  lemma {:induction false} RowsSum(items: seq<MediaItem>, vocabulary: map<string, string>, keys: seq<string>)
    ensures SumOfRows(seq(|keys|, i requires 0 <= i < |keys| => RowFor(items, vocabulary, keys[i]))) == SumOver(items, keys)
  {
    if keys != [] {
      var init := keys[..|keys| - 1];
      RowsSum(items, vocabulary, init);
      var rows := seq(|keys|, i requires 0 <= i < |keys| => RowFor(items, vocabulary, keys[i]));
      assert rows[..|rows| - 1] == seq(|init|, i requires 0 <= i < |init| => RowFor(items, vocabulary, init[i]));
    }
  }

  // No unit is lost or invented by the collapse.
  lemma RowsConserveQuantity(items: seq<MediaItem>, vocabulary: map<string, string>)
    ensures SumOfRows(Rows(items, vocabulary)) == TotalQuantity(items)
  {
    RowsSum(items, vocabulary, Sorted(Media(items)));
    SumsToTheTotal(items, Sorted(Media(items)));
  }
}
