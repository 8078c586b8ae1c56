/**
 The MusicBrainz half of `graph.issued_on`, a table shared with another loader, and the media
 vocabulary beside it.
 */
module IssuedOn {
  import opened Wrappers
  import opened Text
  import opened MediaEdges

  // The primary key (release_id, medium_id, source).
  datatype EdgeKey = EdgeKey(release: string, medium: string, source: string)

  type EdgeTable = map<EdgeKey, int>

  datatype VocabularyEntry = VocabularyEntry(family: string, labelText: string)

  const MEDIA_SOURCE := "musicbrainz"

  predicate InRange(k: EdgeKey, release: string, source: string) {
    k.release == release && k.source == source
  }

  function Prune(t: EdgeTable, release: string, source: string): EdgeTable {
    map k | k in t && !InRange(k, release, source) :: t[k]
  }

  function Edges(release: string, source: string, rows: seq<EdgeRow>): EdgeTable {
    if rows == [] then map[]
    else
      var last := rows[|rows| - 1];
      Edges(release, source, rows[..|rows| - 1])[EdgeKey(release, last.medium, source) := last.qty]
  }

  ghost predicate DistinctMedia(rows: seq<EdgeRow>) {
    forall i, j :: 0 <= i < j < |rows| ==> rows[i].medium != rows[j].medium
  }

  lemma {:induction false} EdgeKeys(release: string, source: string, rows: seq<EdgeRow>)
    ensures forall k :: k in Edges(release, source, rows) <==>
                        InRange(k, release, source) && exists i :: 0 <= i < |rows| && rows[i].medium == k.medium
  {
    if rows != [] {
      var init, last := rows[..|rows| - 1], rows[|rows| - 1];
      EdgeKeys(release, source, init);
      forall k ensures k in Edges(release, source, rows) <==>
                       InRange(k, release, source) && exists i :: 0 <= i < |rows| && rows[i].medium == k.medium
      {
        assert rows[|rows| - 1] == last;
        assert forall i :: 0 <= i < |init| ==> init[i] == rows[i];
        if k == EdgeKey(release, last.medium, source) {
          assert rows[|rows| - 1].medium == k.medium;
        }
      }
    }
  }

  // ON CONFLICT DO NOTHING: the entry already there wins.
  function AddMedia(vocabulary: map<string, VocabularyEntry>, rows: seq<EdgeRow>): map<string, VocabularyEntry> {
    if rows == [] then vocabulary
    else
      var before, last := AddMedia(vocabulary, rows[..|rows| - 1]), rows[|rows| - 1];
      if last.medium in before then before else before[last.medium := VocabularyEntry(last.family, last.labelText)]
  }

  // A medium either loader wrote keeps its family and label; every medium of the rows ends up present;
  // the same rows again add nothing.
  lemma {:induction false} VocabularyIsFirstWriterWins(vocabulary: map<string, VocabularyEntry>, rows: seq<EdgeRow>)
    ensures var v' := AddMedia(vocabulary, rows);
            && (forall m :: m in vocabulary ==> m in v' && v'[m] == vocabulary[m])
            && (forall i :: 0 <= i < |rows| ==> rows[i].medium in v')
            && AddMedia(v', rows) == v'
  {
    if rows != [] {
      var init := rows[..|rows| - 1];
      VocabularyIsFirstWriterWins(vocabulary, init);
      KnownMediaAddNothing(AddMedia(vocabulary, rows), rows) by {
        assert forall i :: 0 <= i < |init| ==> init[i] == rows[i];
      }
    }
  }

  // A new medium takes the family and label of the first row that names it.
  lemma {:induction false} NewMediumIsItsFirstRow(vocabulary: map<string, VocabularyEntry>, rows: seq<EdgeRow>, i: nat)
    requires i < |rows| && rows[i].medium !in vocabulary && forall j :: 0 <= j < i ==> rows[j].medium != rows[i].medium
    ensures rows[i].medium in AddMedia(vocabulary, rows)
    ensures var entry := AddMedia(vocabulary, rows)[rows[i].medium];
            entry.family == rows[i].family && entry.labelText == rows[i].labelText
  {
    var init := rows[..|rows| - 1];
    if i < |rows| - 1 {
      NewMediumIsItsFirstRow(vocabulary, init, i);
    } else {
      UnnamedMediumIsNotAdded(vocabulary, init, rows[i].medium);
    }
  }

  lemma {:induction false} UnnamedMediumIsNotAdded(vocabulary: map<string, VocabularyEntry>, rows: seq<EdgeRow>, m: string)
    requires m !in vocabulary && forall j :: 0 <= j < |rows| ==> rows[j].medium != m
    ensures m !in AddMedia(vocabulary, rows)
  {
    if rows != [] {
      UnnamedMediumIsNotAdded(vocabulary, rows[..|rows| - 1], m);
    }
  }

  lemma {:induction false} KnownMediaAddNothing(vocabulary: map<string, VocabularyEntry>, rows: seq<EdgeRow>)
    requires forall i :: 0 <= i < |rows| ==> rows[i].medium in vocabulary
    ensures AddMedia(vocabulary, rows) == vocabulary
  {
    if rows != [] {
      KnownMediaAddNothing(vocabulary, rows[..|rows| - 1]);
    }
  }

  function FamiliesOf(rows: seq<EdgeRow>): set<string> {
    set r | r in rows :: r.family
  }

  // Every edge's medium is in the vocabulary, and every medium's family is known.
  ghost predicate Referenced(t: EdgeTable, vocabulary: map<string, VocabularyEntry>, families: set<string>) {
    && (forall k :: k in t ==> k.medium in vocabulary)
    && (forall m :: m in vocabulary ==> vocabulary[m].family in families)
  }

  lemma {:induction false} AddMediaAdds(vocabulary: map<string, VocabularyEntry>, rows: seq<EdgeRow>)
    ensures forall m :: m in AddMedia(vocabulary, rows) ==>
              || (m in vocabulary && AddMedia(vocabulary, rows)[m] == vocabulary[m])
              || AddMedia(vocabulary, rows)[m].family in FamiliesOf(rows)
  {
    if rows != [] {
      var init := rows[..|rows| - 1];
      AddMediaAdds(vocabulary, init);
      assert rows[|rows| - 1] in rows && FamiliesOf(init) <= FamiliesOf(rows);
    }
  }

  // One message's writes keep every reference, whatever was stored before.
  lemma WritesKeepReferences(t: EdgeTable, vocabulary: map<string, VocabularyEntry>, families: set<string>,
                             release: string, source: string, rows: seq<EdgeRow>)
    requires Referenced(t, vocabulary, families)
    ensures Referenced(Prune(t, release, source) + Edges(release, source, rows),
                       AddMedia(vocabulary, rows), families + FamiliesOf(rows))
  {
    VocabularyIsFirstWriterWins(vocabulary, rows);
    AddMediaAdds(vocabulary, rows);
    EdgeKeys(release, source, rows);
  }

  // Whether a row's key is taken when its turn comes: an earlier row names its medium.
  lemma TakenIff(t: EdgeTable, release: string, source: string, rows: seq<EdgeRow>, i: nat)
    requires i < |rows| && forall k :: k in t ==> !InRange(k, release, source)
    ensures EdgeKey(release, rows[i].medium, source) in t + Edges(release, source, rows[..i])
            <==> exists j :: 0 <= j < i && rows[j].medium == rows[i].medium
  {
    EdgeKeys(release, source, rows[..i]);
    assert forall j :: 0 <= j < i ==> rows[..i][j] == rows[j];
  }

  // The inserts over a pruned range, inside the message's transaction.
  method InsertEdges(t: EdgeTable, release: string, source: string, rows: seq<EdgeRow>) returns (ok: bool, staged: EdgeTable)
    requires forall k :: k in t ==> !InRange(k, release, source)
    ensures ok <==> DistinctMedia(rows)
    ensures ok ==> staged == t + Edges(release, source, rows)
  {
    staged := t;
    for i := 0 to |rows|
      invariant staged == t + Edges(release, source, rows[..i])
      invariant forall n, j :: 0 <= j < n < i ==> rows[j].medium != rows[n].medium
    {
      assert rows[..i + 1][..i] == rows[..i];
      TakenIff(t, release, source, rows, i);
      if EdgeKey(release, rows[i].medium, source) in staged {
        return false, staged;
      }
      staged := staged[EdgeKey(release, rows[i].medium, source) := rows[i].qty];
    }
    assert rows[..|rows|] == rows;
    return true, staged;
  }

  class GraphStore {
    var issuedOn: EdgeTable
    var media: map<string, VocabularyEntry>
    var families: set<string>

    ghost predicate AllReferenced()
      reads this
    {
      Referenced(issuedOn, media, families)
    }

    constructor ()
      ensures issuedOn == map[] && media == map[] && families == {} && AllReferenced()
    {
      issuedOn, media, families := map[], map[], {};
    }

    // A family already there wins, so the names only ever join the set.
    method UpsertMediaFamilies(names: set<string>)
      modifies `families
      ensures families == old(families) + names
    {
      families := families + names;
    }

    method UpsertMedia(rows: seq<EdgeRow>)
      modifies `media
      ensures media == AddMedia(old(media), rows)
    {
      for i := 0 to |rows|
        invariant media == AddMedia(old(media), rows[..i])
      {
        assert rows[..i + 1][..i] == rows[..i];
        if rows[i].medium !in media {
          media := media[rows[i].medium := VocabularyEntry(rows[i].family, rows[i].labelText)];
        }
      }
      assert rows[..|rows|] == rows;
    }

    // Delete the range, then plain inserts: a key already present is an IntegrityError, and the
    // message's transaction rolls back. It happens exactly when the rows repeat a medium.
    method ReplaceReleaseMediaEdges(release: string, source: string, rows: seq<EdgeRow>) returns (ok: bool)
      modifies `issuedOn
      ensures ok <==> DistinctMedia(rows)
      ensures issuedOn == if ok then Prune(old(issuedOn), release, source) + Edges(release, source, rows) else old(issuedOn)
    {
      var staged: EdgeTable;
      ok, staged := InsertEdges(Prune(issuedOn, release, source), release, source, rows);
      if ok {
        issuedOn := staged;
      }
    }

    // write_release_media: false when the release names no Discogs id, and then nothing is written.
    method WriteReleaseMedia(m: ReleaseMessage, labels: map<string, string>) returns (written: bool)
      modifies this
      ensures written <==> m.discogsId.Some?
      ensures issuedOn == AfterRelease(old(issuedOn), m, labels)
      ensures media == if written then AddMedia(old(media), Rows(m.items, labels)) else old(media)
      ensures families == if written then old(families) + FamiliesOf(Rows(m.items, labels)) else old(families)
      ensures old(AllReferenced()) ==> AllReferenced()
    {
      if m.discogsId.None? {
        return false;
      }
      var rows := MediaEdgeRows(m.items, labels);
      UpsertMediaFamilies(FamiliesOf(rows));
      UpsertMedia(rows);
      RowsAreDistinct(m.items, labels);
      var ok := ReplaceReleaseMediaEdges(m.discogsId.value, MEDIA_SOURCE, rows);
      if old(AllReferenced()) {
        WritesKeepReferences(old(issuedOn), old(media), old(families), m.discogsId.value, MEDIA_SOURCE, rows);
      }
      return true;
    }
  }

  /******* Runs of release messages *******/

  datatype ReleaseMessage = ReleaseMessage(mbid: string, discogsId: Option<string>, items: seq<MediaItem>)

  ghost function AfterRelease(t: EdgeTable, m: ReleaseMessage, labels: map<string, string>): EdgeTable {
    if m.discogsId.None? then t
    else Prune(t, m.discogsId.value, MEDIA_SOURCE) + Edges(m.discogsId.value, MEDIA_SOURCE, Rows(m.items, labels))
  }

  ghost function Load(t: EdgeTable, ms: seq<ReleaseMessage>, labels: map<string, string>): EdgeTable {
    if ms == [] then t else AfterRelease(Load(t, ms[..|ms| - 1], labels), ms[|ms| - 1], labels)
  }

  // The last message of a run that names this Discogs id.
  function LastNaming(ms: seq<ReleaseMessage>, release: string): Option<ReleaseMessage> {
    if ms == [] then None
    else if ms[|ms| - 1].discogsId == Some(release) then Some(ms[|ms| - 1])
    else LastNaming(ms[..|ms| - 1], release)
  }

  // The quantity a table holds under a key, None when it holds no row.
  function Held(t: EdgeTable, k: EdgeKey): Option<int> {
    if k in t then Some(t[k]) else None
  }

  // One medium of a collapsed block, straight from the items.
  function Collapsed(items: seq<MediaItem>, medium: string): Option<int> {
    var q := Quantity(items, medium);
    if q > 0 then Some(q) else None
  }

  lemma {:induction false} EdgesHold(release: string, source: string, rows: seq<EdgeRow>)
    requires DistinctMedia(rows)
    ensures forall i :: 0 <= i < |rows| ==> Held(Edges(release, source, rows), EdgeKey(release, rows[i].medium, source)) == Some(rows[i].qty)
  {
    if rows != [] {
      var init := rows[..|rows| - 1];
      EdgesHold(release, source, init);
      forall i | 0 <= i < |rows|
        ensures Held(Edges(release, source, rows), EdgeKey(release, rows[i].medium, source)) == Some(rows[i].qty)
      {
        assert i < |init| ==> init[i] == rows[i];
      }
    }
  }

  lemma EdgesAreCollapsed(release: string, items: seq<MediaItem>, labels: map<string, string>, medium: string)
    ensures Held(Edges(release, MEDIA_SOURCE, Rows(items, labels)), EdgeKey(release, medium, MEDIA_SOURCE)) == Collapsed(items, medium)
  {
    var rows := Rows(items, labels);
    RowsAreDistinct(items, labels);
    RowsAreStrictlySorted(items, labels);
    QuantityBounds(items, medium);
    EdgesHold(release, MEDIA_SOURCE, rows);
    EdgeKeys(release, MEDIA_SOURCE, rows);
    if medium in Media(items) {
      var i :| 0 <= i < |rows| && rows[i].medium == medium;
      assert rows[i] == RowFor(items, labels, medium);
    }
  }

  // Whatever any run of these messages does, a row another loader wrote under its own source stays.
  lemma OtherSourcesAreUntouched(t: EdgeTable, ms: seq<ReleaseMessage>, labels: map<string, string>, k: EdgeKey)
    requires k.source != "musicbrainz"
    ensures Held(Load(t, ms, labels), k) == Held(t, k)
  {
    IssuedOnHistory(t, ms, labels, k);
  }

  // One message: its own range becomes the collapsed media, every other row stays.
  lemma ReleaseReplacesItsRange(t: EdgeTable, m: ReleaseMessage, labels: map<string, string>, k: EdgeKey)
    ensures Held(AfterRelease(t, m, labels), k)
            == if k.source == MEDIA_SOURCE && m.discogsId == Some(k.release) then Collapsed(m.items, k.medium) else Held(t, k)
  {
    if m.discogsId.Some? {
      EdgeKeys(m.discogsId.value, MEDIA_SOURCE, Rows(m.items, labels));
      if InRange(k, m.discogsId.value, MEDIA_SOURCE) {
        EdgesAreCollapsed(k.release, m.items, labels, k.medium);
      }
    }
  }

  // After any run, a MusicBrainz row holds the collapsed media of the last committed message naming its
  // Discogs id; every other row, of another source or an id no message named, is as it was.
  lemma {:induction false} IssuedOnHistory(t: EdgeTable, ms: seq<ReleaseMessage>, labels: map<string, string>, k: EdgeKey)
    ensures Held(Load(t, ms, labels), k)
            == if k.source == MEDIA_SOURCE && LastNaming(ms, k.release).Some?
               then Collapsed(LastNaming(ms, k.release).value.items, k.medium)
               else Held(t, k)
  {
    if ms != [] {
      var init, m := ms[..|ms| - 1], ms[|ms| - 1];
      IssuedOnHistory(t, init, labels, k);
      ReleaseReplacesItsRange(Load(t, init, labels), m, labels, k);
    }
  }

  /******* Against the stored releases *******/

  // What musicbrainz.releases holds after a run: each MBID's last message.
  function Stored(ms: seq<ReleaseMessage>): map<string, ReleaseMessage> {
    if ms == [] then map[] else Stored(ms[..|ms| - 1])[ms[|ms| - 1].mbid := ms[|ms| - 1]]
  }

  // The rows of one Discogs id are those of the stored release exactly when the last message naming the
  // id collapses as that release does; a later message of another MBID, or of one that has since moved
  // to another id, is what breaks it.
  ghost predicate MatchesStored(ms: seq<ReleaseMessage>, labels: map<string, string>, mbid: string)
    requires mbid in Stored(ms) && Stored(ms)[mbid].discogsId.Some?
  {
    var m := Stored(ms)[mbid];
    forall medium :: Held(Load(map[], ms, labels), EdgeKey(m.discogsId.value, medium, MEDIA_SOURCE)) == Collapsed(m.items, medium)
  }

  ghost predicate SameQuantities(a: seq<MediaItem>, b: seq<MediaItem>) {
    forall medium :: Quantity(a, medium) == Quantity(b, medium)
  }

  lemma MatchesStoredIff(ms: seq<ReleaseMessage>, labels: map<string, string>, mbid: string)
    requires mbid in Stored(ms) && Stored(ms)[mbid].discogsId.Some?
    ensures var m := Stored(ms)[mbid];
            var last := LastNaming(ms, m.discogsId.value);
            && last.Some?
            && (last == Some(m) ==> MatchesStored(ms, labels, mbid))
            && (MatchesStored(ms, labels, mbid) <==> SameQuantities(last.value.items, m.items))
  {
    var m := Stored(ms)[mbid];
    StoredWasSent(ms, mbid);
    var last, t := LastNaming(ms, m.discogsId.value), Load(map[], ms, labels);
    if MatchesStored(ms, labels, mbid) {
      forall medium ensures Quantity(last.value.items, medium) == Quantity(m.items, medium) {
        var k := EdgeKey(m.discogsId.value, medium, MEDIA_SOURCE);
        IssuedOnHistory(map[], ms, labels, k);
        assert Held(t, k) == Collapsed(m.items, medium);
      }
    }
    if SameQuantities(last.value.items, m.items) {
      forall medium ensures Held(t, EdgeKey(m.discogsId.value, medium, MEDIA_SOURCE)) == Collapsed(m.items, medium) {
        IssuedOnHistory(map[], ms, labels, EdgeKey(m.discogsId.value, medium, MEDIA_SOURCE));
        assert Quantity(last.value.items, medium) == Quantity(m.items, medium);
      }
    }
  }

  lemma {:induction false} StoredWasSent(ms: seq<ReleaseMessage>, mbid: string)
    requires mbid in Stored(ms)
    ensures Stored(ms)[mbid].discogsId.Some? ==> LastNaming(ms, Stored(ms)[mbid].discogsId.value).Some?
  {
    if ms != [] && ms[|ms| - 1].mbid != mbid {
      StoredWasSent(ms[..|ms| - 1], mbid);
    }
  }

  lemma StoredSnoc(ms: seq<ReleaseMessage>, m: ReleaseMessage)
    ensures Stored(ms + [m]) == Stored(ms)[m.mbid := m]
  {
    assert (ms + [m])[..|ms|] == ms;
  }

  lemma LastNamingSnoc(ms: seq<ReleaseMessage>, m: ReleaseMessage, release: string)
    requires m.discogsId != Some(release)
    ensures LastNaming(ms + [m], release) == LastNaming(ms, release)
  {
    assert (ms + [m])[..|ms|] == ms;
  }

  // After any run over any table, a release that changes or loses its Discogs id leaves the old id's
  // edges as they were: those of the last message that named it. The stored release names it no longer.
  lemma MovedReleaseLeavesEdges(t: EdgeTable, ms: seq<ReleaseMessage>, m: ReleaseMessage, labels: map<string, string>, medium: string)
    requires m.mbid in Stored(ms) && Stored(ms)[m.mbid].discogsId.Some? && m.discogsId != Stored(ms)[m.mbid].discogsId
    ensures var release := Stored(ms)[m.mbid].discogsId.value;
            var k := EdgeKey(release, medium, MEDIA_SOURCE);
            && LastNaming(ms, release).Some?
            && Held(Load(t, ms + [m], labels), k) == Held(Load(t, ms, labels), k)
            && Held(Load(t, ms + [m], labels), k) == Collapsed(LastNaming(ms, release).value.items, medium)
    ensures Stored(ms + [m])[m.mbid] == m
  {
    var release := Stored(ms)[m.mbid].discogsId.value;
    StoredWasSent(ms, m.mbid);
    StoredSnoc(ms, m);
    LastNamingSnoc(ms, m, release);
    IssuedOnHistory(t, ms, labels, EdgeKey(release, medium, MEDIA_SOURCE));
    IssuedOnHistory(t, ms + [m], labels, EdgeKey(release, medium, MEDIA_SOURCE));
  }

  // So an id keeps edges that no stored release accounts for exactly while no stored release names it
  // and the last message that did had a usable medium.
  lemma OrphanedEdgesIff(ms: seq<ReleaseMessage>, labels: map<string, string>, release: string)
    requires forall mbid :: mbid in Stored(ms) ==> Stored(ms)[mbid].discogsId != Some(release)
    ensures (exists medium :: Held(Load(map[], ms, labels), EdgeKey(release, medium, MEDIA_SOURCE)).Some?)
            <==> LastNaming(ms, release).Some? && Media(LastNaming(ms, release).value.items) != {}
  {
    var last := LastNaming(ms, release);
    forall medium
      ensures Held(Load(map[], ms, labels), EdgeKey(release, medium, MEDIA_SOURCE)).Some?
              <==> last.Some? && medium in Media(last.value.items)
    {
      IssuedOnHistory(map[], ms, labels, EdgeKey(release, medium, MEDIA_SOURCE));
      if last.Some? {
        QuantityBounds(last.value.items, medium);
      }
    }
  }
}
