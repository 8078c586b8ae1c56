/**
 The child rows a MusicBrainz record derives, and what upserting them does to
 `musicbrainz.relationships` and `musicbrainz.external_links`.
 */
module ChildRows {
  import opened Wrappers

  datatype DataType = Artists | Labels | ReleaseGroups | Releases

  const DATA_TYPES: seq<DataType> := [Artists, Labels, ReleaseGroups, Releases]
  const ALL_TYPES: set<DataType> := {Artists, Labels, ReleaseGroups, Releases}

  lemma EveryTypeListed()
    ensures forall d: DataType :: d in ALL_TYPES && d in DATA_TYPES
  {
    forall d: DataType ensures d in ALL_TYPES && d in DATA_TYPES {
      assert d == DATA_TYPES[match d case Artists => 0 case Labels => 1 case ReleaseGroups => 2 case Releases => 3];
    }
  }

  // JSON fields: None is an absent key or an explicit null.
  datatype RelationReport = RelationReport(
    targetMbid: Option<string>,
    targetType: Option<string>,
    kind: Option<string>,
    direction: Option<string>,
    attributes: Option<seq<string>>,
    beginDate: Option<string>,
    endDate: Option<string>,
    ended: Option<bool>)

  datatype LinkReport = LinkReport(url: Option<string>, service: Option<string>)

  datatype Record = Record(dataType: DataType, mbid: string, relations: seq<RelationReport>, links: seq<LinkReport>)

  // The two natural keys: `relationships_key` and (mbid, entity_type, service_name, url).
  datatype ChildKey =
    | RelationshipKey(sourceMbid: string, sourceType: string, targetMbid: string, targetType: string,
                      kind: string, attributes: seq<string>, beginDate: Option<string>, endDate: Option<string>)
    | LinkKey(mbid: string, entityType: string, url: string, service: string)

  // A derived row before it is stored. A link has no `ended` column.
  datatype Derived = Derived(key: ChildKey, ended: Option<bool>)

  datatype ChildRow = ChildRow(ended: Option<bool>, updatedAt: int)

  type Table = map<ChildKey, ChildRow>

  /******* Derivation *******/

  function CanonicalEntityType(entityType: string): string {
    if entityType == "release_group" then "release-group" else entityType
  }

  function EntityType(dataType: DataType): string {
    match dataType
    case Artists => "artist"
    case Labels => "label"
    case ReleaseGroups => "release-group"
    case Releases => "release"
  }

  // Python truthiness of an optional string.
  predicate Present(s: Option<string>) {
    s.Some? && s.value != ""
  }

  predicate UsableRelation(r: RelationReport) {
    Present(r.targetMbid) && Present(r.targetType) && Present(r.kind)
  }

  function DeriveRelationship(mbid: string, entityType: string, r: RelationReport): Derived
    requires UsableRelation(r)
  {
    var ownType, targetType := CanonicalEntityType(entityType), CanonicalEntityType(r.targetType.value);
    var key :=
      if r.direction == Some("backward") then
        RelationshipKey(r.targetMbid.value, targetType, mbid, ownType,
                        r.kind.value, r.attributes.GetOr([]), r.beginDate, r.endDate)
      else
        RelationshipKey(mbid, ownType, r.targetMbid.value, targetType,
                        r.kind.value, r.attributes.GetOr([]), r.beginDate, r.endDate);
    Derived(key, Some(r.ended.GetOr(false)))
  }

  function DeriveRelationships(mbid: string, entityType: string, reports: seq<RelationReport>): seq<Derived> {
    if reports == [] then []
    else
      var last := reports[|reports| - 1];
      DeriveRelationships(mbid, entityType, reports[..|reports| - 1])
      + if UsableRelation(last) then [DeriveRelationship(mbid, entityType, last)] else []
  }

  predicate UsableLink(l: LinkReport) {
    Present(l.url) && Present(l.service)
  }

  function DeriveLinks(mbid: string, entityType: string, links: seq<LinkReport>): seq<Derived> {
    if links == [] then []
    else
      var last := links[|links| - 1];
      DeriveLinks(mbid, entityType, links[..|links| - 1])
      + if UsableLink(last) then [Derived(LinkKey(mbid, entityType, last.url.value, last.service.value), None)] else []
  }

  lemma {:induction false} DerivedRelationshipsAre(mbid: string, entityType: string, reports: seq<RelationReport>)
    ensures forall d :: d in DeriveRelationships(mbid, entityType, reports) <==>
                        exists r :: r in reports && UsableRelation(r) && d == DeriveRelationship(mbid, entityType, r)
  {
    if reports != [] {
      var init, last := reports[..|reports| - 1], reports[|reports| - 1];
      DerivedRelationshipsAre(mbid, entityType, init);
      assert forall r :: r in reports <==> r in init || r == last;
    }
  }

  // A record's link rows are its links with a url and a service, under its own id and type.
  lemma {:induction false} DerivedLinksAre(mbid: string, entityType: string, links: seq<LinkReport>, d: Derived)
    ensures d in DeriveLinks(mbid, entityType, links) <==>
            && d.key.LinkKey? && d.ended.None?
            && d.key.mbid == mbid && d.key.entityType == entityType
            && d.key.url != "" && d.key.service != ""
            && exists l :: l in links && l.url == Some(d.key.url) && l.service == Some(d.key.service)
  {
    if links != [] {
      var init, last := links[..|links| - 1], links[|links| - 1];
      DerivedLinksAre(mbid, entityType, init, d);
      assert forall l :: l in links <==> l in init || l == last;
    }
  }

  /******* The same relationship from its other endpoint *******/

  predicate SameType(a: string, b: string) {
    CanonicalEntityType(a) == CanonicalEntityType(b)
  }

  // `other`, reported by the target endpoint, is the same relationship as `r` reported by `mbid`.
  predicate MirrorOf(other: RelationReport, mbid: string, entityType: string, r: RelationReport)
    requires UsableRelation(r)
  {
    && other.targetMbid == Some(mbid)
    && Present(other.targetType) && SameType(other.targetType.value, entityType)
    && other.kind == r.kind
    && (other.direction == Some("backward") <==> r.direction != Some("backward"))
    && other.attributes.GetOr([]) == r.attributes.GetOr([])
    && other.beginDate == r.beginDate && other.endDate == r.endDate
  }

  // Whatever spelling each message uses, both endpoints' reports derive one natural key.
  lemma MirrorDerivesSameKey(mbid: string, entityType: string, r: RelationReport,
                             other: RelationReport, otherType: string)
    requires mbid != "" && UsableRelation(r) && MirrorOf(other, mbid, entityType, r)
    requires SameType(otherType, r.targetType.value)
    ensures UsableRelation(other)
    ensures DeriveRelationship(r.targetMbid.value, otherType, other).key == DeriveRelationship(mbid, entityType, r).key
    ensures DeriveRelationship(r.targetMbid.value, otherType, other) == DeriveRelationship(mbid, entityType, r)
            <==> other.ended.GetOr(false) == r.ended.GetOr(false)
  {
  }

  /******* Upserts *******/

  // ON CONFLICT DO UPDATE: the conflict refreshes `updated_at` only when the writer's refresh is on.
  // A new row takes the column's NOW() default either way.
  function Upsert(t: Table, d: Derived, now: int, refresh: bool): Table {
    if d.key in t && !refresh then t[d.key := t[d.key].(ended := d.ended)]
    else t[d.key := ChildRow(d.ended, now)]
  }

  function UpsertAll(t: Table, ds: seq<Derived>, now: int, refresh: bool): Table {
    if ds == [] then t
    else Upsert(UpsertAll(t, ds[..|ds| - 1], now, refresh), ds[|ds| - 1], now, refresh)
  }

  // One committed message's rows for one table, with its transaction's NOW().
  datatype Batch = Batch(rows: seq<Derived>, now: int)

  function Replay(t: Table, bs: seq<Batch>): Table {
    if bs == [] then t
    else
      var last := bs[|bs| - 1];
      UpsertAll(Replay(t, bs[..|bs| - 1]), last.rows, last.now, true)
  }

  // Every (key, ended) the batches report.
  ghost function Reported(bs: seq<Batch>): set<Derived> {
    set b, d | b in bs && d in b.rows :: d
  }

  ghost function KeysOf(ds: set<Derived>): set<ChildKey> {
    set d | d in ds :: d.key
  }

  // The table as a reader sees it, without the refresh times.
  function Contents(t: Table): map<ChildKey, Option<bool>> {
    map k | k in t :: t[k].ended
  }

  function Effect(b: Batch): Table {
    UpsertAll(map[], b.rows, b.now, true)
  }
}
