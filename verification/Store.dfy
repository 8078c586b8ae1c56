/** The PostgreSQL tables this loader writes, and the writer that upserts child rows into them. */
module Store {
  import opened Wrappers
  import opened ChildRows

  datatype TableName = Relationships | ExternalLinks

  const RECONCILED_TABLES: seq<TableName> := [Relationships, ExternalLinks]

  datatype Tables = Tables(relationships: Table, externalLinks: Table) {
    function Get(name: TableName): Table {
      if name == Relationships then relationships else externalLinks
    }

    function With(name: TableName, t: Table): Tables {
      if name == Relationships then this.(relationships := t) else this.(externalLinks := t)
    }
  }

  // `purge_vetoed` of this loader's rows in `loader_extraction_latch`, by extraction key.
  type VetoLatch = map<string, set<DataType>>

  function Recorded(latch: VetoLatch, key: string): set<DataType> {
    if key in latch then latch[key] else {}
  }

  // The rows one record writes to each table.
  function RecordRows(r: Record, name: TableName): seq<Derived> {
    var entityType := EntityType(r.dataType);
    if name == Relationships then DeriveRelationships(r.mbid, entityType, r.relations)
    else DeriveLinks(r.mbid, entityType, r.links)
  }

  function CommitRecord(tables: Tables, r: Record, now: int, refresh: bool): Tables {
    Tables(UpsertAll(tables.relationships, RecordRows(r, Relationships), now, refresh),
           UpsertAll(tables.externalLinks, RecordRows(r, ExternalLinks), now, refresh))
  }

  class Postgres {
    var tables: Tables
    var vetoLatch: VetoLatch

    constructor ()
      ensures tables == Tables(map[], map[]) && vetoLatch == map[]
    {
      tables := Tables(map[], map[]);
      vetoLatch := map[];
    }

    // INSERT ... ON CONFLICT (loader, version) DO UPDATE with the union of both lists.
    method RecordExtraction(key: string, vetoed: set<DataType>)
      modifies `vetoLatch
      ensures vetoLatch == old(vetoLatch)[key := Recorded(old(vetoLatch), key) + vetoed]
    {
      if key in vetoLatch {
        vetoLatch := vetoLatch[key := vetoLatch[key] + vetoed];
      } else {
        vetoLatch := vetoLatch[key := vetoed];
        assert {} + vetoed == vetoed;
      }
    }
  }

  class MusicBrainzWriter {
    var refreshUpdatedAt: bool

    constructor (refresh: bool)
      ensures refreshUpdatedAt == refresh
    {
      refreshUpdatedAt := refresh;
    }

    method SetRefreshUpdatedAt(enabled: bool)
      modifies this
      ensures refreshUpdatedAt == enabled
    {
      refreshUpdatedAt := enabled;
    }

    // executemany: one upsert a row, in order.
    method UpsertRows(db: Postgres, name: TableName, rows: seq<Derived>, now: int)
      modifies db`tables
      ensures db.tables == old(db.tables).With(name, UpsertAll(old(db.tables).Get(name), rows, now, refreshUpdatedAt))
    {
      var t := db.tables.Get(name);
      for i := 0 to |rows|
        invariant t == UpsertAll(old(db.tables).Get(name), rows[..i], now, refreshUpdatedAt)
      {
        var d := rows[i];
        if d.key in t {
          t := t[d.key := ChildRow(d.ended, if refreshUpdatedAt then now else t[d.key].updatedAt)];
        } else {
          t := t[d.key := ChildRow(d.ended, now)];
        }
        assert rows[..i + 1][..i] == rows[..i];
      }
      assert rows[..|rows|] == rows;
      db.tables := db.tables.With(name, t);
    }
  }

  class MusicBrainzRecordProcessor {
    const writer: MusicBrainzWriter

    constructor (writer: MusicBrainzWriter)
      ensures this.writer == writer
    {
      this.writer := writer;
    }

    method InsertRelationships(db: Postgres, mbid: string, entityType: string, reports: seq<RelationReport>, now: int)
      modifies db`tables
      ensures db.tables == old(db.tables).With(Relationships,
                UpsertAll(old(db.tables).relationships, DeriveRelationships(mbid, entityType, reports), now, writer.refreshUpdatedAt))
    {
      var ownType := CanonicalEntityType(entityType);
      var rows: seq<Derived> := [];
      for i := 0 to |reports|
        invariant rows == DeriveRelationships(mbid, entityType, reports[..i])
      {
        var r := reports[i];
        assert reports[..i + 1][..i] == reports[..i];
        if !(Present(r.targetMbid) && Present(r.targetType) && Present(r.kind)) {
          continue;
        }
        var targetType := CanonicalEntityType(r.targetType.value);
        var source, sourceType, target, rowTargetType := mbid, ownType, r.targetMbid.value, targetType;
        if r.direction == Some("backward") {
          source, sourceType, target, rowTargetType := r.targetMbid.value, targetType, mbid, ownType;
        }
        rows := rows + [Derived(RelationshipKey(source, sourceType, target, rowTargetType, r.kind.value,
                                                r.attributes.GetOr([]), r.beginDate, r.endDate),
                                Some(r.ended.GetOr(false)))];
      }
      assert reports[..|reports|] == reports;
      if rows == [] {
        return;
      }
      writer.UpsertRows(db, Relationships, rows, now);
    }

    method InsertExternalLinks(db: Postgres, mbid: string, entityType: string, links: seq<LinkReport>, now: int)
      modifies db`tables
      ensures db.tables == old(db.tables).With(ExternalLinks,
                UpsertAll(old(db.tables).externalLinks, DeriveLinks(mbid, entityType, links), now, writer.refreshUpdatedAt))
    {
      var rows: seq<Derived> := [];
      for i := 0 to |links|
        invariant rows == DeriveLinks(mbid, entityType, links[..i])
      {
        assert links[..i + 1][..i] == links[..i];
        if Present(links[i].url) && Present(links[i].service) {
          rows := rows + [Derived(LinkKey(mbid, entityType, links[i].url.value, links[i].service.value), None)];
        }
      }
      assert links[..|links|] == links;
      if rows == [] {
        return;
      }
      writer.UpsertRows(db, ExternalLinks, rows, now);
    }

    // The child-row half of process_artist, process_label, process_release and process_release_group.
    method ProcessRecord(db: Postgres, r: Record, now: int)
      modifies db`tables
      ensures db.tables == CommitRecord(old(db.tables), r, now, writer.refreshUpdatedAt)
    {
      InsertRelationships(db, r.mbid, EntityType(r.dataType), r.relations, now);
      InsertExternalLinks(db, r.mbid, EntityType(r.dataType), r.links, now);
    }
  }
}
