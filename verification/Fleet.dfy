/** The fleet catalogue as one document (sweep/hub/fleet.py): what differs from the store, what a measurement
    freezes, what may not be orphaned, and making the store match. The tables are the object's fields; every
    row of another table that points into them is a `Ref`. */
module Fleet {
  import opened Names
  import opened Wrappers

  datatype Column =
    | SshHost | Os | Machine | WorkRoot | Ffmpeg | LocalView | Notes
    | Vendor | Card | Driver | Frontend | Codec
    | Device
    | Ffvship | ScoreFfmpeg | MetricBackend | GpuId | CacheDir

  /** A column's value: text, a number or an argv, which the tables hold as its compact JSON. */
  datatype Value = Null | Held(text: Text)

  type Row = map<Column, Value>

  datatype Table = HostTable | UnitTable | PlacementTable | ScorerTable

  /** The columns the document governs, keys aside. `host.blocked` is deliberately not one of them. */
  function Columns(t: Table): set<Column> {
    match t
    case HostTable => {SshHost, Os, Machine, WorkRoot, Ffmpeg, LocalView, Notes}
    case UnitTable => {Vendor, Card, Driver, Frontend, Codec}
    case PlacementTable => {Device}
    case ScorerTable => {Ffvship, ScoreFfmpeg, MetricBackend, GpuId, CacheDir}
  }

  function OptionalColumns(t: Table): set<Column> { if t == HostTable then {Ffmpeg, LocalView, Notes} else {} }

  /** The columns that stay free once a measurement points at the row. */
  function FreeColumns(t: Table): set<Column> { if t == HostTable then {Notes, SshHost} else {} }

  datatype HostRow = HostRow(cols: Row, blocked: Option<Text>)

  /** A row of another table and what it points at: a measurement (class ROW) or authored, an agent's own report
      about its host (`host_identity`) or not; a run, and whether it recorded a scorer build. */
  datatype Ref = Ref(
    id: Id, measured: bool, report: bool, isRun: bool, scored: bool,
    host: Option<Id>, unit: Option<Id>, placement: Option<(Id, Id)>)

  /** The tables as one value, for the statements. A placement is named by its unit and its host. */
  datatype Db = Db(
    hosts: map<Id, HostRow>, units: map<Id, Row>, placements: map<(Id, Id), Row>, scorers: map<Id, Row>, refs: set<Ref>)

  predicate HasColumns(row: Row, t: Table) { row.Keys == Columns(t) }

  /** No two units are the same (vendor, card, driver, frontend, codec). */
  ghost predicate OneIdEach(units: map<Id, Row>) { forall u, v | u in units && v in units && units[u] == units[v] :: u == v }

  /** What the schema keeps: whole rows, no dangling foreign key, one id per unit identity. */
  ghost predicate Sound(db: Db) {
    && (forall h | h in db.hosts :: HasColumns(db.hosts[h].cols, HostTable))
    && (forall u | u in db.units :: HasColumns(db.units[u], UnitTable))
    && (forall p | p in db.placements :: HasColumns(db.placements[p], PlacementTable) && p.0 in db.units && p.1 in db.hosts)
    && (forall s | s in db.scorers :: HasColumns(db.scorers[s], ScorerTable) && s in db.hosts)
    && OneIdEach(db.units)
    && (forall r | r in db.refs && r.report :: r.unit.None? && r.placement.None?)
    && (forall r | r in db.refs ::
          && (r.host.Some? ==> r.host.value in db.hosts)
          && (r.unit.Some? ==> r.unit.value in db.units)
          && (r.placement.Some? ==> r.placement.value in db.placements))
  }

  // ---- the document

  /** One entry: its key and the columns it gives. */
  datatype Entry<K> = Entry(key: K, cols: Row)

  /** A group left out is not managed; an empty one says there are none. A unit's entry places it in a host. */
  datatype Document = Document(
    hosts: Option<seq<Entry<Id>>>, units: Option<seq<Entry<(Id, Id)>>>, scorers: Option<seq<Entry<Id>>>)

  /** The document as rows. */
  datatype Wanted = Wanted(
    hosts: Option<map<Id, Row>>, identities: map<Id, Row>, placements: Option<map<(Id, Id), Row>>, scorers: Option<map<Id, Row>>)

  /** A required column is given; an optional one may be left out. */
  predicate Complete(cols: Row, t: Table) { Columns(t) - OptionalColumns(t) <= cols.Keys }

  predicate AllComplete<K>(entries: seq<Entry<K>>, t: Table) { forall i | 0 <= i < |entries| :: Complete(entries[i].cols, t) }

  function RowOf(cols: Row, t: Table): Row { map c | c in Columns(t) :: if c in cols then cols[c] else Null }

  ghost predicate Distinct<K>(entries: seq<Entry<K>>) { forall i, j | 0 <= i < j < |entries| :: entries[i].key != entries[j].key }

  /** The rows of a group, one an entry. */
  ghost predicate RowsOf<K(!new)>(rows: map<K, Row>, entries: seq<Entry<K>>, t: Table) {
    && (forall k :: k in rows <==> exists i :: 0 <= i < |entries| && entries[i].key == k)
    && (forall i | 0 <= i < |entries| :: entries[i].key in rows && rows[entries[i].key] == RowOf(entries[i].cols, t))
  }

  /** A group of the document as rows, refusing one that names a thing twice or leaves a required column out. */
  method ByKey<K(==, !new)>(entries: seq<Entry<K>>, t: Table) returns (r: Result<map<K, Row>>)
    ensures r.Ok? <==> Distinct(entries) && AllComplete(entries, t)
    ensures r.Ok? ==> RowsOf(r.value, entries, t)
  {
    var out: map<K, Row> := map[];
    var i := 0;
    while i < |entries|
      invariant 0 <= i <= |entries|
      invariant Distinct(entries[..i]) && AllComplete(entries[..i], t)
      invariant RowsOf(out, entries[..i], t)
    {
      var e := entries[i];
      assert e in entries;
      assert entries[..i + 1] == entries[..i] + [e];
      if e.key in out {
        var j :| 0 <= j < i && entries[..i][j].key == e.key;
        assert entries[j].key == entries[i].key;
        return Refused;
      }
      if !Complete(e.cols, t) { return Refused; }
      assert forall j | 0 <= j < i :: entries[..i][j].key in out;
      ghost var before := out;
      out := out[e.key := RowOf(e.cols, t)];
      RowAdded(before, entries, i, t);
      i := i + 1;
    }
    assert entries[..i] == entries;
    r := Ok(out);
  }

  /** An entry whose key was read before names one thing twice. */
  lemma DistinctNext<K(!new)>(rows: map<K, Row>, entries: seq<Entry<K>>, i: nat, t: Table)
    requires i < |entries| && Distinct(entries[..i]) && RowsOf(rows, entries[..i], t)
    ensures if entries[i].key in rows then !Distinct(entries) else Distinct(entries[..i + 1])
  {
    var before, after := entries[..i], entries[..i + 1];
    if entries[i].key in rows {
      var j :| 0 <= j < i && before[j].key == entries[i].key;
      assert entries[j].key == entries[i].key;
    } else {
      forall j, k | 0 <= j < k < |after| ensures after[j].key != after[k].key {
        assert before[j].key in rows;
        assert k < i ==> after[k] == before[k];
      }
    }
  }

  lemma RowAdded<K(!new)>(rows: map<K, Row>, entries: seq<Entry<K>>, i: nat, t: Table)
    requires i < |entries| && RowsOf(rows, entries[..i], t) && entries[i].key !in rows
    ensures RowsOf(rows[entries[i].key := RowOf(entries[i].cols, t)], entries[..i + 1], t)
  {
    var before, after := entries[..i], entries[..i + 1];
    var out := rows[entries[i].key := RowOf(entries[i].cols, t)];
    assert after == before + [entries[i]];
    forall k ensures k in out <==> exists j :: 0 <= j < |after| && after[j].key == k {
      if k in rows {
        ghost var j :| 0 <= j < i && before[j].key == k;
        assert after[j].key == k;
      }
      if k == entries[i].key { assert after[i].key == k; }
      if j :| 0 <= j < |after| && after[j].key == k { if j < i { assert before[j].key == k; } }
    }
    forall j | 0 <= j < |after| ensures after[j].key in out && out[after[j].key] == RowOf(after[j].cols, t) {
      if j < i { assert before[j].key in rows; }
    }
  }

  /** Two entries of one unit say what it is alike. */
  ghost predicate OneIdentity(entries: seq<Entry<(Id, Id)>>) {
    forall i, j | 0 <= i < |entries| && 0 <= j < |entries| && entries[i].key.0 == entries[j].key.0 ::
      RowOf(entries[i].cols, UnitTable) == RowOf(entries[j].cols, UnitTable)
  }

  ghost predicate IdentitiesOf(identities: map<Id, Row>, entries: seq<Entry<(Id, Id)>>) {
    && (forall u :: u in identities <==> exists i :: 0 <= i < |entries| && entries[i].key.0 == u)
    && (forall i | 0 <= i < |entries| :: entries[i].key.0 in identities && identities[entries[i].key.0] == RowOf(entries[i].cols, UnitTable))
  }

  ghost predicate UnitsOk(entries: seq<Entry<(Id, Id)>>) {
    Distinct(entries) && OneIdentity(entries) && AllComplete(entries, UnitTable) && AllComplete(entries, PlacementTable)
  }

  method ReadUnits(entries: seq<Entry<(Id, Id)>>) returns (r: Result<(map<Id, Row>, map<(Id, Id), Row>)>)
    ensures r.Ok? <==> UnitsOk(entries)
    ensures r.Ok? ==> IdentitiesOf(r.value.0, entries) && RowsOf(r.value.1, entries, PlacementTable)
  {
    var identities: map<Id, Row> := map[];
    var placements: map<(Id, Id), Row> := map[];
    var i := 0;
    while i < |entries|
      invariant 0 <= i <= |entries| && UnitsOk(entries[..i])
      invariant IdentitiesOf(identities, entries[..i]) && RowsOf(placements, entries[..i], PlacementTable)
    {
      var e := entries[i];
      var ident := RowOf(e.cols, UnitTable);
      UnitsNext(identities, placements, entries, i);
      if e.key.0 in identities && identities[e.key.0] != ident { return Refused; }
      if e.key in placements { return Refused; }
      if !Complete(e.cols, UnitTable) || !Complete(e.cols, PlacementTable) { return Refused; }
      UnitAdded(identities, entries, i);
      RowAdded(placements, entries, i, PlacementTable);
      identities := identities[e.key.0 := ident];
      placements := placements[e.key := RowOf(e.cols, PlacementTable)];
      i := i + 1;
    }
    assert entries[..i] == entries;
    r := Ok((identities, placements));
  }

  lemma IdentityDiffers(identities: map<Id, Row>, entries: seq<Entry<(Id, Id)>>, i: nat)
    requires i < |entries| && IdentitiesOf(identities, entries[..i])
    requires entries[i].key.0 in identities && identities[entries[i].key.0] != RowOf(entries[i].cols, UnitTable)
    ensures !OneIdentity(entries)
  {
    var before := entries[..i];
    var j :| 0 <= j < i && before[j].key.0 == entries[i].key.0;
    assert entries[j] == before[j];
    assert entries[j].key.0 == entries[i].key.0 && RowOf(entries[j].cols, UnitTable) != RowOf(entries[i].cols, UnitTable);
  }

  lemma IdentitiesAgree(identities: map<Id, Row>, entries: seq<Entry<(Id, Id)>>)
    requires IdentitiesOf(identities, entries)
    ensures OneIdentity(entries)
  {
  }

  /** One more entry is fine exactly when it agrees with what was read; one that is not spoils the whole. */
  lemma UnitsNext(identities: map<Id, Row>, placements: map<(Id, Id), Row>, entries: seq<Entry<(Id, Id)>>, i: nat)
    requires i < |entries| && UnitsOk(entries[..i])
    requires IdentitiesOf(identities, entries[..i]) && RowsOf(placements, entries[..i], PlacementTable)
    ensures var e := entries[i];
            var ok := && (e.key.0 in identities ==> identities[e.key.0] == RowOf(e.cols, UnitTable)) && e.key !in placements
                      && Complete(e.cols, UnitTable) && Complete(e.cols, PlacementTable);
            if ok then UnitsOk(entries[..i + 1]) else !UnitsOk(entries)
  {
    IdentityNext(identities, entries, i);
    CompleteNext(entries, i, UnitTable);
    CompleteNext(entries, i, PlacementTable);
    DistinctNext(placements, entries, i, PlacementTable);
  }

  lemma IdentityNext(identities: map<Id, Row>, entries: seq<Entry<(Id, Id)>>, i: nat)
    requires i < |entries| && IdentitiesOf(identities, entries[..i])
    ensures if entries[i].key.0 in identities ==> identities[entries[i].key.0] == RowOf(entries[i].cols, UnitTable)
            then OneIdentity(entries[..i + 1]) else !OneIdentity(entries)
  {
    var e := entries[i];
    if e.key.0 in identities && identities[e.key.0] != RowOf(e.cols, UnitTable) {
      IdentityDiffers(identities, entries, i);
    } else {
      UnitAdded(identities, entries, i);
      IdentitiesAgree(identities[e.key.0 := RowOf(e.cols, UnitTable)], entries[..i + 1]);
    }
  }

  lemma CompleteNext<K>(entries: seq<Entry<K>>, i: nat, t: Table)
    requires i < |entries| && AllComplete(entries[..i], t)
    ensures if Complete(entries[i].cols, t) then AllComplete(entries[..i + 1], t) else !AllComplete(entries, t)
  {
    forall j | 0 <= j < i ensures Complete(entries[j].cols, t) { assert Complete(entries[..i][j].cols, t); }
  }

  lemma UnitAdded(identities: map<Id, Row>, entries: seq<Entry<(Id, Id)>>, i: nat)
    requires i < |entries| && IdentitiesOf(identities, entries[..i])
    requires entries[i].key.0 in identities ==> identities[entries[i].key.0] == RowOf(entries[i].cols, UnitTable)
    ensures IdentitiesOf(identities[entries[i].key.0 := RowOf(entries[i].cols, UnitTable)], entries[..i + 1])
  {
    var before, after := entries[..i], entries[..i + 1];
    var out := identities[entries[i].key.0 := RowOf(entries[i].cols, UnitTable)];
    assert after == before + [entries[i]];
    forall u ensures u in out <==> exists j :: 0 <= j < |after| && after[j].key.0 == u {
      if u in identities {
        ghost var j :| 0 <= j < i && before[j].key.0 == u;
        assert after[j].key.0 == u;
      }
      if u == entries[i].key.0 { assert after[i].key.0 == u; }
      if j :| 0 <= j < |after| && after[j].key.0 == u { if j < i { assert before[j].key.0 == u; } }
    }
    forall j | 0 <= j < |after| ensures after[j].key.0 in out && out[after[j].key.0] == RowOf(after[j].cols, UnitTable) {
      if j < i { assert before[j].key.0 in identities; }
    }
  }

  ghost predicate GroupOk(entries: Option<seq<Entry<Id>>>, t: Table) {
    entries.Some? ==> Distinct(entries.value) && AllComplete(entries.value, t)
  }

  /** The document says each thing once and whole. */
  ghost predicate WellFormed(doc: Document) {
    GroupOk(doc.hosts, HostTable) && GroupOk(doc.scorers, ScorerTable) && (doc.units.Some? ==> UnitsOk(doc.units.value))
  }

  ghost predicate SaysOf(rows: Option<map<Id, Row>>, entries: Option<seq<Entry<Id>>>, t: Table) {
    (rows.Some? <==> entries.Some?) && (rows.Some? ==> RowsOf(rows.value, entries.value, t))
  }

  /** These are the document's rows. */
  ghost predicate Says(want: Wanted, doc: Document) {
    && SaysOf(want.hosts, doc.hosts, HostTable) && SaysOf(want.scorers, doc.scorers, ScorerTable)
    && (want.placements.Some? <==> doc.units.Some?)
    && (if doc.units.Some? then RowsOf(want.placements.value, doc.units.value, PlacementTable) && IdentitiesOf(want.identities, doc.units.value)
        else want.identities == map[])
  }

  method ByKeyIfAny(entries: Option<seq<Entry<Id>>>, t: Table) returns (r: Result<Option<map<Id, Row>>>)
    ensures r.Ok? <==> GroupOk(entries, t)
    ensures r.Ok? ==> SaysOf(r.value, entries, t)
  {
    if entries.None? { return Ok(None); }
    var rows := ByKey(entries.value, t);
    r := if rows.Ok? then Ok(Some(rows.value)) else Refused;
  }

  method Normalise(doc: Document) returns (r: Result<Wanted>)
    ensures r.Ok? <==> WellFormed(doc)
    ensures r.Ok? ==> Says(r.value, doc)
  {
    var hosts := ByKeyIfAny(doc.hosts, HostTable);
    if hosts.Refused? { return Refused; }
    var identities, placements := map[], None;
    if doc.units.Some? {
      var units := ReadUnits(doc.units.value);
      if units.Refused? { return Refused; }
      identities, placements := units.value.0, Some(units.value.1);
    }
    var scorers := ByKeyIfAny(doc.scorers, ScorerTable);
    if scorers.Refused? { return Refused; }
    r := Ok(Wanted(hosts.value, identities, placements, scorers.value));
  }
}
