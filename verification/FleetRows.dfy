/** `apply` column by column and row by row (sweep/hub/fleet.py): what a document must say, exactly when the store
    takes it, and what each column then holds. Nothing here is said through the definitions `apply` is written with. */
module FleetRows {
  import opened Names
  import opened Wrappers
  import opened Fleet
  import opened Reconcile
  import opened Catalogue
  import FleetLaws

  // ---- what a document must say

  ghost predicate Gives<K>(entries: seq<Entry<K>>, columns: set<Column>) { forall i | 0 <= i < |entries| :: columns <= entries[i].cols.Keys }

  /** Refused for what it says of itself: a thing named twice, a unit given two identities, or a column left out that may
      not be. A host may leave out `ffmpeg`, `local_view` and `notes`; nothing else may leave out anything. */
  lemma WellFormedExactly(doc: Document)
    ensures WellFormed(doc) <==>
              && (doc.hosts.Some? ==> Distinct(doc.hosts.value) && Gives(doc.hosts.value, {SshHost, Os, Machine, WorkRoot}))
              && (doc.units.Some? ==>
                    && Distinct(doc.units.value) && OneIdentity(doc.units.value)
                    && Gives(doc.units.value, {Vendor, Card, Driver, Frontend, Codec, Device}))
              && (doc.scorers.Some? ==>
                    Distinct(doc.scorers.value) && Gives(doc.scorers.value, {Ffvship, ScoreFfmpeg, MetricBackend, GpuId, CacheDir}))
  {
    assert Columns(HostTable) - OptionalColumns(HostTable) == {SshHost, Os, Machine, WorkRoot};
    assert Columns(ScorerTable) - OptionalColumns(ScorerTable) == {Ffvship, ScoreFfmpeg, MetricBackend, GpuId, CacheDir};
    assert Columns(UnitTable) - OptionalColumns(UnitTable) == {Vendor, Card, Driver, Frontend, Codec};
    assert Columns(PlacementTable) - OptionalColumns(PlacementTable) == {Device};
    if doc.units.Some? { UnitColumns(doc.units.value); }
  }

  lemma UnitColumns(entries: seq<Entry<(Id, Id)>>)
    ensures AllComplete(entries, UnitTable) && AllComplete(entries, PlacementTable) <==>
            Gives(entries, {Vendor, Card, Driver, Frontend, Codec, Device})
  {
    assert Columns(UnitTable) - OptionalColumns(UnitTable) == {Vendor, Card, Driver, Frontend, Codec};
    assert Columns(PlacementTable) - OptionalColumns(PlacementTable) == {Device};
    forall i | 0 <= i < |entries|
      ensures Complete(entries[i].cols, UnitTable) && Complete(entries[i].cols, PlacementTable) <==>
              {Vendor, Card, Driver, Frontend, Codec, Device} <= entries[i].cols.Keys
    {
      assert {Vendor, Card, Driver, Frontend, Codec, Device} == {Vendor, Card, Driver, Frontend, Codec} + {Device};
    }
  }

  // ---- when the store takes it

  /** The rows differ in one of these columns. */
  ghost predicate DifferIn(a: Row, b: Row, columns: set<Column>)
    requires columns <= a.Keys && columns <= b.Keys
  {
    exists c :: c in columns && a[c] != b[c]
  }

  /** A host keeps what it ran on: once any measurement but an agent's own report names it, only `notes` and `ssh_host`
      may differ. */
  ghost predicate HostsMayChange(db: Db, want: Wanted)
    requires Sound(db) && Whole(want)
  {
    want.hosts.Some? ==>
      forall h | h in want.hosts.value && h in db.hosts && DifferIn(db.hosts[h].cols, want.hosts.value[h], {Os, Machine, WorkRoot, Ffmpeg, LocalView}) ::
        forall r | r in db.refs && r.host == Some(h) :: r.report || !r.measured
  }

  lemma HostsMayChangeExactly(db: Db, want: Wanted)
    requires Sound(db) && Whole(want)
    ensures HostsGrowable(db, want) <==> HostsMayChange(db, want)
  {
    if want.hosts.Some? {
      var updated := Differing(want.hosts.value, HostCols(db));
      forall h | h in want.hosts.value && h in db.hosts
        ensures (h in updated && Locked(HostTable, updated[h])) <==>
                DifferIn(db.hosts[h].cols, want.hosts.value[h], {Os, Machine, WorkRoot, Ffmpeg, LocalView})
      {
        LockedColumns(db.hosts[h].cols, want.hosts.value[h]);
        assert HostCols(db)[h] == db.hosts[h].cols;
      }
    }
  }

  lemma LockedColumns(a: Row, b: Row)
    requires HasColumns(a, HostTable) && HasColumns(b, HostTable)
    ensures Locked(HostTable, Changed(a, b)) <==> DifferIn(a, b, {Os, Machine, WorkRoot, Ffmpeg, LocalView})
  {
    var locked := {Os, Machine, WorkRoot, Ffmpeg, LocalView};
    if c :| c in Changed(a, b) - FreeColumns(HostTable) { assert c in locked && a[c] != b[c]; }
    if c :| c in locked && a[c] != b[c] { assert c in Changed(a, b) - FreeColumns(HostTable); }
  }

  /** The unit the document places here is the one the store has under this id. */
  ghost predicate SameUnit(db: Db, want: Wanted, unit: Id)
    requires Sound(db) && Whole(want)
  {
    unit in db.units && unit in want.identities && !DifferIn(db.units[unit], want.identities[unit], {Vendor, Card, Driver, Frontend, Codec})
  }

  /** A placement that is there: its unit stays what it is, and its device too once a run used it. */
  ghost predicate MayMove(db: Db, want: Wanted, p: (Id, Id))
    requires Sound(db) && Whole(want) && want.placements.Some? && p in want.placements.value && p in db.placements
  {
    && SameUnit(db, want, p.0)
    && (db.placements[p][Device] != want.placements.value[p][Device] ==>
          forall r | r in db.refs && r.isRun && r.unit == Some(p.0) :: r.host != Some(p.1))
  }

  ghost predicate KnownHost(db: Db, want: Wanted, host: Id) { host in db.hosts || (want.hosts.Some? && host in want.hosts.value) }

  /** A new placement: on a host the store or the document has, of a unit that is there as it is, or new. */
  ghost predicate MayPlace(db: Db, want: Wanted, p: (Id, Id))
    requires Sound(db) && Whole(want)
  {
    KnownHost(db, want, p.1) && (p.0 in db.units ==> SameUnit(db, want, p.0))
  }

  /** A new unit is neither one that is there nor another new one under a second id. */
  ghost predicate UniqueUnit(db: Db, want: Wanted, p: (Id, Id))
    requires Sound(db) && Whole(want) && want.placements.Some? && p.0 in want.identities
  {
    && (forall u | u in db.units :: DifferIn(db.units[u], want.identities[p.0], {Vendor, Card, Driver, Frontend, Codec}))
    && (forall q | q in want.placements.value && q !in db.placements && q.0 !in db.units && q.0 in want.identities && q.0 != p.0 ::
          DifferIn(want.identities[q.0], want.identities[p.0], {Vendor, Card, Driver, Frontend, Codec}))
  }

  ghost predicate NoUnitTwice(db: Db, want: Wanted)
    requires Sound(db) && Whole(want) && want.placements.Some?
  {
    forall p | p in want.placements.value && p !in db.placements && p.0 !in db.units && p.0 in want.identities :: UniqueUnit(db, want, p)
  }

  ghost predicate UnitsMayChange(db: Db, want: Wanted)
    requires Sound(db) && Whole(want)
  {
    want.placements.Some? ==>
      && (forall p | p in want.placements.value && p in db.placements :: MayMove(db, want, p))
      && (forall p | p in want.placements.value && p !in db.placements :: MayPlace(db, want, p))
      && NoUnitTwice(db, want)
  }

  lemma RowsDiffer(a: Row, b: Row, t: Table, columns: set<Column>)
    requires HasColumns(a, t) && HasColumns(b, t) && columns == Columns(t)
    ensures DifferIn(a, b, columns) <==> a != b
    ensures Changed(a, b) != {} <==> a != b
  {
    if !DifferIn(a, b, columns) { assert a == b; }
    if c :| c in columns && a[c] != b[c] { assert c in Changed(a, b); }
    if c :| c in Changed(a, b) { assert a[c] != b[c]; }
  }

  lemma SameUnitExactly(db: Db, want: Wanted, unit: Id)
    requires Sound(db) && Whole(want) && unit in db.units && unit in want.identities
    ensures SameUnit(db, want, unit) <==> db.units[unit] == want.identities[unit]
  {
    RowsDiffer(db.units[unit], want.identities[unit], UnitTable, {Vendor, Card, Driver, Frontend, Codec});
  }

  lemma MayMoveExactly(db: Db, want: Wanted, p: (Id, Id))
    requires Sound(db) && Comparable(want, db) && Whole(want) && want.placements.Some? && p in want.placements.value && p in db.placements
    ensures MayMove(db, want, p) <==>
              (p in UnitsGroup(want, db).updated ==> db.units[p.0] == want.identities[p.0] && !PlacementRan(db.refs, p))
  {
    SameUnitExactly(db, want, p.0);
    RowsDiffer(db.units[p.0], want.identities[p.0], UnitTable, {Vendor, Card, Driver, Frontend, Codec});
    RowsDiffer(db.placements[p], want.placements.value[p], PlacementTable, {Device});
    assert DifferIn(db.placements[p], want.placements.value[p], {Device}) <==> db.placements[p][Device] != want.placements.value[p][Device];
  }

  lemma MovableExactly(db: Db, want: Wanted)
    requires Sound(db) && Comparable(want, db) && Whole(want) && want.placements.Some?
    ensures Movable(db.refs, db.units, want.identities, UnitsGroup(want, db).updated.Keys) <==>
            forall p | p in want.placements.value && p in db.placements :: MayMove(db, want, p)
  {
    forall p | p in want.placements.value && p in db.placements
      ensures MayMove(db, want, p) <==>
                (p in UnitsGroup(want, db).updated ==> db.units[p.0] == want.identities[p.0] && !PlacementRan(db.refs, p))
    {
      MayMoveExactly(db, want, p);
    }
  }

  lemma PlaceableExactly(db: Db, want: Wanted)
    requires Sound(db) && Comparable(want, db) && Whole(want) && want.placements.Some?
    ensures var created := Created(db.placements, want.placements);
            && (forall k | k in created :: k.1 in HostsGrown(db, want)) && (forall k | k in created && k.0 in db.units :: db.units[k.0] == want.identities[k.0])
            <==> forall p | p in want.placements.value && p !in db.placements :: MayPlace(db, want, p)
  {
    var created := Created(db.placements, want.placements);
    assert forall p :: p in created <==> p in want.placements.value && p !in db.placements;
    forall p | p in created
      ensures MayPlace(db, want, p) <==> p.1 in HostsGrown(db, want) && (p.0 in db.units ==> db.units[p.0] == want.identities[p.0])
    {
      if p.0 in db.units { SameUnitExactly(db, want, p.0); }
    }
  }

  lemma UnitsDiffer(a: Row, b: Row)
    requires HasColumns(a, UnitTable) && HasColumns(b, UnitTable)
    ensures DifferIn(a, b, {Vendor, Card, Driver, Frontend, Codec}) <==> a != b
  {
    RowsDiffer(a, b, UnitTable, {Vendor, Card, Driver, Frontend, Codec});
  }

  /** What the new units are. */
  lemma NewUnitsAre(db: Db, want: Wanted, created: set<(Id, Id)>, u: Id)
    requires Comparable(want, db) && want.placements.Some? && created == Created(db.placements, want.placements)
    ensures u in UnitsWith(db.units, want.identities, created) <==>
              u in db.units || exists p :: p in want.placements.value && p !in db.placements && p.0 == u
    ensures u in db.units ==> UnitsWith(db.units, want.identities, created)[u] == db.units[u]
    ensures u !in db.units && u in UnitsWith(db.units, want.identities, created) ==>
              u in want.identities && UnitsWith(db.units, want.identities, created)[u] == want.identities[u]
  {
    if p :| p in want.placements.value && p !in db.placements && p.0 == u {
      assert p in created;
      if u !in db.units { assert u in NewUnits(db.units, created); }
    }
  }

  lemma UnitOnceExactly(db: Db, want: Wanted)
    requires Sound(db) && Comparable(want, db) && Whole(want) && want.placements.Some?
    ensures OneIdEach(UnitsWith(db.units, want.identities, Created(db.placements, want.placements))) <==> NoUnitTwice(db, want)
  {
    var created := Created(db.placements, want.placements);
    var units := UnitsWith(db.units, want.identities, created);
    if OneIdEach(units) {
      forall p | p in want.placements.value && p !in db.placements && p.0 !in db.units ensures UniqueUnit(db, want, p) { OnceSaysUnique(db, want, units, p); }
    }
    if NoUnitTwice(db, want) {
      forall u, v | u in units && v in units && units[u] == units[v] ensures u == v { UniqueSaysOnce(db, want, created, u, v); }
    }
  }

  lemma OnceSaysUnique(db: Db, want: Wanted, units: map<Id, Row>, p: (Id, Id))
    requires Sound(db) && Comparable(want, db) && Whole(want) && want.placements.Some? && OneIdEach(units)
    requires units == UnitsWith(db.units, want.identities, Created(db.placements, want.placements))
    requires p in want.placements.value && p !in db.placements && p.0 !in db.units
    ensures UniqueUnit(db, want, p)
  {
    var created := Created(db.placements, want.placements);
    NewUnitsAre(db, want, created, p.0);
    forall u | u in db.units ensures DifferIn(db.units[u], want.identities[p.0], {Vendor, Card, Driver, Frontend, Codec}) {
      NewUnitsAre(db, want, created, u);
      UnitsDiffer(db.units[u], want.identities[p.0]);
    }
    forall q | q in want.placements.value && q !in db.placements && q.0 !in db.units && q.0 in want.identities && q.0 != p.0
      ensures DifferIn(want.identities[q.0], want.identities[p.0], {Vendor, Card, Driver, Frontend, Codec})
    {
      NewUnitsAre(db, want, created, q.0);
      UnitsDiffer(want.identities[q.0], want.identities[p.0]);
    }
  }

  /** A new unit is unlike every other. */
  lemma NewIsUnlike(db: Db, want: Wanted, created: set<(Id, Id)>, p: (Id, Id), v: Id)
    requires Sound(db) && Comparable(want, db) && Whole(want) && want.placements.Some? && NoUnitTwice(db, want)
    requires created == Created(db.placements, want.placements) && v in UnitsWith(db.units, want.identities, created)
    requires p in want.placements.value && p !in db.placements && p.0 !in db.units && v != p.0
    ensures UnitsWith(db.units, want.identities, created)[v] != want.identities[p.0]
  {
    NewUnitsAre(db, want, created, v);
    if v in db.units {
      UnitsDiffer(db.units[v], want.identities[p.0]);
    } else {
      var q :| q in want.placements.value && q !in db.placements && q.0 == v;
      UnitsDiffer(want.identities[q.0], want.identities[p.0]);
    }
  }

  lemma UniqueSaysOnce(db: Db, want: Wanted, created: set<(Id, Id)>, u: Id, v: Id)
    requires Sound(db) && Comparable(want, db) && Whole(want) && want.placements.Some? && NoUnitTwice(db, want)
    requires created == Created(db.placements, want.placements)
    requires var units := UnitsWith(db.units, want.identities, created); u in units && v in units && units[u] == units[v]
    ensures u == v
    decreases if u in db.units then 1 else 0
  {
    if u !in db.units {
      NewUnitsAre(db, want, created, u);
      var p :| p in want.placements.value && p !in db.placements && p.0 == u;
      if v != u { NewIsUnlike(db, want, created, p, v); }
    } else if v !in db.units {
      UniqueSaysOnce(db, want, created, v, u);
    } else {
      UnitsStand(db.units, want.identities, created);
    }
  }

  lemma UnitsMayChangeExactly(db: Db, want: Wanted)
    requires Sound(db) && Comparable(want, db) && Whole(want)
    ensures UnitsGrowable(db, want, HostsGrown(db, want).Keys) <==> UnitsMayChange(db, want)
  {
    if want.placements.Some? {
      MovableExactly(db, want);
      PlaceableExactly(db, want);
      UnitOnceExactly(db, want);
      CreatableExactly(db, want);
    }
  }

  lemma CreatableExactly(db: Db, want: Wanted)
    requires Comparable(want, db) && want.placements.Some?
    ensures var created := Created(db.placements, want.placements);
            Creatable(HostsGrown(db, want).Keys, db.units, want.identities, created) <==>
              && (forall k | k in created :: k.1 in HostsGrown(db, want))
              && (forall k | k in created && k.0 in db.units :: db.units[k.0] == want.identities[k.0])
              && OneIdEach(UnitsWith(db.units, want.identities, created))
  {
  }

  /** A scorer keeps every field once a run on its host has recorded a scorer build; a new one needs its host. */
  ghost predicate ScorersMayChange(db: Db, want: Wanted)
    requires Sound(db) && Whole(want)
  {
    want.scorers.Some? ==> forall s | s in want.scorers.value ::
      if s in db.scorers then
        DifferIn(db.scorers[s], want.scorers.value[s], {Ffvship, ScoreFfmpeg, MetricBackend, GpuId, CacheDir}) ==>
          forall r | r in db.refs && r.isRun && r.scored :: r.host != Some(s)
      else KnownHost(db, want, s)
  }

  lemma CreatedScorers(db: Db, want: Wanted)
    requires want.scorers.Some?
    ensures Created(db.scorers, want.scorers) <= HostsGrown(db, want).Keys <==>
            forall s | s in want.scorers.value && s !in db.scorers :: KnownHost(db, want, s)
  {
    assert forall s :: s in Created(db.scorers, want.scorers) <==> s in want.scorers.value && s !in db.scorers;
    assert forall s :: s in HostsGrown(db, want).Keys <==> KnownHost(db, want, s);
  }

  lemma ScorersMayChangeExactly(db: Db, want: Wanted)
    requires Sound(db) && Whole(want)
    ensures ScorersGrowable(db, want, HostsGrown(db, want).Keys) <==> ScorersMayChange(db, want)
  {
    if want.scorers.Some? {
      var rows := want.scorers.value;
      forall s | s in rows && s in db.scorers
        ensures s in Differing(rows, db.scorers) <==> DifferIn(db.scorers[s], rows[s], {Ffvship, ScoreFfmpeg, MetricBackend, GpuId, CacheDir})
      {
        RowsDiffer(db.scorers[s], rows[s], ScorerTable, {Ffvship, ScoreFfmpeg, MetricBackend, GpuId, CacheDir});
      }
      CreatedScorers(db, want);
    }
  }

  // ---- what may go

  /** A placement that goes is named by nothing but a report, and neither is its unit if none of its placements stays. */
  ghost predicate MayUnplace(db: Db, want: Wanted, p: (Id, Id))
    requires want.placements.Some?
  {
    && (forall r | r in db.refs && !r.report :: r.placement != Some(p))
    && ((forall q | q in want.placements.value :: q.0 != p.0) ==> forall r | r in db.refs && !r.report :: r.unit != Some(p.0))
  }

  /** A host that goes is named by nothing but its own reports, by no placement that stays and by no scorer that stays. */
  ghost predicate MayDrop(db: Db, want: Wanted, h: Id) {
    && (forall r | r in db.refs && !r.report :: r.host != Some(h))
    && (if want.placements.Some? then forall p | p in want.placements.value :: p.1 != h else forall p | p in db.placements :: p.1 != h)
    && (if want.scorers.Some? then h !in want.scorers.value else h !in db.scorers)
  }

  ghost predicate NothingNamedGoes(db: Db, want: Wanted) {
    && (want.placements.Some? ==> forall p | p in db.placements && p !in want.placements.value :: MayUnplace(db, want, p))
    && (want.hosts.Some? ==> forall h | h in db.hosts && h !in want.hosts.value :: MayDrop(db, want, h))
  }

  lemma LeftPlacements(db: Db, want: Wanted)
    requires Comparable(want, db)
    ensures PlacementsWith(db, want) - Removed(db.placements, want.placements) ==
            if want.placements.Some? then want.placements.value else db.placements
  {
    var left := PlacementsWith(db, want) - Removed(db.placements, want.placements);
    if want.placements.Some? { FleetLaws.SameMap(left, want.placements.value); } else { FleetLaws.SameMap(left, db.placements); }
  }

  lemma LeftScorers(db: Db, want: Wanted, h: Id)
    ensures h in ScorersGrown(db, want) - Removed(db.scorers, want.scorers) <==>
            if want.scorers.Some? then h in want.scorers.value else h in db.scorers
  {
  }

  lemma MayUnplaceExactly(db: Db, want: Wanted)
    requires Comparable(want, db)
    ensures Removable(db.refs, PlacementsWith(db, want), Removed(db.placements, want.placements)) <==>
            (want.placements.Some? ==> forall p | p in db.placements && p !in want.placements.value :: MayUnplace(db, want, p))
  {
    var gone, all := Removed(db.placements, want.placements), PlacementsWith(db, want);
    LeftPlacements(db, want);
    assert forall u :: u in Unplaced(all, gone) <==> exists p :: p in gone && p.0 == u && !Placed(all - gone, u);
    if want.placements.Some? {
      forall p | p in gone ensures !Placed(all - gone, p.0) <==> forall q | q in want.placements.value :: q.0 != p.0 {}
    }
  }

  lemma MayDropExactly(db: Db, want: Wanted, h: Id)
    requires Comparable(want, db)
    ensures MayDrop(db, want, h) <==>
              && !HostNamed(db.refs, h) && !Hosting(PlacementsWith(db, want) - Removed(db.placements, want.placements), h)
              && h !in ScorersGrown(db, want) - Removed(db.scorers, want.scorers)
  {
    LeftPlacements(db, want);
    LeftScorers(db, want, h);
  }

  lemma NothingNamedGoesExactly(db: Db, want: Wanted)
    requires Comparable(want, db)
    ensures Shrinkable(Grown(db, want), Removed(db.hosts, want.hosts), Removed(db.placements, want.placements), Removed(db.scorers, want.scorers))
            <==> NothingNamedGoes(db, want)
  {
    MayUnplaceExactly(db, want);
    forall h ensures MayDrop(db, want, h) <==>
                       && !HostNamed(db.refs, h) && !Hosting(PlacementsWith(db, want) - Removed(db.placements, want.placements), h)
                       && h !in ScorersGrown(db, want) - Removed(db.scorers, want.scorers)
    {
      MayDropExactly(db, want, h);
    }
  }

  /** A document is applied exactly when no host a measurement names changes in more than `notes` and `ssh_host`, no
      placement a run used and no scorer a scoring run used changes, every unit stays what it is and is there once, every
      new row has its host, and nothing that anything still names goes. */
  lemma PermittedExactly(db: Db, want: Wanted)
    requires Sound(db) && Comparable(want, db) && Whole(want)
    ensures Permitted(db, want) <==>
            HostsMayChange(db, want) && UnitsMayChange(db, want) && ScorersMayChange(db, want) && NothingNamedGoes(db, want)
  {
    HostsMayChangeExactly(db, want);
    UnitsMayChangeExactly(db, want);
    ScorersMayChangeExactly(db, want);
    NothingNamedGoesExactly(db, want);
  }

  // ---- what is always taken

  /** The document's hosts are the store's, and differ from them in `notes` and `ssh_host` alone. */
  ghost predicate OnlyNotesDiffer(db: Db, want: Wanted)
    requires Sound(db) && Whole(want)
  {
    want.hosts.Some? ==>
      && want.hosts.value.Keys == db.hosts.Keys
      && forall h | h in db.hosts :: !DifferIn(db.hosts[h].cols, want.hosts.value[h], {Os, Machine, WorkRoot, Ffmpeg, LocalView})
  }

  /** Whatever refers to what: a document that says what the store says, but for notes and how to reach a host, is
      applied. */
  lemma NotesAreFree(db: Db, want: Wanted)
    requires Sound(db) && Comparable(want, db) && Whole(want) && OnlyNotesDiffer(db, want)
    requires want.placements.Some? ==> want.placements.value == db.placements && forall p | p in db.placements :: want.identities[p.0] == db.units[p.0]
    requires want.scorers.Some? ==> want.scorers.value == db.scorers
    ensures Permitted(db, want)
  {
    PermittedExactly(db, want);
    assert HostsMayChange(db, want);
    if want.placements.Some? { UnitsAsTheyAre(db, want); }
    if want.scorers.Some? { ScorersAsTheyAre(db, want); }
  }

  lemma UnitsAsTheyAre(db: Db, want: Wanted)
    requires Sound(db) && Comparable(want, db) && Whole(want) && want.placements == Some(db.placements)
    requires forall p | p in db.placements :: want.identities[p.0] == db.units[p.0]
    ensures UnitsMayChange(db, want)
  {
    forall p | p in db.placements ensures MayMove(db, want, p) {}
  }

  lemma ScorersAsTheyAre(db: Db, want: Wanted)
    requires Sound(db) && Whole(want) && want.scorers == Some(db.scorers)
    ensures ScorersMayChange(db, want)
  {
  }

  // ---- what the rows hold

  /** What an entry gives, and nothing where it gives nothing. */
  function Given(cols: Row, c: Column): Value { if c in cols then cols[c] else Null }

  ghost predicate HoldsAll(row: Row, cols: Row, columns: set<Column>) { row.Keys == columns && forall c | c in columns :: row[c] == Given(cols, c) }

  /** The hosts of the tables are the document's, one an entry, each with the columns its entry gives. */
  ghost predicate HostsGiven(entries: seq<Entry<Id>>, t: Db) {
    && (forall h :: h in t.hosts <==> exists i :: 0 <= i < |entries| && entries[i].key == h)
    && (forall i | 0 <= i < |entries| ::
          HoldsAll(t.hosts[entries[i].key].cols, entries[i].cols, {SshHost, Os, Machine, WorkRoot, Ffmpeg, LocalView, Notes}))
  }

  ghost predicate UnitsGiven(entries: seq<Entry<(Id, Id)>>, t: Db) {
    && (forall p :: p in t.placements <==> exists i :: 0 <= i < |entries| && entries[i].key == p)
    && (forall i | 0 <= i < |entries| ::
          && HoldsAll(t.placements[entries[i].key], entries[i].cols, {Device}) && entries[i].key.0 in t.units
          && HoldsAll(t.units[entries[i].key.0], entries[i].cols, {Vendor, Card, Driver, Frontend, Codec}))
  }

  ghost predicate ScorersGiven(entries: seq<Entry<Id>>, t: Db) {
    && (forall s :: s in t.scorers <==> exists i :: 0 <= i < |entries| && entries[i].key == s)
    && (forall i | 0 <= i < |entries| ::
          HoldsAll(t.scorers[entries[i].key], entries[i].cols, {Ffvship, ScoreFfmpeg, MetricBackend, GpuId, CacheDir}))
  }

  /** After `apply` each row is the document's entry, column by column; the rows of a group the document manages are
      its entries', one each, and no others. */
  lemma RowsAsGiven(db: Db, doc: Document, want: Wanted)
    requires Sound(db) && WellFormed(doc) && Says(want, doc) && Comparable(want, db) && Permitted(db, want)
    ensures doc.hosts.Some? ==> HostsGiven(doc.hosts.value, Target(db, want))
    ensures doc.units.Some? ==> UnitsGiven(doc.units.value, Target(db, want))
    ensures doc.scorers.Some? ==> ScorersGiven(doc.scorers.value, Target(db, want))
  {
    SaysWhole(want, doc);
    if doc.hosts.Some? { HostsAsGiven(db, doc, want); }
    if doc.units.Some? { UnitsAsGiven(db, doc, want); }
    if doc.scorers.Some? { ScorersAsGiven(db, doc, want); }
  }

  lemma HostsAsGiven(db: Db, doc: Document, want: Wanted)
    requires Says(want, doc) && Comparable(want, db) && doc.hosts.Some?
    ensures HostsGiven(doc.hosts.value, Target(db, want))
  {
    FleetLaws.TargetHosts(db, want);
    var entries, t := doc.hosts.value, Target(db, want);
    forall i | 0 <= i < |entries|
      ensures HoldsAll(t.hosts[entries[i].key].cols, entries[i].cols, {SshHost, Os, Machine, WorkRoot, Ffmpeg, LocalView, Notes})
    {
      assert HostCols(t)[entries[i].key] == RowOf(entries[i].cols, HostTable);
      RowAsGiven(entries[i].cols, HostTable, {SshHost, Os, Machine, WorkRoot, Ffmpeg, LocalView, Notes});
    }
  }

  lemma UnitsAsGiven(db: Db, doc: Document, want: Wanted)
    requires Sound(db) && Says(want, doc) && Comparable(want, db) && Whole(want) && Permitted(db, want) && doc.units.Some?
    ensures UnitsGiven(doc.units.value, Target(db, want))
  {
    FleetLaws.TargetPlacements(db, want);
    var entries := doc.units.value;
    forall i | 0 <= i < |entries|
      ensures var t := Target(db, want);
              && HoldsAll(t.placements[entries[i].key], entries[i].cols, {Device}) && entries[i].key.0 in t.units
              && HoldsAll(t.units[entries[i].key.0], entries[i].cols, {Vendor, Card, Driver, Frontend, Codec})
    {
      FleetLaws.TargetUnits(db, want, entries[i].key);
      IdentityAsGiven(want.identities, entries, i);
      PlacementAsGiven(want.placements.value, entries, i);
    }
  }

  lemma IdentityAsGiven(identities: map<Id, Row>, entries: seq<Entry<(Id, Id)>>, i: nat)
    requires IdentitiesOf(identities, entries) && i < |entries|
    ensures entries[i].key.0 in identities && HoldsAll(identities[entries[i].key.0], entries[i].cols, {Vendor, Card, Driver, Frontend, Codec})
  {
    var columns := {Vendor, Card, Driver, Frontend, Codec};
    RowAsGiven(entries[i].cols, UnitTable, columns);
  }

  lemma PlacementAsGiven(placements: map<(Id, Id), Row>, entries: seq<Entry<(Id, Id)>>, i: nat)
    requires RowsOf(placements, entries, PlacementTable) && i < |entries|
    ensures entries[i].key in placements && HoldsAll(placements[entries[i].key], entries[i].cols, {Device})
  {
    RowAsGiven(entries[i].cols, PlacementTable, {Device});
  }

  lemma RowAsGiven(cols: Row, t: Table, columns: set<Column>)
    requires columns == Columns(t)
    ensures HoldsAll(RowOf(cols, t), cols, columns)
  {
  }

  lemma ScorersAsGiven(db: Db, doc: Document, want: Wanted)
    requires Says(want, doc) && Comparable(want, db) && doc.scorers.Some?
    ensures ScorersGiven(doc.scorers.value, Target(db, want))
  {
    FleetLaws.TargetScorers(db, want);
    var entries, columns := doc.scorers.value, {Ffvship, ScoreFfmpeg, MetricBackend, GpuId, CacheDir};
    forall i | 0 <= i < |entries| ensures HoldsAll(Target(db, want).scorers[entries[i].key], entries[i].cols, columns) {
      RowAsGiven(entries[i].cols, ScorerTable, columns);
    }
  }

  /** What else goes: a unit with the last of its placements, and a host's reports with the host; nothing more. A
      host's `blocked` is not the document's to change. */
  lemma WhatElseGoes(db: Db, want: Wanted)
    requires Comparable(want, db)
    ensures forall u | u in db.units ::
              u !in Target(db, want).units <==>
                && want.placements.Some? && (exists p :: p in db.placements && p.0 == u && p !in want.placements.value)
                && forall p | p in want.placements.value :: p.0 != u
    ensures forall r :: r in Target(db, want).refs <==>
              r in db.refs && !(r.report && want.hosts.Some? && r.host.Some? && r.host.value in db.hosts && r.host.value !in want.hosts.value)
    ensures forall h | h in db.hosts && h in Target(db, want).hosts :: Target(db, want).hosts[h].blocked == db.hosts[h].blocked
    ensures forall h | h !in db.hosts && h in Target(db, want).hosts :: Target(db, want).hosts[h].blocked == None
  {
    forall u | u in db.units
      ensures u !in Target(db, want).units <==>
                && want.placements.Some? && (exists p :: p in db.placements && p.0 == u && p !in want.placements.value)
                && forall p | p in want.placements.value :: p.0 != u
    {
      UnitGoes(db, want, u);
    }
  }

  lemma UnitGoes(db: Db, want: Wanted, u: Id)
    requires Comparable(want, db) && u in db.units
    ensures u !in Target(db, want).units <==>
              && want.placements.Some? && (exists p :: p in db.placements && p.0 == u && p !in want.placements.value)
              && forall p | p in want.placements.value :: p.0 != u
  {
    var gone, all := Removed(db.placements, want.placements), PlacementsWith(db, want);
    LeftPlacements(db, want);
    UnitsStand(db.units, want.identities, Created(db.placements, want.placements));
    assert u !in Target(db, want).units <==> u in Unplaced(all, gone);
    assert u in Unplaced(all, gone) <==> exists p :: p in gone && p.0 == u && !Placed(all - gone, u);
    if want.placements.Some? { assert forall p :: p in gone <==> p in db.placements && p !in want.placements.value; }
  }

  // ---- what `diff` says

  /** What of one group `diff` reports: what the store lacks, each row that differs with exactly the columns it differs
      in, what the document lacks, and how many agree. */
  lemma GroupSays(want: map<Id, Row>, have: map<Id, Row>, t: Table)
    requires forall k | k in want :: HasColumns(want[k], t)
    requires forall k | k in have :: HasColumns(have[k], t)
    ensures var g := GroupOf(want, have);
            && (forall k :: k in g.created <==> k in want && k !in have)
            && (forall k :: k in g.removed <==> k in have && k !in want)
            && (forall k :: k in g.updated <==> k in want && k in have && want[k] != have[k])
            && (forall k | k in g.updated ::
                  k in want && k in have && forall c :: c in g.updated[k] <==> c in want[k] && c in have[k] && want[k][c] != have[k][c])
            && (forall k :: k in Agreeing(want, have) <==> k in want && k in have && want[k] == have[k])
  {
    forall k | k in want && k in have ensures Changed(have[k], want[k]) != {} <==> want[k] != have[k] {
      RowsDiffer(have[k], want[k], t, Columns(t));
    }
  }

  /** And of the placements: one differs in its own columns or in its unit's. */
  lemma UnitsSay(want: Wanted, db: Db)
    requires Sound(db) && Comparable(want, db) && Whole(want) && want.placements.Some?
    ensures var g, rows := UnitsGroup(want, db), want.placements.value;
            && (forall p :: p in g.created <==> p in rows && p !in db.placements)
            && (forall p :: p in g.removed <==> p in db.placements && p !in rows)
            && (forall p :: p in g.updated <==>
                  p in rows && p in db.placements && (rows[p] != db.placements[p] || want.identities[p.0] != db.units[p.0]))
            && (forall p | p in g.updated :: ChangedAsRows(want, db, p, g.updated[p]))
  {
    forall p | p in want.placements.value && p in db.placements
      ensures PlacementChanged(want, db, p) != {} <==> want.placements.value[p] != db.placements[p] || want.identities[p.0] != db.units[p.0]
      ensures ChangedAsRows(want, db, p, PlacementChanged(want, db, p))
    {
      RowsDiffer(db.units[p.0], want.identities[p.0], UnitTable, {Vendor, Card, Driver, Frontend, Codec});
      RowsDiffer(db.placements[p], want.placements.value[p], PlacementTable, {Device});
      PlacementChangedIs(want, db, p);
    }
  }

  /** These are the columns in which the placement, or its unit, differs from the document. */
  ghost predicate ChangedAsRows(want: Wanted, db: Db, p: (Id, Id), columns: set<Column>)
    requires Sound(db) && Comparable(want, db) && Whole(want) && want.placements.Some? && p in want.placements.value && p in db.placements
  {
    forall c :: c in columns <==>
      || (c == Device && want.placements.value[p][Device] != db.placements[p][Device])
      || (c in {Vendor, Card, Driver, Frontend, Codec} && want.identities[p.0][c] != db.units[p.0][c])
  }

  lemma PlacementChangedIs(want: Wanted, db: Db, p: (Id, Id))
    requires Sound(db) && Comparable(want, db) && Whole(want) && want.placements.Some? && p in want.placements.value && p in db.placements
    ensures ChangedAsRows(want, db, p, PlacementChanged(want, db, p))
  {
    DeviceChanged(db.placements[p], want.placements.value[p]);
    UnitChanged(db.units[p.0], want.identities[p.0]);
  }

  lemma DeviceChanged(a: Row, b: Row)
    requires HasColumns(a, PlacementTable) && HasColumns(b, PlacementTable)
    ensures forall c :: c in Changed(a, b) <==> c == Device && b[Device] != a[Device]
  {
  }

  lemma UnitChanged(a: Row, b: Row)
    requires HasColumns(a, UnitTable) && HasColumns(b, UnitTable)
    ensures forall c :: c in Changed(a, b) <==> c in {Vendor, Card, Driver, Frontend, Codec} && b[c] != a[c]
  {
  }
}
