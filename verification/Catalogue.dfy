/** `apply`, row by row (sweep/hub/fleet.py): creations and updates first, in foreign-key order, then removals in
    reverse, every refusal raised before the write it would have made. */
module Catalogue {
  import opened Names
  import opened Wrappers
  import opened Fleet
  import opened Reconcile

  class Tables {
    var hosts: map<Id, HostRow>
    var units: map<Id, Row>
    var placements: map<(Id, Id), Row>
    var scorers: map<Id, Row>
    var refs: set<Ref>
    var undo: Option<Db>            // inside a transaction: what a ROLLBACK returns to
    const checks: Db -> bool        // whether no check of the schema and no script check fires

    function Now(): Db
      reads this
    {
      Db(hosts, units, placements, scorers, refs)
    }

    constructor (db: Db, checks: Db -> bool)
      ensures Now() == db && undo == None && this.checks == checks
    {
      hosts, units, placements, scorers, refs := db.hosts, db.units, db.placements, db.scorers, db.refs;
      undo, this.checks := None, checks;
    }

    // ---- hosts

    method CreateHosts(want: map<Id, Row>, created: set<Id>)
      requires created <= want.Keys
      modifies `hosts
      ensures hosts == Overlay(old(hosts), NewHosts(want, created), created)
    {
      var seen: set<Id> := {};
      OverlayNone(hosts, NewHosts(want, created));
      while seen != created
        invariant seen <= created
        invariant hosts == Overlay(old(hosts), NewHosts(want, created), seen)
        decreases |created - seen|
      {
        var name :| name in created && name !in seen;
        OneMore(created, seen, name);
        OverlayNext(old(hosts), NewHosts(want, created), seen, name);
        hosts := hosts[name := HostRow(want[name], None)];
        seen := seen + {name};
      }
    }

    method UpdateHosts(want: map<Id, Row>, updated: map<Id, set<Column>>) returns (ok: bool)
      requires updated.Keys <= want.Keys && updated.Keys <= hosts.Keys
      requires forall h | h in updated :: hosts[h].cols.Keys == want[h].Keys && updated[h] == Changed(hosts[h].cols, want[h])
      modifies `hosts
      ensures ok <==> HostsFree(refs, updated)
      ensures ok ==> hosts == Overlay(old(hosts), KeptHosts(old(hosts), want, updated.Keys), updated.Keys)
    {
      var seen: set<Id> := {};
      ghost var add := KeptHosts(hosts, want, updated.Keys);
      OverlayNone(hosts, add);
      while seen != updated.Keys
        invariant seen <= updated.Keys && FreeUpto(refs, updated, seen)
        invariant hosts == Overlay(old(hosts), add, seen)
        decreases |updated.Keys - seen|
      {
        var name :| name in updated.Keys && name !in seen;
        if Locked(HostTable, updated[name]) && HostMeasured(refs, name) { return false; }
        OneMore(updated.Keys, seen, name);
        FreeNext(refs, updated, seen, name);
        OverlayNext(old(hosts), add, seen, name);
        UpdateHost(name, want[name], updated[name]);
        seen := seen + {name};
      }
      ok := true;
    }

    method UpdateHost(name: Id, want: Row, fields: set<Column>)
      requires name in hosts && hosts[name].cols.Keys == want.Keys && Changed(hosts[name].cols, want) <= fields
      modifies `hosts
      ensures hosts == old(hosts)[name := HostRow(want, old(hosts)[name].blocked)]
    {
      PatchedIsWanted(hosts[name].cols, want, fields);
      hosts := hosts[name := HostRow(Patched(hosts[name].cols, want, fields), hosts[name].blocked)];
    }

    // ---- units and their placements

    /** The store already holds this unit as this; a disagreement refuses, a new one is inserted. */
    method EnsureUnit(unit: Id, ident: Row) returns (ok: bool)
      modifies `units
      ensures ok <==> if unit in old(units) then old(units)[unit] == ident else ident !in old(units).Values
      ensures units == if ok && unit !in old(units) then old(units)[unit := ident] else old(units)
    {
      if unit in units { return units[unit] == ident; }
      if ident in units.Values { return false; }
      units := units[unit := ident];
      ok := true;
    }

    method CreatePlacement(key: (Id, Id), ident: Row, row: Row) returns (ok: bool)
      modifies `units, `placements
      ensures ok <==> key.1 in hosts && if key.0 in old(units) then old(units)[key.0] == ident else ident !in old(units).Values
      ensures ok ==> units == (if key.0 in old(units) then old(units) else old(units)[key.0 := ident]) && placements == old(placements)[key := row]
    {
      if key.1 !in hosts { return false; }
      ok := EnsureUnit(key.0, ident);
      if !ok { return; }
      placements := placements[key := row];
    }

    method CreatePlacements(identities: map<Id, Row>, want: map<(Id, Id), Row>, created: set<(Id, Id)>) returns (ok: bool)
      requires created <= want.Keys && (forall k | k in created :: k.0 in identities) && OneIdEach(units)
      modifies `units, `placements
      ensures ok <==> Creatable(hosts.Keys, old(units), identities, created)
      ensures ok ==> units == UnitsWith(old(units), identities, created)
      ensures ok ==> placements == Overlay(old(placements), want, created)
    {
      var seen: set<(Id, Id)> := {};
      NothingCreated(hosts.Keys, units, placements, identities, want);
      while seen != created
        invariant seen <= created && CreatedUpto(hosts.Keys, old(units), old(placements), identities, want, seen, units, placements)
        decreases |created - seen|
      {
        var key :| key in created && key !in seen;
        OneMore(created, seen, key);
        ok := CreateNext(identities, want, created, key, seen, old(units), old(placements));
        if !ok { return; }
        seen := seen + {key};
      }
      ok := true;
    }

    method CreateNext(identities: map<Id, Row>, want: map<(Id, Id), Row>, ghost created: set<(Id, Id)>, key: (Id, Id),
                      ghost seen: set<(Id, Id)>, ghost units0: map<Id, Row>, ghost placements0: map<(Id, Id), Row>)
      returns (ok: bool)
      requires key in created && key !in seen && seen <= created <= want.Keys && forall k | k in created :: k.0 in identities
      requires CreatedUpto(hosts.Keys, units0, placements0, identities, want, seen, units, placements)
      modifies `units, `placements
      ensures if ok then CreatedUpto(hosts.Keys, units0, placements0, identities, want, seen + {key}, units, placements)
              else !Creatable(hosts.Keys, units0, identities, created)
    {
      CreatedNext(hosts.Keys, units0, placements0, identities, want, created, seen, key, units, placements);
      ok := CreatePlacement(key, identities[key.0], want[key]);
    }

    method UpdatePlacements(want: Wanted, updated: map<(Id, Id), set<Column>>) returns (ok: bool)
      requires want.placements.Some? && updated.Keys <= want.placements.value.Keys && updated.Keys <= placements.Keys
      requires forall k | k in updated ::
                 && k.0 in want.identities && k.0 in units && placements[k].Keys == want.placements.value[k].Keys
                 && updated[k] != {} && Changed(placements[k], want.placements.value[k]) <= updated[k]
      modifies `placements
      ensures ok <==> Movable(refs, units, want.identities, updated.Keys)
      ensures ok ==> placements == Overlay(old(placements), want.placements.value, updated.Keys)
    {
      var identities, units0, refs0 := want.identities, units, refs;
      var frozen := (k: (Id, Id), fields: set<Column>) =>
        !(k.0 in identities && k.0 in units0 && units0[k.0] == identities[k.0]) || (Locked(PlacementTable, fields) && PlacementRan(refs0, k));
      var after;
      ok, after := UpdateRows(placements, want.placements.value, updated, frozen);
      if ok { placements := after; }
    }

    // ---- scorers

    method CreateScorers(want: map<Id, Row>, created: set<Id>) returns (ok: bool)
      requires created <= want.Keys
      modifies `scorers
      ensures ok <==> created <= hosts.Keys
      ensures ok ==> scorers == Overlay(old(scorers), want, created)
    {
      var seen: set<Id> := {};
      OverlayNone(scorers, want);
      while seen != created
        invariant seen <= created && seen <= hosts.Keys
        invariant scorers == Overlay(old(scorers), want, seen)
        decreases |created - seen|
      {
        var name :| name in created && name !in seen;
        if name !in hosts { return false; }
        OneMore(created, seen, name);
        OverlayNext(old(scorers), want, seen, name);
        scorers := scorers[name := want[name]];
        seen := seen + {name};
      }
      ok := true;
    }

    method UpdateScorers(want: map<Id, Row>, updated: map<Id, set<Column>>) returns (ok: bool)
      requires updated.Keys <= want.Keys && updated.Keys <= scorers.Keys
      requires forall k | k in updated :: scorers[k].Keys == want[k].Keys && updated[k] == Changed(scorers[k], want[k]) != {}
      modifies `scorers
      ensures ok <==> forall k | k in updated :: !HostScored(refs, k)
      ensures ok ==> scorers == Overlay(old(scorers), want, updated.Keys)
    {
      var refs0 := refs;
      var frozen := (k: Id, fields: set<Column>) => Locked(ScorerTable, fields) && HostScored(refs0, k);
      var after;
      ok, after := UpdateRows(scorers, want, updated, frozen);
      if ok { scorers := after; }
    }

    // ---- the groups

    method ApplyHosts(want: map<Id, Row>, g: Group<Id>) returns (ok: bool)
      requires g == GroupOf(want, HostCols(Now()))
      requires forall h | h in hosts :: HasColumns(hosts[h].cols, HostTable)
      requires forall h | h in want :: HasColumns(want[h], HostTable)
      modifies `hosts
      ensures ok <==> HostsFree(refs, g.updated)
      ensures ok ==> hosts == HostsWith(old(hosts), want)
    {
      ghost var db := Now();
      HostsCompared(db, want);
      CreateHosts(want, g.created);
      OldRowsStand(db.hosts, NewHosts(want, g.created), g.created);
      ok := UpdateHosts(want, g.updated);
      if ok { HostsApplied(db.hosts, want, g.updated.Keys); }
    }

    method ApplyUnits(want: Wanted, g: Group<(Id, Id)>) returns (ok: bool)
      requires want.placements.Some? && Comparable(want, Now()) && g == UnitsGroup(want, Now()) && OneIdEach(units) && Whole(want)
      requires forall p | p in placements :: HasColumns(placements[p], PlacementTable)
      modifies `units, `placements
      ensures ok <==> Creatable(hosts.Keys, old(units), want.identities, g.created) && Movable(refs, old(units), want.identities, g.updated.Keys)
      ensures ok ==> units == UnitsWith(old(units), want.identities, g.created) && placements == PlacementsWith(old(Now()), want)
    {
      ghost var db := Now();
      var rows := want.placements.value;
      PlacementsCompared(db, want);
      ok := CreatePlacements(want.identities, rows, g.created);
      if !ok { return; }
      OldRowsStand(db.placements, rows, g.created);
      UnitsStand(db.units, want.identities, g.created);
      ok := UpdatePlacements(want, g.updated);
      if ok { RowsApplied(db.placements, rows, g.updated.Keys); }
    }

    method ApplyScorers(want: map<Id, Row>, g: Group<Id>) returns (ok: bool)
      requires g == GroupOf(want, scorers)
      requires forall h | h in scorers :: HasColumns(scorers[h], ScorerTable)
      requires forall h | h in want :: HasColumns(want[h], ScorerTable)
      modifies `scorers
      ensures ok <==> g.created <= hosts.Keys && forall s | s in g.updated :: !HostScored(refs, s)
      ensures ok ==> scorers == old(scorers) + want
    {
      ghost var scorers0 := scorers;
      RowsCompared(scorers, want);
      ok := CreateScorers(want, g.created);
      if !ok { return; }
      ok := UpdateScorers(want, g.updated);
      if ok { RowsApplied(scorers0, want, g.updated.Keys); }
    }

    // ---- removals

    /** Nothing points at a scorer. */
    method RemoveScorers(removed: set<Id>)
      modifies `scorers
      ensures scorers == old(scorers) - removed
    {
      var left := removed;
      while left != {}
        invariant left <= removed
        invariant scorers == old(scorers) - (removed - left)
        decreases |left|
      {
        var name :| name in left;
        scorers := scorers - {name};
        left := left - {name};
      }
    }

    /** A unit goes with its last placement. */
    method RemovePlacements(removed: set<(Id, Id)>) returns (ok: bool)
      requires removed <= placements.Keys
      modifies `placements, `units
      ensures ok <==> Removable(refs, old(placements), removed)
      ensures ok ==> placements == old(placements) - removed && units == old(units) - Unplaced(old(placements), removed)
    {
      var seen: set<(Id, Id)> := {};
      ghost var db := Now();
      NothingRemoved(db);
      while seen != removed
        invariant seen <= removed && RemovedUpto(db, seen, units, placements)
        decreases |removed - seen|
      {
        var key :| key in removed && key !in seen;
        OneMore(removed, seen, key);
        RemovedNext(db, removed, seen, key, units, placements);
        if PlacementNamed(refs, key) { return false; }
        placements := placements - {key};
        if !Placed(placements, key.0) {
          if UnitNamed(refs, key.0) { return false; }
          units := units - {key.0};
        }
        seen := seen + {key};
      }
      ok := true;
    }

    method RemoveHosts(removed: set<Id>) returns (ok: bool)
      modifies `hosts, `refs
      ensures ok <==> forall h | h in removed :: !HostNamed(old(refs), h) && !Hosting(placements, h) && h !in scorers
      ensures ok ==> hosts == old(hosts) - removed && refs == WithoutReports(old(refs), removed)
    {
      var left := removed;
      assert WithoutReports(refs, {}) == refs;
      while left != {}
        invariant left <= removed
        invariant hosts == old(hosts) - (removed - left) && refs == WithoutReports(old(refs), removed - left)
        invariant forall h | h in removed - left :: !HostNamed(old(refs), h) && !Hosting(placements, h) && h !in scorers
        decreases |left|
      {
        var name :| name in left;
        ReportsCascade(old(refs), removed - left, name);
        assert removed - (left - {name}) == (removed - left) + {name};
        refs := WithoutReports(refs, {name});
        if HostNamed(refs, name) || Hosting(placements, name) || name in scorers { return false; }
        hosts := hosts - {name};
        left := left - {name};
      }
      ok := true;
    }

    // ---- the whole document

    /** Creations and updates, hosts before what is on them. */
    method Grow(want: Wanted, plan: Plan) returns (ok: bool)
      requires Sound(Now()) && Comparable(want, Now()) && Whole(want) && plan == PlanOf(want, Now())
      modifies `hosts, `units, `placements, `scorers
      ensures ok <==> && HostsGrowable(old(Now()), want) && UnitsGrowable(old(Now()), want, HostsGrown(old(Now()), want).Keys)
                      && ScorersGrowable(old(Now()), want, HostsGrown(old(Now()), want).Keys)
      ensures ok ==> Now() == Grown(old(Now()), want)
    {
      ghost var db := Now();
      ok := GrowHosts(want, plan.hosts);
      if ok {
        HostsAreIn(want, db, Now());
        ok := GrowOnHosts(want, plan);
      }
    }

    /** The placements and the scorers, on hosts that are there by now. */
    method GrowOnHosts(want: Wanted, plan: Plan) returns (ok: bool)
      requires Groundwork(want, Now(), plan)
      modifies `units, `placements, `scorers
      ensures ok <==> UnitsGrowable(old(Now()), want, hosts.Keys) && ScorersGrowable(old(Now()), want, hosts.Keys)
      ensures ok ==> Now() == RowsGrown(old(Now()), want)
    {
      ok := GrowUnits(want, plan.units);
      if ok { ok := GrowScorers(want, plan.scorers); }
    }

    method GrowHosts(want: Wanted, g: Group<Id>) returns (ok: bool)
      requires Sound(Now()) && Whole(want) && (want.hosts.Some? ==> g == GroupOf(want.hosts.value, HostCols(Now())))
      modifies `hosts
      ensures ok <==> HostsGrowable(old(Now()), want)
      ensures ok ==> hosts == HostsGrown(old(Now()), want)
    {
      ok := true;
      if want.hosts.Some? { ok := ApplyHosts(want.hosts.value, g); }
    }

    method GrowUnits(want: Wanted, g: Group<(Id, Id)>) returns (ok: bool)
      requires Comparable(want, Now()) && Whole(want) && OneIdEach(units) && (want.placements.Some? ==> g == UnitsGroup(want, Now()))
      requires forall p | p in placements :: HasColumns(placements[p], PlacementTable)
      modifies `units, `placements
      ensures ok <==> UnitsGrowable(old(Now()), want, hosts.Keys)
      ensures ok ==> units == UnitsWith(old(units), want.identities, Created(old(placements), want.placements))
                     && placements == PlacementsWith(old(Now()), want)
    {
      ok := true;
      NoNewUnits(units, want.identities);
      if want.placements.Some? { ok := ApplyUnits(want, g); }
    }

    method GrowScorers(want: Wanted, g: Group<Id>) returns (ok: bool)
      requires Whole(want) && (want.scorers.Some? ==> g == GroupOf(want.scorers.value, scorers))
      requires forall h | h in scorers :: HasColumns(scorers[h], ScorerTable)
      modifies `scorers
      ensures ok <==> ScorersGrowable(old(Now()), want, hosts.Keys)
      ensures ok ==> scorers == ScorersGrown(old(Now()), want)
    {
      ok := true;
      if want.scorers.Some? { ok := ApplyScorers(want.scorers.value, g); }
    }

    /** Removals, in reverse. */
    method Shrink(plan: Plan) returns (ok: bool)
      requires plan.units.removed <= placements.Keys
      modifies `hosts, `units, `placements, `scorers, `refs
      ensures ok <==> Shrinkable(old(Now()), plan.hosts.removed, plan.units.removed, plan.scorers.removed)
      ensures ok ==> Now() == Shrunk(old(Now()), plan.hosts.removed, plan.units.removed, plan.scorers.removed)
    {
      RemoveScorers(plan.scorers.removed);
      ok := RemovePlacements(plan.units.removed);
      if !ok { return; }
      ok := RemoveHosts(plan.hosts.removed);
    }

    /** Make the tables match the document; a refusal may leave them half changed, for the transaction to take back. */
    method Apply(doc: Document) returns (r: Result<Plan>)
      requires Sound(Now())
      modifies `hosts, `units, `placements, `scorers, `refs
      ensures r.Ok? <==> MayApply(old(Now()), doc)
      ensures r.Ok? ==> exists want :: Says(want, doc) && Comparable(want, old(Now()))
                                       && r.value == PlanOf(want, old(Now())) && Now() == Target(old(Now()), want)
    {
      ghost var db := Now();
      var normal := Normalise(doc);
      if normal.Refused? { return Refused; }
      var want := normal.value;
      SaysComparable(want, doc, db);
      SaysWhole(want, doc);
      OneReading(doc, db, want);
      var plan := DiffRows(Now(), want);
      var ok := Grow(want, plan);
      if !ok { return Refused; }
      GrownRemovals(db, want);
      ok := Shrink(plan);
      r := if ok then Ok(plan) else Refused;
    }

    /** `apply`, then every check. */
    method ApplyChecked(doc: Document) returns (r: Result<Plan>)
      requires Sound(Now())
      modifies `hosts, `units, `placements, `scorers, `refs
      ensures r.Ok? <==> MayCommit(old(Now()), doc, checks)
      ensures r.Ok? ==> exists want :: Says(want, doc) && Comparable(want, old(Now()))
                                       && r.value == PlanOf(want, old(Now())) && Now() == Target(old(Now()), want)
    {
      ghost var db := Now();
      r := Apply(doc);
      if r.Ok? {
        ghost var want :| Says(want, doc) && Comparable(want, db) && r.value == PlanOf(want, db) && Now() == Target(db, want);
        CommitsAsApplied(db, doc, checks, want);
        if !checks(Now()) { r := Refused; }
      }
    }

    /** `apply` inside a transaction, or inside a trial that is always rolled back. */
    method Put(doc: Document, commit: bool) returns (r: Result<Plan>)
      requires Sound(Now()) && undo.None?
      modifies this
      ensures undo == None
      ensures r.Ok? <==> MayCommit(old(Now()), doc, checks)
      ensures r.Refused? || !commit ==> Now() == old(Now())
      ensures r.Ok? ==> exists want :: Says(want, doc) && Comparable(want, old(Now()))
                                       && r.value == PlanOf(want, old(Now())) && (commit ==> Now() == Target(old(Now()), want))
    {
      undo := Some(Now());
      r := ApplyChecked(doc);
      if r.Refused? || !commit {
        hosts, units, placements, scorers, refs := undo.value.hosts, undo.value.units, undo.value.placements, undo.value.scorers, undo.value.refs;
      }
      undo := None;
    }
  }

  /** The rows the document asks for are whole. */
  ghost predicate Whole(want: Wanted) {
    && (want.hosts.Some? ==> forall h | h in want.hosts.value :: HasColumns(want.hosts.value[h], HostTable))
    && (forall u | u in want.identities :: HasColumns(want.identities[u], UnitTable))
    && (want.placements.Some? ==> forall p | p in want.placements.value :: HasColumns(want.placements.value[p], PlacementTable))
    && (want.scorers.Some? ==> forall h | h in want.scorers.value :: HasColumns(want.scorers.value[h], ScorerTable))
  }

  lemma RowsWhole<K(!new)>(rows: map<K, Row>, entries: seq<Entry<K>>, t: Table)
    requires RowsOf(rows, entries, t)
    ensures forall k | k in rows :: HasColumns(rows[k], t)
  {
    forall k | k in rows ensures HasColumns(rows[k], t) {
      var i :| 0 <= i < |entries| && entries[i].key == k;
    }
  }

  lemma SaysWhole(want: Wanted, doc: Document)
    requires Says(want, doc)
    ensures Whole(want)
  {
    if want.hosts.Some? { RowsWhole(want.hosts.value, doc.hosts.value, HostTable); }
    if want.scorers.Some? { RowsWhole(want.scorers.value, doc.scorers.value, ScorerTable); }
    if want.placements.Some? {
      RowsWhole(want.placements.value, doc.units.value, PlacementTable);
      forall u | u in want.identities ensures HasColumns(want.identities[u], UnitTable) {
        var i :| 0 <= i < |doc.units.value| && doc.units.value[i].key.0 == u;
      }
    }
  }

  /** Rows of one table that agree in every column are one. */
  lemma SameRow(have: Row, want: Row)
    requires have.Keys == want.Keys && Changed(have, want) == {}
    ensures have == want
  {
    forall c | c in want ensures have[c] == want[c] { assert c !in Changed(have, want); }
  }

  /** What the updates find after the creations: the rows as they were, and what is not updated is as wanted. */
  lemma RowsCompared<K>(rows: map<K, Row>, want: map<K, Row>)
    requires forall k | k in rows && k in want :: rows[k].Keys == want[k].Keys
    ensures var g, created := GroupOf(want, rows), Overlay(rows, want, want.Keys - rows.Keys);
            && (forall k | k in g.updated :: k in want && k in created && created[k] == rows[k] && g.updated[k] == Changed(rows[k], want[k]) != {})
            && (forall k | k in want && k in rows && k !in g.updated.Keys :: rows[k] == want[k])
  {
    forall k | k in want && k in rows && k !in GroupOf(want, rows).updated.Keys ensures rows[k] == want[k] { SameRow(rows[k], want[k]); }
  }

  lemma HostsCompared(db: Db, want: map<Id, Row>)
    requires forall h | h in db.hosts :: HasColumns(db.hosts[h].cols, HostTable)
    requires forall h | h in want :: HasColumns(want[h], HostTable)
    ensures var g := GroupOf(want, HostCols(db));
            && g.created == want.Keys - db.hosts.Keys
            && (forall h | h in g.updated :: h in want && h in db.hosts && g.updated[h] == Changed(db.hosts[h].cols, want[h]))
            && (forall h | h in want && h in db.hosts && h !in g.updated.Keys :: db.hosts[h].cols == want[h])
  {
    assert HostCols(db).Keys == db.hosts.Keys;
    RowsCompared(HostCols(db), want);
    forall h | h in want && h in db.hosts && h !in GroupOf(want, HostCols(db)).updated.Keys ensures db.hosts[h].cols == want[h] {
      assert HostCols(db)[h] == want[h];
    }
  }

  lemma OldRowsStand<K, V>(base: map<K, V>, add: map<K, V>, created: set<K>)
    requires created !! base.Keys
    ensures forall k | k in base :: k in Overlay(base, add, created) && Overlay(base, add, created)[k] == base[k]
  {
  }

  lemma PlacementsCompared(db: Db, want: Wanted)
    requires want.placements.Some? && Comparable(want, db) && Whole(want)
    requires forall p | p in db.placements :: HasColumns(db.placements[p], PlacementTable)
    ensures var g, rows := UnitsGroup(want, db), want.placements.value;
            && (forall k | k in g.updated ::
                  && k in rows && k in db.placements && k.0 in db.units && k.0 in want.identities
                  && g.updated[k] != {} && Changed(db.placements[k], rows[k]) <= g.updated[k])
            && (forall k | k in rows && k in db.placements && k !in g.updated.Keys :: db.placements[k] == rows[k])
  {
    var g, rows := UnitsGroup(want, db), want.placements.value;
    forall k | k in rows && k in db.placements && k !in g.updated.Keys ensures db.placements[k] == rows[k] {
      assert PlacementChanged(want, db, k) == {};
      assert Changed(db.placements[k], rows[k]) <= PlacementChanged(want, db, k);
      SameRow(db.placements[k], rows[k]);
    }
  }

  /** Created, then updated: the wanted rows over the old ones. */
  lemma RowsApplied<K>(rows: map<K, Row>, want: map<K, Row>, updated: set<K>)
    requires updated <= want.Keys && forall k | k in want && k in rows && k !in updated :: rows[k] == want[k]
    ensures Overlay(Overlay(rows, want, want.Keys - rows.Keys), want, updated) == rows + want
  {
  }

  lemma HostsApplied(hosts: map<Id, HostRow>, want: map<Id, Row>, updated: set<Id>)
    requires updated <= want.Keys && updated <= hosts.Keys
    requires forall h | h in want && h in hosts && h !in updated :: hosts[h].cols == want[h]
    ensures var created := Overlay(hosts, NewHosts(want, want.Keys - hosts.Keys), want.Keys - hosts.Keys);
            Overlay(created, KeptHosts(created, want, updated), updated) == HostsWith(hosts, want)
  {
  }

  /** What a host's own reports take with them blocks nothing. */
  lemma ReportsCascade(refs: set<Ref>, gone: set<Id>, host: Id)
    ensures WithoutReports(WithoutReports(refs, gone), {host}) == WithoutReports(refs, gone + {host})
    ensures HostNamed(WithoutReports(refs, gone + {host}), host) <==> HostNamed(refs, host)
  {
    if r :| r in refs && !r.report && r.host == Some(host) { assert r in WithoutReports(refs, gone + {host}); }
  }

  /** The changed columns of each row, unless a frozen one is among them. */
  method UpdateRows<K(==)>(rows: map<K, Row>, want: map<K, Row>, updated: map<K, set<Column>>, frozen: (K, set<Column>) -> bool)
    returns (ok: bool, after: map<K, Row>)
    requires updated.Keys <= want.Keys && updated.Keys <= rows.Keys
    requires forall k | k in updated :: rows[k].Keys == want[k].Keys && Changed(rows[k], want[k]) <= updated[k]
    ensures ok <==> forall k | k in updated :: !frozen(k, updated[k])
    ensures ok ==> after == Overlay(rows, want, updated.Keys)
  {
    var seen: set<K> := {};
    after := rows;
    OverlayNone(rows, want);
    while seen != updated.Keys
      invariant seen <= updated.Keys && forall k | k in seen :: !frozen(k, updated[k])
      invariant after == Overlay(rows, want, seen)
      decreases |updated.Keys - seen|
    {
      var key :| key in updated.Keys && key !in seen;
      if frozen(key, updated[key]) { return false, after; }
      OneMore(updated.Keys, seen, key);
      OverlayNext(rows, want, seen, key);
      PatchedIsWanted(after[key], want[key], updated[key]);
      after := after[key := Patched(after[key], want[key], updated[key])];
      seen := seen + {key};
    }
    ok := true;
  }

  /** The document is well formed and nothing it asks for is frozen, blocked or missing. */
  ghost predicate MayApply(db: Db, doc: Document) {
    WellFormed(doc) && exists want :: Says(want, doc) && Comparable(want, db) && Permitted(db, want)
  }

  /** And the rows it ends in pass every check. */
  ghost predicate MayCommit(db: Db, doc: Document, checks: Db -> bool) {
    WellFormed(doc) && exists want :: Says(want, doc) && Comparable(want, db) && Permitted(db, want) && checks(Target(db, want))
  }

  lemma CommitsAsApplied(db: Db, doc: Document, checks: Db -> bool, want: Wanted)
    requires Says(want, doc) && Comparable(want, db)
    ensures MayCommit(db, doc, checks) <==> MayApply(db, doc) && checks(Target(db, want))
  {
    OneReading(doc, db, want);
  }

  /** A document is read in one way. */
  lemma OneReading(doc: Document, db: Db, want: Wanted)
    requires Says(want, doc) && Comparable(want, db)
    ensures forall other :: Says(other, doc) ==> other == want
  {
    forall other | Says(other, doc) ensures other == want { SaysAlike(doc, want, other); }
  }

  lemma RowsAlike<K(!new)>(a: map<K, Row>, b: map<K, Row>, entries: seq<Entry<K>>, t: Table)
    requires RowsOf(a, entries, t) && RowsOf(b, entries, t)
    ensures a == b
  {
    forall k | k in a ensures k in b && a[k] == b[k] { var i :| 0 <= i < |entries| && entries[i].key == k; }
    forall k | k in b ensures k in a {}
  }

  lemma SaysAlike(doc: Document, a: Wanted, b: Wanted)
    requires Says(a, doc) && Says(b, doc)
    ensures a == b
  {
    if doc.hosts.Some? { RowsAlike(a.hosts.value, b.hosts.value, doc.hosts.value, HostTable); }
    if doc.scorers.Some? { RowsAlike(a.scorers.value, b.scorers.value, doc.scorers.value, ScorerTable); }
    if doc.units.Some? {
      RowsAlike(a.placements.value, b.placements.value, doc.units.value, PlacementTable);
      forall u | u in a.identities ensures u in b.identities && a.identities[u] == b.identities[u] {
        var i :| 0 <= i < |doc.units.value| && doc.units.value[i].key.0 == u;
      }
      forall u | u in b.identities ensures u in a.identities {}
      assert a.identities == b.identities;
    }
  }

  /** What the document says of placements is read off the units and the placements alone. */
  lemma SameUnits(want: Wanted, a: Db, b: Db)
    requires Comparable(want, a) && a.units == b.units && a.placements == b.placements && a.refs == b.refs
    ensures Comparable(want, b)
    ensures want.placements.Some? ==> UnitsGroup(want, b) == UnitsGroup(want, a)
    ensures forall hosts :: UnitsGrowable(b, want, hosts) <==> UnitsGrowable(a, want, hosts)
  {
    if want.placements.Some? {
      var p := want.placements.value;
      forall k | k in p && k in a.placements ensures PlacementChanged(want, b, k) == PlacementChanged(want, a, k) {}
      assert UnitsGroup(want, b).updated == UnitsGroup(want, a).updated;
    }
  }

  /** What the placements and the scorers are grown on. */
  ghost predicate Groundwork(want: Wanted, db: Db, plan: Plan) {
    && Comparable(want, db) && Whole(want) && OneIdEach(db.units)
    && (want.placements.Some? ==> plan.units == UnitsGroup(want, db))
    && (want.scorers.Some? ==> plan.scorers == GroupOf(want.scorers.value, db.scorers))
    && (forall p | p in db.placements :: HasColumns(db.placements[p], PlacementTable))
    && (forall h | h in db.scorers :: HasColumns(db.scorers[h], ScorerTable))
  }

  /** All rows but the hosts'. */
  function RowsGrown(db: Db, want: Wanted): Db
    requires Comparable(want, db)
  {
    db.(units := UnitsWith(db.units, want.identities, Created(db.placements, want.placements)),
        placements := PlacementsWith(db, want), scorers := ScorersGrown(db, want))
  }

  lemma HostsAreIn(want: Wanted, db: Db, now: Db)
    requires Sound(db) && Comparable(want, db) && Whole(want) && now == db.(hosts := HostsGrown(db, want))
    ensures Groundwork(want, now, PlanOf(want, db)) && RowsGrown(now, want) == Grown(db, want)
    ensures UnitsGrowable(now, want, now.hosts.Keys) <==> UnitsGrowable(db, want, now.hosts.Keys)
    ensures ScorersGrowable(now, want, now.hosts.Keys) <==> ScorersGrowable(db, want, now.hosts.Keys)
  {
    SameUnits(want, db, now);
  }

  lemma NoNewUnits(units: map<Id, Row>, identities: map<Id, Row>)
    ensures UnitsWith(units, identities, {}) == units
  {
    assert NewUnits(units, {}) == {};
  }

  lemma GrownRemovals(db: Db, want: Wanted)
    requires Comparable(want, db)
    ensures PlanOf(want, db).hosts.removed == Removed(db.hosts, want.hosts)
    ensures PlanOf(want, db).units.removed == Removed(db.placements, want.placements) <= Grown(db, want).placements.Keys
    ensures PlanOf(want, db).scorers.removed == Removed(db.scorers, want.scorers)
  {
    assert HostCols(db).Keys == db.hosts.Keys;
  }

  /** None of the hosts reached so far is measured and to change in a locked column. */
  ghost predicate FreeUpto(refs: set<Ref>, updated: map<Id, set<Column>>, seen: set<Id>) {
    forall h | h in seen && h in updated :: Locked(HostTable, updated[h]) ==> !HostMeasured(refs, h)
  }

  lemma FreeNext(refs: set<Ref>, updated: map<Id, set<Column>>, seen: set<Id>, name: Id)
    requires FreeUpto(refs, updated, seen) && name in updated && !(Locked(HostTable, updated[name]) && HostMeasured(refs, name))
    ensures FreeUpto(refs, updated, seen + {name})
  {
  }

  /** The placements created so far, and their units. */
  ghost predicate CreatedUpto(hosts: set<Id>, units0: map<Id, Row>, placements0: map<(Id, Id), Row>, identities: map<Id, Row>,
                              want: map<(Id, Id), Row>, seen: set<(Id, Id)>, units: map<Id, Row>, placements: map<(Id, Id), Row>)
  {
    && (forall k | k in seen :: k.0 in identities) && Creatable(hosts, units0, identities, seen)
    && units == UnitsWith(units0, identities, seen) && placements == Overlay(placements0, want, seen)
  }

  lemma NothingCreated(hosts: set<Id>, units: map<Id, Row>, placements: map<(Id, Id), Row>, identities: map<Id, Row>, want: map<(Id, Id), Row>)
    requires OneIdEach(units)
    ensures CreatedUpto(hosts, units, placements, identities, want, {}, units, placements)
  {
    OverlayNone(placements, want);
    assert UnitsWith(units, identities, {}) == units;
  }

  /** The placements removed so far, and the units that went with them. */
  ghost predicate RemovedUpto(db: Db, seen: set<(Id, Id)>, units: map<Id, Row>, placements: map<(Id, Id), Row>) {
    && Removable(db.refs, db.placements, seen)
    && placements == db.placements - seen && units == db.units - Unplaced(db.placements, seen)
  }

  lemma NothingRemoved(db: Db)
    ensures RemovedUpto(db, {}, db.units, db.placements)
  {
    assert Unplaced(db.placements, {}) == {} && db.placements - {} == db.placements && db.units - {} == db.units;
  }

  lemma UnplacedNext(placements: map<(Id, Id), Row>, seen: set<(Id, Id)>, key: (Id, Id))
    requires key in placements && key !in seen
    ensures Unplaced(placements, seen + {key}) == Unplaced(placements, seen) + if Placed(placements - seen - {key}, key.0) then {} else {key.0}
  {
    var left := placements - (seen + {key});
    assert left == placements - seen - {key};
    assert key in placements - seen && Placed(placements - seen, key.0);
    forall u | u != key.0 ensures Placed(left, u) <==> Placed(placements - seen, u) {
      if p :| p in placements - seen && p.0 == u { assert p in left; }
    }
    var a, b := Unplaced(placements, seen + {key}), Unplaced(placements, seen);
    forall u | u in b ensures u in a {
      var k :| k in seen && !Placed(placements - seen, k.0) && k.0 == u;
      assert k in seen + {key};
    }
    if !Placed(left, key.0) { assert key in seen + {key}; }
  }

  lemma UnplacedGrows(placements: map<(Id, Id), Row>, removed: set<(Id, Id)>, seen: set<(Id, Id)>)
    requires seen <= removed
    ensures Unplaced(placements, seen) <= Unplaced(placements, removed)
  {
    forall k | k in seen && !Placed(placements - seen, k.0) ensures k.0 in Unplaced(placements, removed) {
      assert k in removed;
    }
  }

  lemma RemovedNext(db: Db, removed: set<(Id, Id)>, seen: set<(Id, Id)>, key: (Id, Id), units: map<Id, Row>, placements: map<(Id, Id), Row>)
    requires key in removed && key !in seen && seen <= removed <= db.placements.Keys
    requires RemovedUpto(db, seen, units, placements)
    ensures var last := !Placed(placements - {key}, key.0);
            if PlacementNamed(db.refs, key) || (last && UnitNamed(db.refs, key.0)) then !Removable(db.refs, db.placements, removed)
            else RemovedUpto(db, seen + {key}, if last then units - {key.0} else units, placements - {key})
  {
    UnplacedNext(db.placements, seen, key);
    UnplacedGrows(db.placements, removed, seen + {key});
    assert placements - {key} == db.placements - (seen + {key});
    assert units - {key.0} == db.units - (Unplaced(db.placements, seen) + {key.0});
  }

  lemma CreatedNext(hosts: set<Id>, units0: map<Id, Row>, placements0: map<(Id, Id), Row>, identities: map<Id, Row>, want: map<(Id, Id), Row>,
                    created: set<(Id, Id)>, seen: set<(Id, Id)>, key: (Id, Id), units: map<Id, Row>, placements: map<(Id, Id), Row>)
    requires key in created && key !in seen && seen <= created <= want.Keys && forall k | k in created :: k.0 in identities
    requires CreatedUpto(hosts, units0, placements0, identities, want, seen, units, placements)
    ensures var ident := identities[key.0];
            if key.1 in hosts && (if key.0 in units then units[key.0] == ident else ident !in units.Values)
            then CreatedUpto(hosts, units0, placements0, identities, want, seen + {key}, if key.0 in units then units else units[key.0 := ident], placements[key := want[key]])
            else !Creatable(hosts, units0, identities, created)
  {
    UnitNext(units0, identities, seen, key);
    CreatableNext(hosts, units0, identities, created, seen, key);
    OverlayNext(placements0, want, seen, key);
  }

  // ---- loops over a set of keys

  /** The rows of `add` reached so far, laid over `base`. */
  function Overlay<K, V>(base: map<K, V>, add: map<K, V>, seen: set<K>): map<K, V> { base + map k | k in add && k in seen :: add[k] }

  lemma OverlayNone<K, V>(base: map<K, V>, add: map<K, V>)
    ensures Overlay(base, add, {}) == base
  {
  }

  lemma OverlayNext<K, V>(base: map<K, V>, add: map<K, V>, seen: set<K>, key: K)
    requires key in add && key !in seen
    ensures Overlay(base, add, seen + {key}) == Overlay(base, add, seen)[key := add[key]]
    ensures key in base ==> key in Overlay(base, add, seen) && Overlay(base, add, seen)[key] == base[key]
  {
  }

  function NewHosts(want: map<Id, Row>, created: set<Id>): map<Id, HostRow> {
    map h | h in want && h in created :: HostRow(want[h], None)
  }

  /** The wanted columns beside the `blocked` each host has. */
  function KeptHosts(hosts: map<Id, HostRow>, want: map<Id, Row>, updated: set<Id>): map<Id, HostRow> {
    map h | h in want && h in hosts && h in updated :: HostRow(want[h], hosts[h].blocked)
  }

  lemma OneMore<K>(all: set<K>, seen: set<K>, key: K)
    requires key in all && key !in seen && seen <= all
    ensures seen + {key} <= all && |all - (seen + {key})| < |all - seen|
  {
    assert all - seen == (all - (seen + {key})) + {key};
  }

  lemma UnitNext(units: map<Id, Row>, identities: map<Id, Row>, seen: set<(Id, Id)>, key: (Id, Id))
    requires key !in seen && key.0 in identities && forall k | k in seen :: k.0 in identities
    ensures var now := UnitsWith(units, identities, seen);
            && UnitsWith(units, identities, seen + {key}) == (if key.0 in now then now else now[key.0 := identities[key.0]])
            && (key.0 in now && key.0 !in units ==> now[key.0] == identities[key.0])
            && (key.0 in units ==> key.0 in now && now[key.0] == units[key.0])
            && forall u | u in now :: u in units || u in NewUnits(units, seen)
  {
    var now, next := UnitsWith(units, identities, seen), UnitsWith(units, identities, seen + {key});
    assert NewUnits(units, seen + {key}) == NewUnits(units, seen) + if key.0 in units then {} else {key.0};
    forall u ensures u in next <==> u in now || u == key.0 {}
  }

  lemma UnitsGrow(units: map<Id, Row>, identities: map<Id, Row>, created: set<(Id, Id)>, seen: set<(Id, Id)>)
    requires seen <= created && forall k | k in created :: k.0 in identities
    ensures forall u | u in UnitsWith(units, identities, seen) ::
              u in UnitsWith(units, identities, created) && UnitsWith(units, identities, created)[u] == UnitsWith(units, identities, seen)[u]
  {
    assert NewUnits(units, seen) <= NewUnits(units, created);
  }

  lemma UnitsStand(units: map<Id, Row>, identities: map<Id, Row>, created: set<(Id, Id)>)
    requires forall k | k in created :: k.0 in identities
    ensures forall u | u in units :: u in UnitsWith(units, identities, created) && UnitsWith(units, identities, created)[u] == units[u]
  {
  }

  lemma OneIdMore(units: map<Id, Row>, unit: Id, ident: Row)
    requires OneIdEach(units) && unit !in units
    ensures OneIdEach(units[unit := ident]) <==> ident !in units.Values
  {
    var next := units[unit := ident];
    if ident in units.Values {
      var v :| v in units && units[v] == ident;
      assert next[v] == next[unit];
    } else {
      forall v | v in units ensures units[v] != ident { assert units[v] in units.Values; }
    }
  }

  /** One more created placement is fine exactly when its host is there and its unit agrees or is new. */
  lemma CreatableNext(hosts: set<Id>, units: map<Id, Row>, identities: map<Id, Row>, created: set<(Id, Id)>, seen: set<(Id, Id)>, key: (Id, Id))
    requires key in created && key !in seen && seen <= created
    requires forall k | k in created :: k.0 in identities
    requires Creatable(hosts, units, identities, seen)
    ensures var now := UnitsWith(units, identities, seen);
            var fits := if key.0 in now then now[key.0] == identities[key.0] else identities[key.0] !in now.Values;
            if key.1 in hosts && fits then Creatable(hosts, units, identities, seen + {key}) else !Creatable(hosts, units, identities, created)
  {
    var now := UnitsWith(units, identities, seen);
    UnitNext(units, identities, seen, key);
    if key.0 !in now {
      OneIdMore(now, key.0, identities[key.0]);
      UnitsGrow(units, identities, created, seen + {key});
    }
  }
}
