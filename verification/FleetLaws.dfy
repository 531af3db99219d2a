/** What an applied document means: it converges, it leaves alone what it does not manage, what a measurement
    rests on does not move, and nothing dangles. */
module FleetLaws {
  import opened Names
  import opened Wrappers
  import opened Fleet
  import opened Reconcile
  import opened Catalogue

  // ---- rows that agree

  lemma NoChange(a: Row, b: Row)
    requires a == b
    ensures Changed(a, b) == {}
  {
  }

  lemma GroupOfSame<K>(want: map<K, Row>, have: map<K, Row>)
    requires have == want
    ensures GroupOf(want, have) == Empty() && Agreeing(want, have) == want.Keys
  {
    forall k | k in want ensures Changed(have[k], want[k]) == {} { NoChange(have[k], want[k]); }
    assert Differing(want, have) == map[];
  }

  lemma NotDiffering<K>(want: map<K, Row>, have: map<K, Row>, k: K)
    requires k in want && k in have && k !in Differing(want, have) && want[k].Keys == have[k].Keys
    ensures have[k] == want[k]
  {
    SameRow(have[k], want[k]);
  }

  // ---- what the target holds

  lemma TargetHosts(db: Db, want: Wanted)
    requires Comparable(want, db) && want.hosts.Some?
    ensures var t := Target(db, want);
            && t.hosts.Keys == want.hosts.value.Keys && HostCols(t) == want.hosts.value
            && forall h | h in t.hosts :: t.hosts[h].blocked == if h in db.hosts then db.hosts[h].blocked else None
  {
  }

  lemma TargetScorers(db: Db, want: Wanted)
    requires Comparable(want, db) && want.scorers.Some?
    ensures Target(db, want).scorers == want.scorers.value
  {
  }

  lemma TargetPlacements(db: Db, want: Wanted)
    requires Comparable(want, db) && want.placements.Some?
    ensures Target(db, want).placements == want.placements.value
  {
  }

  /** A wanted placement that is there already is of the unit the document says. */
  lemma IdentityAgrees(db: Db, want: Wanted, p: (Id, Id))
    requires Sound(db) && Comparable(want, db) && Whole(want) && UnitsGrowable(db, want, HostsGrown(db, want).Keys)
    requires want.placements.Some? && p in want.placements.value && p in db.placements
    ensures db.units[p.0] == want.identities[p.0]
  {
    if p !in UnitsGroup(want, db).updated {
      assert Changed(db.units[p.0], want.identities[p.0]) <= PlacementChanged(want, db, p) == {};
      SameRow(db.units[p.0], want.identities[p.0]);
    }
  }

  /** The units as they are once grown: the document's are as it says, every other as it was. */
  lemma GrownUnit(db: Db, want: Wanted, p: (Id, Id))
    requires Sound(db) && Comparable(want, db) && Whole(want) && UnitsGrowable(db, want, HostsGrown(db, want).Keys)
    requires want.placements.Some? && p in want.placements.value
    ensures var units := Grown(db, want).units; p.0 in units && units[p.0] == want.identities[p.0]
  {
    var created := Created(db.placements, want.placements);
    UnitsStand(db.units, want.identities, created);
    if p in created {
      NewUnitIs(db.units, want.identities, created, p);
    } else {
      IdentityAgrees(db, want, p);
    }
  }

  lemma NewUnitIs(units: map<Id, Row>, identities: map<Id, Row>, created: set<(Id, Id)>, p: (Id, Id))
    requires p in created && forall k | k in created :: k.0 in identities && (k.0 in units ==> units[k.0] == identities[k.0])
    ensures var after := UnitsWith(units, identities, created); p.0 in after && after[p.0] == identities[p.0]
  {
    if p.0 !in units { assert p.0 in NewUnits(units, created); }
  }

  lemma PlacedStays(placements: map<(Id, Id), Row>, removed: set<(Id, Id)>, p: (Id, Id))
    requires p in placements && p !in removed
    ensures p.0 !in Unplaced(placements, removed)
  {
    assert p in placements - removed;
    assert Placed(placements - removed, p.0);
  }

  /** A wanted placement's unit is in the target as the document says it. */
  lemma TargetUnits(db: Db, want: Wanted, p: (Id, Id))
    requires Sound(db) && Comparable(want, db) && Whole(want) && UnitsGrowable(db, want, HostsGrown(db, want).Keys)
    requires want.placements.Some? && p in want.placements.value
    ensures var t := Target(db, want); p.0 in t.units && t.units[p.0] == want.identities[p.0]
  {
    GrownUnit(db, want, p);
    PlacedStays(PlacementsWith(db, want), Removed(db.placements, want.placements), p);
  }

  // ---- convergence

  /** How many entries the document has in the groups it manages. */
  function EntriesIn(doc: Document): nat {
    (if doc.hosts.Some? then |doc.hosts.value| else 0) + (if doc.units.Some? then |doc.units.value| else 0)
    + (if doc.scorers.Some? then |doc.scorers.value| else 0)
  }

  lemma {:induction false} DistinctCount<K>(s: set<K>, keys: seq<K>)
    requires forall i, j | 0 <= i < j < |keys| :: keys[i] != keys[j]
    requires forall k :: k in s <==> k in keys
    ensures |s| == |keys|
    decreases |keys|
  {
    if keys == [] {
      assert s == {};
    } else {
      var init, last := keys[..|keys| - 1], keys[|keys| - 1];
      assert keys == init + [last];
      DistinctCount(s - {last}, init);
      assert s == (s - {last}) + {last};
    }
  }

  lemma OneRowAnEntry<K(!new)>(rows: map<K, Row>, entries: seq<Entry<K>>, t: Table)
    requires RowsOf(rows, entries, t) && Distinct(entries)
    ensures |rows.Keys| == |entries|
  {
    var keys := seq(|entries|, i requires 0 <= i < |entries| => entries[i].key);
    forall k ensures k in rows.Keys <==> k in keys {
      if k in rows {
        var i :| 0 <= i < |entries| && entries[i].key == k;
        assert keys[i] == k;
      }
    }
    DistinctCount(rows.Keys, keys);
  }

  /** Rows as the document has them leave nothing to create, change or remove. */
  lemma PlanDone(want: Wanted, t: Db)
    requires Comparable(want, t)
    requires want.hosts.Some? ==> HostCols(t) == want.hosts.value
    requires want.placements.Some? ==>
               t.placements == want.placements.value && forall p | p in t.placements :: PlacementChanged(want, t, p) == {}
    requires want.scorers.Some? ==> t.scorers == want.scorers.value
    ensures PlanOf(want, t) == Plan(Empty(), Empty(), Empty(), RowsIn(want))
  {
    if want.hosts.Some? { GroupOfSame(want.hosts.value, HostCols(t)); }
    if want.placements.Some? { UnitsDone(want, t); }
    if want.scorers.Some? { GroupOfSame(want.scorers.value, t.scorers); }
  }

  lemma UnitsDone(want: Wanted, t: Db)
    requires Comparable(want, t) && want.placements.Some?
    requires t.placements == want.placements.value && forall p | p in t.placements :: PlacementChanged(want, t, p) == {}
    ensures UnitsGroup(want, t) == Empty() && UnitsAgreeing(want, t) == want.placements.value.Keys
  {
    assert UnitsGroup(want, t).updated == map[];
  }

  function RowsIn(want: Wanted): nat {
    (if want.hosts.Some? then |want.hosts.value.Keys| else 0)
    + (if want.placements.Some? then |want.placements.value.Keys| else 0)
    + (if want.scorers.Some? then |want.scorers.value.Keys| else 0)
  }

  lemma PlacementAgrees(db: Db, want: Wanted, p: (Id, Id))
    requires Sound(db) && Comparable(want, db) && Whole(want) && UnitsGrowable(db, want, HostsGrown(db, want).Keys)
    requires Comparable(want, Target(db, want)) && want.placements.Some? && p in Target(db, want).placements
    requires Target(db, want).placements == want.placements.value
    ensures PlacementChanged(want, Target(db, want), p) == {}
  {
    var t := Target(db, want);
    TargetUnits(db, want, p);
    NoChange(t.placements[p], want.placements.value[p]);
    NoChange(t.units[p.0], want.identities[p.0]);
  }

  /** After the document was applied, comparing it again finds nothing to create, change or remove. */
  lemma NothingLeftToDo(db: Db, want: Wanted)
    requires Sound(db) && Comparable(want, db) && Whole(want) && Permitted(db, want) && Comparable(want, Target(db, want))
    ensures PlanOf(want, Target(db, want)) == Plan(Empty(), Empty(), Empty(), RowsIn(want))
  {
    var t := Target(db, want);
    if want.hosts.Some? { TargetHosts(db, want); }
    if want.placements.Some? {
      TargetPlacements(db, want);
      forall p | p in t.placements ensures PlacementChanged(want, t, p) == {} { PlacementAgrees(db, want, p); }
    }
    if want.scorers.Some? { TargetScorers(db, want); }
    PlanDone(want, t);
  }

  // ---- integrity

  lemma HostStays(db: Db, want: Wanted, host: Id)
    requires Sound(db) && Comparable(want, db) && Permitted(db, want) && host in HostsGrown(db, want)
    requires HostNamed(db.refs, host) || Hosting(Target(db, want).placements, host) || host in Target(db, want).scorers
    ensures host in Target(db, want).hosts
  {
  }

  lemma PlacementSound(db: Db, want: Wanted, p: (Id, Id))
    requires Sound(db) && Comparable(want, db) && Whole(want) && Permitted(db, want) && p in Target(db, want).placements
    ensures HasColumns(Target(db, want).placements[p], PlacementTable)
    ensures p.0 in Target(db, want).units && p.1 in Target(db, want).hosts
  {
    var t, created := Target(db, want), Created(db.placements, want.placements);
    if p in created {
      assert p.1 in HostsGrown(db, want);
      NewUnitIs(db.units, want.identities, created, p);
    } else {
      assert p in db.placements && p.1 in HostsGrown(db, want);
      UnitsStand(db.units, want.identities, created);
    }
    PlacedStays(PlacementsWith(db, want), Removed(db.placements, want.placements), p);
    assert Hosting(t.placements, p.1);
    HostStays(db, want, p.1);
  }

  lemma ScorerSound(db: Db, want: Wanted, s: Id)
    requires Sound(db) && Comparable(want, db) && Whole(want) && Permitted(db, want) && s in Target(db, want).scorers
    ensures HasColumns(Target(db, want).scorers[s], ScorerTable) && s in Target(db, want).hosts
  {
    assert s in HostsGrown(db, want) by {
      if s in db.scorers { assert s in db.hosts; } else { assert s in Created(db.scorers, want.scorers); }
    }
    HostStays(db, want, s);
  }

  lemma RefSound(db: Db, want: Wanted, r: Ref)
    requires Sound(db) && Comparable(want, db) && Permitted(db, want) && r in Target(db, want).refs
    ensures var t := Target(db, want);
            && (r.host.Some? ==> r.host.value in t.hosts)
            && (r.unit.Some? ==> r.unit.value in t.units)
            && (r.placement.Some? ==> r.placement.value in t.placements)
  {
    var grown, gone := Grown(db, want), Removed(db.placements, want.placements);
    assert r in db.refs;
    if r.host.Some? && r.host.value in Removed(db.hosts, want.hosts) { assert HostNamed(grown.refs, r.host.value); }
    if r.unit.Some? {
      UnitsStand(db.units, want.identities, Created(db.placements, want.placements));
      if r.unit.value in Unplaced(grown.placements, gone) { assert UnitNamed(grown.refs, r.unit.value); }
    }
    if r.placement.Some? && r.placement.value in gone { assert PlacementNamed(grown.refs, r.placement.value); }
  }

  lemma GrownUnits(db: Db, want: Wanted)
    requires Sound(db) && Comparable(want, db) && Whole(want) && UnitsGrowable(db, want, HostsGrown(db, want).Keys)
    ensures OneIdEach(Grown(db, want).units) && forall u | u in Grown(db, want).units :: HasColumns(Grown(db, want).units[u], UnitTable)
  {
    if want.placements.None? { NoNewUnits(db.units, want.identities); }
  }

  /** An applied document leaves whole rows and no dangling reference. */
  lemma NothingDangles(db: Db, want: Wanted)
    requires Sound(db) && Comparable(want, db) && Whole(want) && Permitted(db, want)
    ensures Sound(Target(db, want)) && Comparable(want, Target(db, want))
  {
    var t := Target(db, want);
    GrownUnits(db, want);
    forall p | p in t.placements ensures HasColumns(t.placements[p], PlacementTable) && p.0 in t.units && p.1 in t.hosts { PlacementSound(db, want, p); }
    forall s | s in t.scorers ensures HasColumns(t.scorers[s], ScorerTable) && s in t.hosts { ScorerSound(db, want, s); }
    forall r | r in t.refs
      ensures (r.host.Some? ==> r.host.value in t.hosts) && (r.unit.Some? ==> r.unit.value in t.units)
              && (r.placement.Some? ==> r.placement.value in t.placements)
    {
      RefSound(db, want, r);
    }
    forall h | h in t.hosts ensures HasColumns(t.hosts[h].cols, HostTable) {
      if want.hosts.Some? && h in want.hosts.value { assert t.hosts[h].cols == want.hosts.value[h]; }
    }
  }

  // ---- what does not move

  /** A host a measurement names stays, with every column but `notes` and `ssh_host` as it was, and so does its
      `blocked`; every other host that stays keeps its `blocked` too. */
  lemma MeasuredHostsStand(db: Db, want: Wanted, host: Id)
    requires Sound(db) && Comparable(want, db) && Whole(want) && Permitted(db, want) && host in db.hosts
    ensures host in Target(db, want).hosts ==> Target(db, want).hosts[host].blocked == db.hosts[host].blocked
    ensures HostMeasured(db.refs, host) ==>
              && host in Target(db, want).hosts
              && forall c | c in Columns(HostTable) - {Notes, SshHost} :: Target(db, want).hosts[host].cols[c] == db.hosts[host].cols[c]
  {
    if HostMeasured(db.refs, host) {
      assert HostNamed(db.refs, host);
      HostStays(db, want, host);
      if want.hosts.Some? {
        var a, b := db.hosts[host].cols, want.hosts.value[host];
        assert HostCols(db)[host] == a;
        assert Changed(a, b) <= FreeColumns(HostTable) by {
          if Changed(a, b) != {} {
            assert host in Differing(want.hosts.value, HostCols(db)) && !Locked(HostTable, Changed(a, b));
          }
        }
        forall c | c in Columns(HostTable) - {Notes, SshHost} ensures a[c] == b[c] {
          assert c in Changed(a, b) <==> a[c] != b[c];
        }
      }
    }
  }

  /** A unit's identity never changes under its id. */
  lemma IdentitiesStand(db: Db, want: Wanted, unit: Id)
    requires Comparable(want, db) && unit in db.units && unit in Target(db, want).units
    ensures Target(db, want).units[unit] == db.units[unit]
  {
    UnitsStand(db.units, want.identities, Created(db.placements, want.placements));
  }

  /** A placement some run used keeps its device for as long as it stays. */
  lemma UsedPlacementsStand(db: Db, want: Wanted, p: (Id, Id))
    requires Sound(db) && Comparable(want, db) && Whole(want) && Permitted(db, want)
    requires p in db.placements && p in Target(db, want).placements && PlacementRan(db.refs, p)
    ensures Target(db, want).placements[p] == db.placements[p]
  {
    if want.placements.Some? {
      PlacementsCompared(db, want);
      assert p !in UnitsGroup(want, db).updated.Keys;
    }
  }

  lemma UsedScorerUnchanged(db: Db, want: Wanted, host: Id)
    requires Sound(db) && Comparable(want, db) && Whole(want) && Permitted(db, want)
    requires want.scorers.Some? && host in db.scorers && host in want.scorers.value && HostScored(db.refs, host)
    ensures want.scorers.value[host] == db.scorers[host]
  {
    assert host !in Differing(want.scorers.value, db.scorers);
    NotDiffering(want.scorers.value, db.scorers, host);
  }

  /** A scorer whose host scored keeps every field for as long as it stays. */
  lemma UsedScorersStand(db: Db, want: Wanted, host: Id)
    requires Sound(db) && Comparable(want, db) && Whole(want) && Permitted(db, want)
    requires host in db.scorers && host in Target(db, want).scorers && HostScored(db.refs, host)
    ensures Target(db, want).scorers[host] == db.scorers[host]
  {
    if want.scorers.Some? {
      TargetScorers(db, want);
      UsedScorerUnchanged(db, want, host);
    }
  }

  /** A group the document leaves out is untouched, apart from a removed host's own reports. */
  lemma UnmanagedGroupsStand(db: Db, want: Wanted)
    requires Comparable(want, db)
    ensures want.hosts.None? ==> Target(db, want).hosts == db.hosts && Target(db, want).refs == db.refs
    ensures want.placements.None? ==> Target(db, want).placements == db.placements && Target(db, want).units == db.units
    ensures want.scorers.None? ==> Target(db, want).scorers == db.scorers
    ensures Target(db, want).refs <= db.refs && forall r | r in db.refs - Target(db, want).refs :: r.report
  {
    if want.hosts.None? { assert WithoutReports(db.refs, {}) == db.refs; }
    if want.placements.None? {
      NoNewUnits(db.units, want.identities);
      assert Unplaced(db.placements, {}) == {};
    }
  }

  // ---- twice is once

  lemma TwiceIsOnce(db: Db, want: Wanted)
    requires Sound(db) && Comparable(want, db) && Whole(want) && Permitted(db, want) && Comparable(want, Target(db, want))
    requires Sound(Target(db, want))
    ensures Permitted(Target(db, want), want) && Target(Target(db, want), want) == Target(db, want)
  {
    var t := Target(db, want);
    NothingLeftToDo(db, want);
    SettledStays(t, want);
  }

  lemma SameMap<K, V>(a: map<K, V>, b: map<K, V>)
    requires a.Keys - b.Keys == {} && b.Keys - a.Keys == {} && forall k | k in a && k in b :: a[k] == b[k]
    ensures a == b
  {
    forall k | k in a ensures k in b { assert k !in a.Keys - b.Keys; }
    forall k | k in b ensures k in a { assert k !in b.Keys - a.Keys; }
  }

  lemma SettledRows<K>(want: map<K, Row>, have: map<K, Row>)
    requires GroupOf(want, have) == Empty() && forall k | k in want && k in have :: want[k].Keys == have[k].Keys
    ensures want == have
  {
    forall k | k in want && k in have ensures want[k] == have[k] {
      assert k !in Differing(want, have);
      SameRow(have[k], want[k]);
    }
    SameMap(want, have);
  }

  lemma SettledHosts(t: Db, want: Wanted)
    requires Sound(t) && Whole(want) && want.hosts.Some? && GroupOf(want.hosts.value, HostCols(t)) == Empty()
    ensures HostsGrown(t, want) == t.hosts && Removed(t.hosts, want.hosts) == {} && HostsGrowable(t, want)
  {
    SettledRows(want.hosts.value, HostCols(t));
    SameMap(HostsGrown(t, want), t.hosts);
  }

  lemma SettledPlacements(t: Db, want: Wanted)
    requires Sound(t) && Comparable(want, t) && Whole(want) && want.placements.Some? && UnitsGroup(want, t) == Empty()
    ensures want.placements.value == t.placements
  {
    PlacementsCompared(t, want);
    SameMap(want.placements.value, t.placements);
  }

  lemma SettledUnits(t: Db, want: Wanted)
    requires Sound(t) && Comparable(want, t) && want.placements == Some(t.placements) && UnitsGroup(want, t) == Empty()
    ensures UnitsGrowable(t, want, t.hosts.Keys)
  {
    assert Created(t.placements, want.placements) == {};
    NoNewUnits(t.units, want.identities);
  }

  lemma ShrunkByNothing(t: Db)
    ensures Shrunk(t, {}, {}, {}) == t && Shrinkable(t, {}, {}, {})
  {
    assert Unplaced(t.placements, {}) == {} && WithoutReports(t.refs, {}) == t.refs;
  }

  /** Nothing to create, nothing to change, nothing to remove. */
  lemma SettledTarget(t: Db, want: Wanted)
    requires Comparable(want, t)
    requires HostsGrown(t, want) == t.hosts && Removed(t.hosts, want.hosts) == {}
    requires want.placements.Some? ==> want.placements.value == t.placements
    requires want.scorers.Some? ==> want.scorers.value == t.scorers
    ensures Target(t, want) == t
    ensures Shrinkable(Grown(t, want), Removed(t.hosts, want.hosts), Removed(t.placements, want.placements), Removed(t.scorers, want.scorers))
  {
    assert Created(t.placements, want.placements) == {} && Removed(t.placements, want.placements) == {};
    assert Removed(t.scorers, want.scorers) == {};
    NoNewUnits(t.units, want.identities);
    assert PlacementsWith(t, want) == t.placements && ScorersGrown(t, want) == t.scorers;
    ShrunkByNothing(t);
  }

  /** Rows a document has nothing to change in are its own target. */
  lemma SettledStays(t: Db, want: Wanted)
    requires Sound(t) && Comparable(want, t) && Whole(want)
    requires PlanOf(want, t).hosts == Empty() && PlanOf(want, t).units == Empty() && PlanOf(want, t).scorers == Empty()
    ensures Permitted(t, want) && Target(t, want) == t
  {
    if want.hosts.Some? { SettledHosts(t, want); }
    if want.placements.Some? {
      SettledPlacements(t, want);
      SettledUnits(t, want);
    }
    if want.scorers.Some? {
      SettledRows(want.scorers.value, t.scorers);
      assert Created(t.scorers, want.scorers) == {};
    }
    SettledTarget(t, want);
  }

  lemma RowsInDocument(want: Wanted, doc: Document)
    requires Says(want, doc) && WellFormed(doc)
    ensures RowsIn(want) == EntriesIn(doc)
  {
    if want.hosts.Some? { OneRowAnEntry(want.hosts.value, doc.hosts.value, HostTable); }
    if want.placements.Some? { OneRowAnEntry(want.placements.value, doc.units.value, PlacementTable); }
    if want.scorers.Some? { OneRowAnEntry(want.scorers.value, doc.scorers.value, ScorerTable); }
  }

  /** Once `apply` succeeds, `diff` of the new store against the same document finds no creation, update or
      removal and as many agreeing rows as the document has entries; applying it again is permitted and changes
      nothing. */
  lemma Converges(db: Db, doc: Document, want: Wanted)
    requires Sound(db) && WellFormed(doc) && Says(want, doc) && Comparable(want, db) && Permitted(db, want)
    ensures var t := Target(db, want);
            && Sound(t) && Comparable(want, t)
            && PlanOf(want, t) == Plan(Empty(), Empty(), Empty(), EntriesIn(doc))
            && MayApply(t, doc) && Permitted(t, want) && Target(t, want) == t
  {
    SaysWhole(want, doc);
    NothingDangles(db, want);
    NothingLeftToDo(db, want);
    RowsInDocument(want, doc);
    TwiceIsOnce(db, want);
  }

  // ---- how a placement is named

  function PlacementName(unit: string, host: string): string { unit + "@" + host }

  /** A name tells two placements apart as long as no host's name holds an `@`: the pairs above stand for it. */
  lemma NamesTellApart(u: string, h: string, v: string, g: string)
    requires '@' !in h && '@' !in g
    ensures PlacementName(u, h) == PlacementName(v, g) <==> u == v && h == g
  {
    var a, b := PlacementName(u, h), PlacementName(v, g);
    assert a[|u|] == '@' && b[|v|] == '@';
    forall i | |u| < i < |a| ensures a[i] != '@' { assert a[i] == h[i - |u| - 1]; }
    forall i | |v| < i < |b| ensures b[i] != '@' { assert b[i] == g[i - |v| - 1]; }
    if a == b {
      assert a[..|u|] == u && b[..|v|] == v;
      assert a[|u| + 1..] == h && b[|v| + 1..] == g;
    }
  }

  /** A placement shares its name with another exactly when its unit's or its host's name holds an `@`. */
  lemma NamesCollide(u: string, h: string)
    ensures (exists p: (string, string) :: p != (u, h) && PlacementName(p.0, p.1) == PlacementName(u, h)) <==> '@' in u || '@' in h
  {
    if '@' in h {
      var i :| 0 <= i < |h| && h[i] == '@';
      var p := (u + "@" + h[..i], h[i + 1..]);
      assert h == h[..i] + "@" + h[i + 1..];
      assert PlacementName(p.0, p.1) == PlacementName(u, h) && |p.1| < |h|;
    } else if '@' in u {
      var i :| 0 <= i < |u| && u[i] == '@';
      var p := (u[..i], u[i + 1..] + "@" + h);
      assert u == u[..i] + "@" + u[i + 1..];
      assert PlacementName(p.0, p.1) == PlacementName(u, h) && |p.0| < |u|;
    } else {
      forall p: (string, string) | PlacementName(p.0, p.1) == PlacementName(u, h) ensures p == (u, h) { OneSplit(u, h, p.0, p.1); }
    }
  }

  lemma OneSplit(u: string, h: string, v: string, g: string)
    requires '@' !in u && '@' !in h && PlacementName(v, g) == PlacementName(u, h)
    ensures v == u && g == h
  {
    var name := PlacementName(u, h);
    assert PlacementName(v, g)[|v|] == '@';
    forall i | 0 <= i < |name| && i != |u| ensures name[i] != '@' {
      if i < |u| { assert name[i] == u[i]; } else { assert name[i] == h[i - |u| - 1]; }
    }
    assert name[..|v|] == v && name[|v| + 1..] == g && name[..|u|] == u && name[|u| + 1..] == h;
  }

  // ---- what removing by name leaves

  function NameOf(p: (string, string)): string { PlacementName(p.0, p.1) }

  /** The stored rows by name: of rows that share one, the last. */
  function ByName(rows: seq<(string, string)>): (m: map<string, (string, string)>)
    ensures forall n :: n in m <==> exists p :: p in rows && NameOf(p) == n
    ensures forall n | n in m :: m[n] in rows && NameOf(m[n]) == n
  {
    if rows == [] then map[]
    else
      var p := rows[|rows| - 1];
      assert rows == rows[..|rows| - 1] + [p];
      ByName(rows[..|rows| - 1])[NameOf(p) := p]
  }

  /** Each row that is to go is looked up by its name, and what is found there goes. */
  method RemoveByName(rows: seq<(string, string)>, gone: seq<(string, string)>) returns (left: set<(string, string)>)
    requires forall p | p in gone :: p in rows
    ensures left == (set p | p in rows) - (set p | p in gone :: ByName(rows)[NameOf(p)])
  {
    left := set p | p in rows;
    var have := ByName(rows);
    var i := 0;
    while i < |gone|
      invariant 0 <= i <= |gone|
      invariant left == (set p | p in rows) - (set p | p in gone[..i] :: ByName(rows)[NameOf(p)])
    {
      assert gone[..i + 1] == gone[..i] + [gone[i]];
      left := left - {have[NameOf(gone[i])]};
      i := i + 1;
    }
    assert gone[..i] == gone;
  }

  /** What goes is what was meant to go exactly when no row after one of those shares its name. Otherwise the row
      that was to go is still there, and the one that shares its name is gone, wanted or not. */
  lemma RemovedAsMeant(rows: seq<(string, string)>, gone: seq<(string, string)>)
    requires forall p | p in gone :: p in rows
    ensures var left := (set p | p in rows) - (set p | p in gone :: ByName(rows)[NameOf(p)]);
            && (left == (set p | p in rows) - (set p | p in gone) <==> forall p | p in gone :: ByName(rows)[NameOf(p)] == p)
            && forall p | p in gone && ByName(rows)[NameOf(p)] != p :: p in left && ByName(rows)[NameOf(p)] !in left
  {
    var all, went := set p | p in rows, set p | p in gone :: ByName(rows)[NameOf(p)];
    forall p | p in gone && ByName(rows)[NameOf(p)] != p ensures p in all - went && ByName(rows)[NameOf(p)] !in all - went {
      forall q | q in gone ensures ByName(rows)[NameOf(q)] != p {
        assert NameOf(ByName(rows)[NameOf(q)]) == NameOf(q);
      }
      assert ByName(rows)[NameOf(p)] in went;
    }
    if forall p | p in gone :: ByName(rows)[NameOf(p)] == p {
      assert went == set p | p in gone;
    } else {
      var p :| p in gone && ByName(rows)[NameOf(p)] != p;
      assert p in all - went && p !in all - set q | q in gone;
    }
  }
}
