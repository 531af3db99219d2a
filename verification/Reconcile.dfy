/** `diff` and `apply` (sweep/hub/fleet.py): what the document would change, and making the store match it, row
    by row, inside one transaction. `Target` and `Permitted` say in one step each what the rows end up as, and
    when nothing refuses. */
module Reconcile {
  import opened Names
  import opened Wrappers
  import opened Fleet

  // ---- diff

  datatype Group<K> = Group(created: set<K>, updated: map<K, set<Column>>, removed: set<K>)

  /** What `apply` would do; the order of the names in the answer is left out. */
  datatype Plan = Plan(hosts: Group<Id>, units: Group<(Id, Id)>, scorers: Group<Id>, agree: nat)

  /** The columns in which a row differs from the wanted one. */
  function Changed(have: Row, want: Row): set<Column> { set c | c in want && (c !in have || have[c] != want[c]) }

  function Differing<K>(want: map<K, Row>, have: map<K, Row>): map<K, set<Column>> {
    map k | k in want && k in have && Changed(have[k], want[k]) != {} :: Changed(have[k], want[k])
  }

  function Agreeing<K>(want: map<K, Row>, have: map<K, Row>): set<K> {
    set k | k in want && k in have && Changed(have[k], want[k]) == {}
  }

  function GroupOf<K>(want: map<K, Row>, have: map<K, Row>): Group<K> {
    Group(want.Keys - have.Keys, Differing(want, have), have.Keys - want.Keys)
  }

  /** What of `updates` the loop has reached. */
  function Upto<K>(updates: map<K, set<Column>>, seen: set<K>): map<K, set<Column>> { map k | k in updates && k in seen :: updates[k] }

  lemma UptoNext<K>(updates: map<K, set<Column>>, seen: set<K>, key: K)
    requires key !in seen
    ensures Upto(updates, seen + {key}) == if key in updates then Upto(updates, seen)[key := updates[key]] else Upto(updates, seen)
  {
  }

  lemma UptoAll<K>(updates: map<K, set<Column>>, seen: set<K>)
    requires updates.Keys <= seen
    ensures Upto(updates, seen) == updates
  {
  }

  lemma SeenNext<K>(all: set<K>, have: set<K>, same: set<K>, seen: set<K>, key: K)
    requires key in all && key !in seen && seen <= all
    ensures seen + {key} <= all && |all - (seen + {key})| < |all - seen|
    ensures |same * (seen + {key})| == |same * seen| + if key in same then 1 else 0
    ensures (seen + {key}) - have == if key in have then seen - have else (seen - have) + {key}
  {
    assert all - seen == (all - (seen + {key})) + {key};
    assert same * (seen + {key}) == if key in same then (same * seen) + {key} else same * seen;
  }

  lemma WholeSeen<K>(same: set<K>, seen: set<K>)
    requires same <= seen
    ensures same * seen == same
  {
  }

  method Missing<K(==)>(have: set<K>, want: set<K>) returns (removed: set<K>)
    ensures removed == have - want
  {
    removed := {};
    var left := have;
    while left != {}
      invariant left <= have && removed == (have - left) - want
      decreases |left|
    {
      var key :| key in left;
      if key !in want { removed := removed + {key}; }
      left := left - {key};
    }
  }

  function Nonempty<K>(fields: map<K, set<Column>>): map<K, set<Column>> { map k | k in fields && fields[k] != {} :: fields[k] }

  function EmptyOnes<K>(fields: map<K, set<Column>>): set<K> { set k | k in fields && fields[k] == {} }

  /** Each wanted key in turn: created, updated in these fields, or agreeing. */
  method Sift<K(==)>(wanted: set<K>, have: set<K>, fields: map<K, set<Column>>)
    returns (created: set<K>, updated: map<K, set<Column>>, agree: nat)
    requires fields.Keys == wanted * have
    ensures created == wanted - have && updated == Nonempty(fields) && agree == |EmptyOnes(fields)|
  {
    created, updated, agree := {}, map[], 0;
    ghost var updates, same := Nonempty(fields), EmptyOnes(fields);
    var seen: set<K> := {};
    while seen != wanted
      invariant seen <= wanted && created == seen - have
      invariant updated == Upto(updates, seen)
      invariant agree == |same * seen|
      decreases |wanted - seen|
    {
      var key :| key in wanted && key !in seen;
      UptoNext(updates, seen, key);
      SeenNext(wanted, have, same, seen, key);
      if key !in have {
        created := created + {key};
      } else if fields[key] != {} {
        updated := updated[key := fields[key]];
      } else {
        agree := agree + 1;
      }
      seen := seen + {key};
    }
    UptoAll(updates, seen);
    WholeSeen(same, seen);
  }

  method Compare<K(==)>(want: map<K, Row>, have: map<K, Row>) returns (g: Group<K>, agree: nat)
    ensures g == GroupOf(want, have) && agree == |Agreeing(want, have)|
  {
    var fields := map k | k in want && k in have :: Changed(have[k], want[k]);
    var created, updated;
    created, updated, agree := Sift(want.Keys, have.Keys, fields);
    assert updated == Differing(want, have) && EmptyOnes(fields) == Agreeing(want, have);
    var removed := Missing(have.Keys, want.Keys);
    g := Group(created, updated, removed);
  }

  /** A placement's difference is its device's and its unit's. */
  function PlacementChanged(want: Wanted, db: Db, key: (Id, Id)): set<Column>
    requires want.placements.Some? && key in want.placements.value && key in db.placements
    requires key.0 in want.identities && key.0 in db.units
  {
    Changed(db.placements[key], want.placements.value[key]) + Changed(db.units[key.0], want.identities[key.0])
  }

  /** Rows that read like this: every placement's unit is known, in the document and in the store. */
  predicate Comparable(want: Wanted, db: Db) {
    && (forall p | p in db.placements :: p.0 in db.units)
    && (want.placements.Some? ==> forall p | p in want.placements.value :: p.0 in want.identities)
  }

  function HostCols(db: Db): map<Id, Row> { map h | h in db.hosts :: db.hosts[h].cols }

  function Empty<K>(): Group<K> { Group({}, map[], {}) }

  function UnitsGroup(want: Wanted, db: Db): Group<(Id, Id)>
    requires want.placements.Some? && Comparable(want, db)
  {
    var p := want.placements.value;
    Group(p.Keys - db.placements.Keys,
          map k | k in p && k in db.placements && PlacementChanged(want, db, k) != {} :: PlacementChanged(want, db, k),
          db.placements.Keys - p.Keys)
  }

  function UnitsAgreeing(want: Wanted, db: Db): set<(Id, Id)>
    requires want.placements.Some? && Comparable(want, db)
  {
    set k | k in want.placements.value && k in db.placements && PlacementChanged(want, db, k) == {}
  }

  function PlanOf(want: Wanted, db: Db): Plan
    requires Comparable(want, db)
  {
    Plan(if want.hosts.Some? then GroupOf(want.hosts.value, HostCols(db)) else Empty(),
         if want.placements.Some? then UnitsGroup(want, db) else Empty(),
         if want.scorers.Some? then GroupOf(want.scorers.value, db.scorers) else Empty(),
         (if want.hosts.Some? then |Agreeing(want.hosts.value, HostCols(db))| else 0)
         + (if want.placements.Some? then |UnitsAgreeing(want, db)| else 0)
         + (if want.scorers.Some? then |Agreeing(want.scorers.value, db.scorers)| else 0))
  }

  method CompareUnits(want: Wanted, db: Db) returns (g: Group<(Id, Id)>, agree: nat)
    requires want.placements.Some? && Comparable(want, db)
    ensures g == UnitsGroup(want, db) && agree == |UnitsAgreeing(want, db)|
  {
    var p := want.placements.value;
    var fields := map k | k in p && k in db.placements :: PlacementChanged(want, db, k);
    var created, updated;
    created, updated, agree := Sift(p.Keys, db.placements.Keys, fields);
    assert updated == UnitsGroup(want, db).updated && EmptyOnes(fields) == UnitsAgreeing(want, db);
    var removed := Missing(db.placements.Keys, p.Keys);
    g := Group(created, updated, removed);
  }

  /** What `apply` would do; it refuses only what the document says about itself. */
  method Diff(db: Db, doc: Document) returns (r: Result<Plan>)
    requires Sound(db)
    ensures r.Ok? <==> WellFormed(doc)
    ensures r.Ok? ==> exists want :: Says(want, doc) && Comparable(want, db) && r.value == PlanOf(want, db)
  {
    var normal := Normalise(doc);
    if normal.Refused? { return Refused; }
    var want := normal.value;
    SaysComparable(want, doc, db);
    var plan := DiffRows(db, want);
    r := Ok(plan);
  }

  method DiffRows(db: Db, want: Wanted) returns (plan: Plan)
    requires Comparable(want, db)
    ensures plan == PlanOf(want, db)
  {
    var hosts, units, scorers, n := Empty(), Empty(), Empty(), 0;
    if want.hosts.Some? { hosts, n := Compare(want.hosts.value, HostCols(db)); }
    if want.placements.Some? {
      var k;
      units, k := CompareUnits(want, db);
      n := n + k;
    }
    if want.scorers.Some? {
      var k;
      scorers, k := Compare(want.scorers.value, db.scorers);
      n := n + k;
    }
    plan := Plan(hosts, units, scorers, n);
  }

  lemma SaysComparable(want: Wanted, doc: Document, db: Db)
    requires Says(want, doc) && Sound(db)
    ensures Comparable(want, db)
  {
    if want.placements.Some? {
      forall p | p in want.placements.value ensures p.0 in want.identities {
        var i :| 0 <= i < |doc.units.value| && doc.units.value[i].key == p;
      }
    }
  }

  // ---- what freezes a row, and what may not be orphaned

  /** A column outside the free ones. */
  predicate Locked(t: Table, fields: set<Column>) { fields - FreeColumns(t) != {} }

  /** A measurement names the host; an agent's own report does not count. */
  predicate HostMeasured(refs: set<Ref>, host: Id) { exists r | r in refs :: r.measured && !r.report && r.host == Some(host) }

  predicate PlacementRan(refs: set<Ref>, p: (Id, Id)) { exists r | r in refs :: r.isRun && r.host == Some(p.1) && r.unit == Some(p.0) }

  predicate HostScored(refs: set<Ref>, host: Id) { exists r | r in refs :: r.isRun && r.scored && r.host == Some(host) }

  predicate HostNamed(refs: set<Ref>, host: Id) { exists r | r in refs :: !r.report && r.host == Some(host) }

  predicate UnitNamed(refs: set<Ref>, unit: Id) { exists r | r in refs :: !r.report && r.unit == Some(unit) }

  predicate PlacementNamed(refs: set<Ref>, p: (Id, Id)) { exists r | r in refs :: !r.report && r.placement == Some(p) }

  predicate Placed<V>(placements: map<(Id, Id), V>, unit: Id) { exists p | p in placements :: p.0 == unit }

  predicate Hosting<V>(placements: map<(Id, Id), V>, host: Id) { exists p | p in placements :: p.1 == host }

  // ---- what the rows end up as

  function HostsWith(hosts: map<Id, HostRow>, want: map<Id, Row>): map<Id, HostRow> {
    map h | h in hosts.Keys + want.Keys ::
      if h in want then HostRow(want[h], if h in hosts then hosts[h].blocked else None) else hosts[h]
  }

  /** The units that created placements bring with them. */
  function NewUnits(units: map<Id, Row>, created: set<(Id, Id)>): set<Id> { set k | k in created && k.0 !in units :: k.0 }

  function UnitsWith(units: map<Id, Row>, identities: map<Id, Row>, created: set<(Id, Id)>): map<Id, Row>
    requires forall k | k in created :: k.0 in identities
  {
    units + map u | u in NewUnits(units, created) :: identities[u]
  }

  /** The units whose last placement goes. */
  function Unplaced(placements: map<(Id, Id), Row>, removed: set<(Id, Id)>): set<Id> {
    set k | k in removed && !Placed(placements - removed, k.0) :: k.0
  }

  function WithoutReports(refs: set<Ref>, hosts: set<Id>): set<Ref> {
    set r | r in refs && !(r.report && r.host.Some? && r.host.value in hosts)
  }

  function Removed<K, V>(have: map<K, V>, want: Option<map<K, Row>>): set<K> {
    if want.Some? then have.Keys - want.value.Keys else {}
  }

  function Created<K, V>(have: map<K, V>, want: Option<map<K, Row>>): set<K> {
    if want.Some? then want.value.Keys - have.Keys else {}
  }

  function HostsGrown(db: Db, want: Wanted): map<Id, HostRow> {
    if want.hosts.Some? then HostsWith(db.hosts, want.hosts.value) else db.hosts
  }

  function ScorersGrown(db: Db, want: Wanted): map<Id, Row> {
    if want.scorers.Some? then db.scorers + want.scorers.value else db.scorers
  }

  /** Everything the document asks for, and nothing gone yet. */
  function Grown(db: Db, want: Wanted): Db
    requires Comparable(want, db)
  {
    Db(HostsGrown(db, want), UnitsWith(db.units, want.identities, Created(db.placements, want.placements)),
       PlacementsWith(db, want), ScorersGrown(db, want), db.refs)
  }

  /** Without these hosts, placements and scorers, the units nothing places any more and the hosts' own reports. */
  function Shrunk(db: Db, hosts: set<Id>, placements: set<(Id, Id)>, scorers: set<Id>): Db {
    Db(db.hosts - hosts, db.units - Unplaced(db.placements, placements), db.placements - placements, db.scorers - scorers,
       WithoutReports(db.refs, hosts))
  }

  /** The rows the document asks for, and of the rest what it does not manage. */
  function Target(db: Db, want: Wanted): Db
    requires Comparable(want, db)
  {
    Shrunk(Grown(db, want), Removed(db.hosts, want.hosts), Removed(db.placements, want.placements), Removed(db.scorers, want.scorers))
  }

  function PlacementsWith(db: Db, want: Wanted): map<(Id, Id), Row> {
    if want.placements.Some? then db.placements + want.placements.value else db.placements
  }

  // ---- when nothing refuses

  /** No update touches a locked column of a host a measurement names. */
  ghost predicate HostsFree(refs: set<Ref>, updated: map<Id, set<Column>>) {
    forall h | h in updated :: Locked(HostTable, updated[h]) ==> !HostMeasured(refs, h)
  }

  /** Each new placement's host is there; its unit is there as this unit, or new, and nothing else is what it is. */
  ghost predicate Creatable(hosts: set<Id>, units: map<Id, Row>, identities: map<Id, Row>, created: set<(Id, Id)>)
    requires forall k | k in created :: k.0 in identities
  {
    && (forall k | k in created :: k.1 in hosts)
    && (forall k | k in created && k.0 in units :: units[k.0] == identities[k.0])
    && OneIdEach(UnitsWith(units, identities, created))
  }

  /** No update makes a unit another, or moves a placement some run used. */
  ghost predicate Movable(refs: set<Ref>, units: map<Id, Row>, identities: map<Id, Row>, updated: set<(Id, Id)>) {
    forall k | k in updated :: k.0 in units && k.0 in identities && units[k.0] == identities[k.0] && !PlacementRan(refs, k)
  }

  ghost predicate Removable(refs: set<Ref>, placements: map<(Id, Id), Row>, removed: set<(Id, Id)>) {
    && (forall k | k in removed :: !PlacementNamed(refs, k))
    && (forall u | u in Unplaced(placements, removed) :: !UnitNamed(refs, u))
  }

  ghost predicate HostsGrowable(db: Db, want: Wanted) {
    want.hosts.Some? ==> HostsFree(db.refs, Differing(want.hosts.value, HostCols(db)))
  }

  ghost predicate UnitsGrowable(db: Db, want: Wanted, hosts: set<Id>)
    requires Comparable(want, db)
  {
    want.placements.Some? ==>
      && Creatable(hosts, db.units, want.identities, Created(db.placements, want.placements))
      && Movable(db.refs, db.units, want.identities, UnitsGroup(want, db).updated.Keys)
  }

  ghost predicate ScorersGrowable(db: Db, want: Wanted, hosts: set<Id>) {
    want.scorers.Some? ==>
      && Created(db.scorers, want.scorers) <= hosts
      && forall s | s in Differing(want.scorers.value, db.scorers) :: !HostScored(db.refs, s)
  }

  /** Nothing left behind points at what goes. */
  ghost predicate Shrinkable(db: Db, hosts: set<Id>, placements: set<(Id, Id)>, scorers: set<Id>) {
    && Removable(db.refs, db.placements, placements)
    && (forall h | h in hosts :: !HostNamed(db.refs, h) && !Hosting(db.placements - placements, h) && h !in db.scorers - scorers)
  }

  /** Nothing refuses: a created row's host is there before any is removed. */
  ghost predicate Permitted(db: Db, want: Wanted)
    requires Comparable(want, db)
  {
    && HostsGrowable(db, want)
    && UnitsGrowable(db, want, HostsGrown(db, want).Keys)
    && ScorersGrowable(db, want, HostsGrown(db, want).Keys)
    && Shrinkable(Grown(db, want), Removed(db.hosts, want.hosts), Removed(db.placements, want.placements), Removed(db.scorers, want.scorers))
  }

  function Patched(row: Row, want: Row, fields: set<Column>): Row { row + map c | c in fields && c in want :: want[c] }

  lemma PatchedIsWanted(row: Row, want: Row, fields: set<Column>)
    requires row.Keys == want.Keys && Changed(row, want) <= fields
    ensures Patched(row, want, fields) == want
  {
  }
}
