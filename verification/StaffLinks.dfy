/**
 Linking imported reservation history to staff. A plan groups the records by the identity of their
 staff member in the source system; applying a ready plan creates the staff that are missing,
 inactive, and links every record.
 */
module StaffLinks {
  import opened Common

  /** The identity of a staff member in the source: a published number, or only the name on the record. */
  datatype Key = Publication(number: string) | Label(name: string)

  datatype Record = Record(id: nat, externalReservationId: string, externalStaffId: Option<string>, staffName: Option<string>,
                           staffId: Option<nat>)

  datatype Staff = Staff(name: string, roomResource: bool, active: bool)

  /** Staff are numbered by position; mappings give the staff member registered for a source identity. */
  datatype Db = Db(records: seq<Record>, staff: seq<Staff>, mappings: map<Key, nat>)

  /** How names are compared and read: blank names, names equal up to width and spaces, names of rooms. */
  datatype Names = Names(blank: string -> bool, fold: string -> string, room: string -> bool)

  datatype Issue = NoName | SeveralNames | UnknownPublication | NameTaken | OtherStaff | NothingToLink | TooMany

  datatype Group = Group(key: Key, name: string, count: nat, staffId: Option<nat>, roomResource: bool, linked: nat)

  /** What a plan is bound to: the records without their links, and the staff of published identities. */
  datatype Checksum = Checksum(records: seq<Record>, targets: map<Key, Option<nat>>)

  datatype Plan = Plan(checksum: Checksum, total: nat, linked: int, pending: int, existing: nat, created: nat, groups: seq<Group>,
                       issues: set<Issue>)

  const MAX_RECORDS := 10_000

  // ---- Grouping ----

  predicate Named(n: Names, r: Record) {
    r.staffName.Some? && !n.blank(r.staffName.value)
  }

  function KeyOf(r: Record): Option<Key> {
    if r.externalStaffId.Some? && |r.externalStaffId.value| > 0 then Some(Publication(r.externalStaffId.value))
    else if r.staffName.Some? then Some(Label(r.staffName.value))
    else None
  }

  /** The identities of the named records, each once, in the order in which they first appear. */
  function Keys(n: Names, records: seq<Record>): seq<Key> {
    if |records| == 0 then []
    else
      var r := records[|records| - 1];
      var before := Keys(n, records[..|records| - 1]);
      if !Named(n, r) || KeyOf(r).value in before then before else before + [KeyOf(r).value]
  }

  /** The named records of an identity, in order. */
  function Members(n: Names, records: seq<Record>, key: Key): seq<Record> {
    if |records| == 0 then []
    else
      var r := records[|records| - 1];
      Members(n, records[..|records| - 1], key) + (if Named(n, r) && KeyOf(r) == Some(key) then [r] else [])
  }

  lemma {:induction false} KeysDistinct(n: Names, records: seq<Record>)
    ensures forall i, j :: 0 <= i < j < |Keys(n, records)| ==> Keys(n, records)[i] != Keys(n, records)[j]
  {
    if |records| > 0 { KeysDistinct(n, records[..|records| - 1]); }
  }

  predicate Has(n: Names, records: seq<Record>, key: Key) {
    exists i :: 0 <= i < |records| && Named(n, records[i]) && KeyOf(records[i]) == Some(key)
  }

  lemma {:induction false} KeysAre(n: Names, records: seq<Record>, key: Key)
    ensures key in Keys(n, records) <==> Has(n, records, key)
  {
    if |records| > 0 {
      var last := |records| - 1;
      KeysAre(n, records[..last], key);
      assert Has(n, records, key) <==> Has(n, records[..last], key) || (Named(n, records[last]) && KeyOf(records[last]) == Some(key));
    }
  }

  lemma {:induction false} MembersAre(n: Names, records: seq<Record>, key: Key)
    ensures forall r :: r in Members(n, records, key) <==> r in records && Named(n, r) && KeyOf(r) == Some(key)
  {
    if |records| > 0 {
      var last := |records| - 1;
      MembersAre(n, records[..last], key);
      assert records == records[..last] + [records[last]];
    }
  }

  lemma {:induction false} GroupNonempty(n: Names, records: seq<Record>, key: Key)
    requires key in Keys(n, records)
    ensures |Members(n, records, key)| > 0 && Named(n, Members(n, records, key)[0])
  {
    KeysAre(n, records, key);
    MembersAre(n, records, key);
    var i :| 0 <= i < |records| && Named(n, records[i]) && KeyOf(records[i]) == Some(key);
    assert records[i] in Members(n, records, key);
    assert Members(n, records, key)[0] in Members(n, records, key);
  }

  function Target(db: Db, key: Key): Option<nat> {
    if key in db.mappings then Some(db.mappings[key]) else None
  }

  function CountLinked(ms: seq<Record>, target: Option<nat>): nat {
    if |ms| == 0 then 0
    else CountLinked(ms[..|ms| - 1], target)
         + (if target.Some? && ms[|ms| - 1].staffId == target then 1 else 0)
  }

  predicate MappingsKnown(db: Db) {
    forall k :: k in db.mappings ==> db.mappings[k] < |db.staff|
  }

  /** The plan's entry for an identity, from its records and its registered staff member. */
  function MakeGroup(n: Names, staff: seq<Staff>, key: Key, ms: seq<Record>, target: Option<nat>): Group
    requires |ms| > 0 && ms[0].staffName.Some? && (target.Some? ==> target.value < |staff|)
  {
    var name := ms[0].staffName.value;
    Group(key, name, |ms|, target, if target.Some? then staff[target.value].roomResource else n.room(name), CountLinked(ms, target))
  }

  function GroupOf(n: Names, db: Db, key: Key): Group
    requires key in Keys(n, db.records) && MappingsKnown(db)
  {
    GroupNonempty(n, db.records, key);
    MakeGroup(n, db.staff, key, Members(n, db.records, key), Target(db, key))
  }

  predicate NamesDiffer(ms: seq<Record>, name: string) {
    exists r :: r in ms && r.staffName != Some(name)
  }

  predicate Taken(n: Names, staff: seq<Staff>, name: string) {
    exists s :: s in staff && n.fold(s.name) == n.fold(name)
  }

  predicate LinkedElsewhere(ms: seq<Record>, target: Option<nat>) {
    exists r :: r in ms && r.staffId.Some? && r.staffId != target
  }

  function OwnIssues(n: Names, staff: seq<Staff>, key: Key, ms: seq<Record>, g: Group): set<Issue> {
    (if NamesDiffer(ms, g.name) then {SeveralNames} else {})
    + (if key.Publication? && g.staffId.None? then {UnknownPublication} else {})
    + (if key.Label? && g.staffId.None? && Taken(n, staff, g.name) then {NameTaken} else {})
    + (if LinkedElsewhere(ms, g.staffId) then {OtherStaff} else {})
  }

  function GroupIssues(n: Names, db: Db, key: Key): set<Issue>
    requires key in Keys(n, db.records) && MappingsKnown(db)
  {
    OwnIssues(n, db.staff, key, Members(n, db.records, key), GroupOf(n, db, key))
  }

  // ---- The plan ----

  function GroupsOf(n: Names, db: Db): (groups: seq<Group>)
    requires MappingsKnown(db)
    ensures |groups| == |Keys(n, db.records)|
  {
    var keys := Keys(n, db.records);
    seq(|keys|, i requires 0 <= i < |keys| => GroupOf(n, db, keys[i]))
  }

  function Union(sets: seq<set<Issue>>): set<Issue> {
    if |sets| == 0 then {} else Union(sets[..|sets| - 1]) + sets[|sets| - 1]
  }

  function AllGroupIssues(n: Names, db: Db): (s: seq<set<Issue>>)
    requires MappingsKnown(db)
    ensures |s| == |Keys(n, db.records)|
  {
    var keys := Keys(n, db.records);
    seq(|keys|, i requires 0 <= i < |keys| => GroupIssues(n, db, keys[i]))
  }

  predicate SomeUnnamed(n: Names, records: seq<Record>) {
    exists r :: r in records && !Named(n, r)
  }

  function WithGlobalIssues(unnamed: bool, own: set<Issue>, count: nat): set<Issue> {
    (if unnamed then {NoName} else {}) + own + (if count == 0 then {NothingToLink} else {})
    + (if count > MAX_RECORDS then {TooMany} else {})
  }

  function IssuesOf(n: Names, db: Db): set<Issue>
    requires MappingsKnown(db)
  {
    WithGlobalIssues(SomeUnnamed(n, db.records), Union(AllGroupIssues(n, db)), |db.records|)
  }

  function Unlinked(r: Record): Record {
    r.(staffId := None)
  }

  function ChecksumOf(n: Names, db: Db): Checksum {
    Checksum(seq(|db.records|, i requires 0 <= i < |db.records| => Unlinked(db.records[i])),
             map k | k in Keys(n, db.records) :: if k.Publication? then Target(db, k) else None)
  }

  function LinkedIn(groups: seq<Group>): (s: seq<int>)
    ensures |s| == |groups|
  {
    seq(|groups|, i requires 0 <= i < |groups| => groups[i].linked)
  }

  function CountGroups(groups: seq<Group>, existing: bool): nat {
    if |groups| == 0 then 0
    else CountGroups(groups[..|groups| - 1], existing) + (if groups[|groups| - 1].staffId.Some? == existing then 1 else 0)
  }

  function PlanOf(n: Names, db: Db): Plan
    requires MappingsKnown(db)
  {
    var groups := GroupsOf(n, db);
    var linked := Sum(LinkedIn(groups));
    Plan(ChecksumOf(n, db), |db.records|, linked, |db.records| - linked, CountGroups(groups, true), CountGroups(groups, false),
         groups, IssuesOf(n, db))
  }

  predicate Ready(p: Plan) {
    p.issues == {}
  }

  // ---- Applying ----

  /** The records of an identity that have no staff yet get this one. */
  function LinkRecord(r: Record, key: Key, staffId: nat): Record {
    if KeyOf(r) == Some(key) && r.staffId.None? then r.(staffId := Some(staffId)) else r
  }

  function LinkRecords(records: seq<Record>, key: Key, staffId: nat): (s: seq<Record>)
    ensures |s| == |records|
  {
    seq(|records|, i requires 0 <= i < |records| => LinkRecord(records[i], key, staffId))
  }

  /** One group: a missing staff member is created inactive and registered, then the records are linked. */
  function ApplyGroup(db: Db, g: Group): Db {
    if g.staffId.Some? then db.(records := LinkRecords(db.records, g.key, g.staffId.value))
    else
      Db(LinkRecords(db.records, g.key, |db.staff|), db.staff + [Staff(g.name, g.roomResource, false)],
         db.mappings[g.key := |db.staff|])
  }

  function ApplyGroups(db: Db, groups: seq<Group>, k: nat): Db
    requires k <= |groups|
  {
    if k == 0 then db else ApplyGroup(ApplyGroups(db, groups, k - 1), groups[k - 1])
  }

  function Linked(records: seq<Record>): nat {
    if |records| == 0 then 0 else Linked(records[..|records| - 1]) + (if records[|records| - 1].staffId.Some? then 1 else 0)
  }

  function ApplyPlan(n: Names, db: Db, checksum: Checksum): Result<Db, string>
    requires MappingsKnown(db)
  {
    var plan := PlanOf(n, db);
    if checksum != plan.checksum then Failure("CHANGED")
    else if !Ready(plan) then Failure("NOT_READY")
    else
      var now := ApplyGroups(db, plan.groups, |plan.groups|);
      if Linked(now.records) != plan.total then Failure("INCOMPLETE") else Success(now)
  }

  // ---- What a ready plan promises ----

  /** Every record is named, agrees with its group and is linked to nobody else. */
  ghost predicate Consistent(n: Names, db: Db) {
    && 0 < |db.records| <= MAX_RECORDS
    && (forall i :: 0 <= i < |db.records| ==> RecordConsistent(n, db, db.records[i]))
    && (forall i, j :: 0 <= i < |db.records| && 0 <= j < |db.records| && KeyOf(db.records[i]) == KeyOf(db.records[j]) ==>
          db.records[i].staffName == db.records[j].staffName)
  }

  predicate RecordConsistent(n: Names, db: Db, r: Record) {
    && Named(n, r)
    && (r.staffId.Some? ==> r.staffId == Target(db, KeyOf(r).value))
    && (KeyOf(r).value.Publication? ==> KeyOf(r).value in db.mappings)
    && (KeyOf(r).value.Label? && KeyOf(r).value !in db.mappings ==>
          forall s :: s in db.staff ==> n.fold(s.name) != n.fold(r.staffName.value))
  }

  lemma ReadyIsConsistent(n: Names, db: Db)
    requires MappingsKnown(db) && Ready(PlanOf(n, db))
    ensures Consistent(n, db)
  {
    assert IssuesOf(n, db) == {};
    NoIssue(n, db, NoName);
    NoIssue(n, db, NothingToLink);
    NoIssue(n, db, TooMany);
    forall i | 0 <= i < |db.records| ensures RecordConsistent(n, db, db.records[i]) {
      assert db.records[i] in db.records;
      RecordOfReadyPlan(n, db, i);
    }
    NamesAgree(n, db);
  }

  /** A group of a consistent history raises no issue. */
  lemma {:induction false} ConsistentGroup(n: Names, db: Db, key: Key)
    requires MappingsKnown(db) && Consistent(n, db) && key in Keys(n, db.records)
    ensures GroupIssues(n, db, key) == {}
  {
    var ms := Members(n, db.records, key);
    GroupNonempty(n, db.records, key);
    forall r | r in ms ensures RecordConsistent(n, db, r) && KeyOf(r) == Some(key) && r.staffName == ms[0].staffName {
      MembersAre(n, db.records, key);
      assert ms[0] in ms;
      var i :| 0 <= i < |db.records| && db.records[i] == r;
      var j :| 0 <= j < |db.records| && db.records[j] == ms[0];
    }
    assert ms[0] in ms;
    assert !NamesDiffer(ms, ms[0].staffName.value);
    assert !LinkedElsewhere(ms, Target(db, key));
  }

  /** A plan is ready exactly for a history whose records are all named, agree within their groups and are linked to nobody else. */
  lemma ReadyIff(n: Names, db: Db)
    requires MappingsKnown(db)
    ensures Ready(PlanOf(n, db)) <==> Consistent(n, db)
  {
    if Ready(PlanOf(n, db)) { ReadyIsConsistent(n, db); }
    if Consistent(n, db) {
      var all := AllGroupIssues(n, db);
      forall i | 0 <= i < |all| ensures all[i] == {} {
        ConsistentGroup(n, db, Keys(n, db.records)[i]);
      }
      UnionOfEmpty(all);
      forall r | r in db.records ensures Named(n, r) {
        var i :| 0 <= i < |db.records| && db.records[i] == r;
      }
    }
  }

  lemma NamesAgree(n: Names, db: Db)
    requires MappingsKnown(db) && IssuesOf(n, db) == {} && forall r :: r in db.records ==> Named(n, r)
    ensures forall i, j :: 0 <= i < |db.records| && 0 <= j < |db.records| && KeyOf(db.records[i]) == KeyOf(db.records[j]) ==>
              db.records[i].staffName == db.records[j].staffName
  {
    forall i, j | 0 <= i < |db.records| && 0 <= j < |db.records| && KeyOf(db.records[i]) == KeyOf(db.records[j])
      ensures db.records[i].staffName == db.records[j].staffName
    {
      assert db.records[i] in db.records && db.records[j] in db.records;
      RecordOfReadyPlan(n, db, i);
      RecordOfReadyPlan(n, db, j);
    }
  }

  lemma {:induction false} UnionHas(sets: seq<set<Issue>>, i: nat, x: Issue)
    requires i < |sets|
    ensures x in sets[i] ==> x in Union(sets)
  {
    if i < |sets| - 1 { UnionHas(sets[..|sets| - 1], i, x); }
  }

  lemma {:induction false} UnionOfEmpty(sets: seq<set<Issue>>)
    requires forall i :: 0 <= i < |sets| ==> sets[i] == {}
    ensures Union(sets) == {}
  {
    if |sets| > 0 { UnionOfEmpty(sets[..|sets| - 1]); }
  }

  lemma {:induction false} NoIssue(n: Names, db: Db, x: Issue)
    requires MappingsKnown(db) && IssuesOf(n, db) == {}
    ensures x !in IssuesOf(n, db)
    ensures forall i :: 0 <= i < |Keys(n, db.records)| ==> x !in GroupIssues(n, db, Keys(n, db.records)[i])
    ensures x == NoName ==> forall r :: r in db.records ==> Named(n, r)
    ensures x == NothingToLink ==> |db.records| > 0
    ensures x == TooMany ==> |db.records| <= MAX_RECORDS
  {
    assert NoName !in IssuesOf(n, db) && NothingToLink !in IssuesOf(n, db) && TooMany !in IssuesOf(n, db);
    forall i | 0 <= i < |Keys(n, db.records)| ensures x !in GroupIssues(n, db, Keys(n, db.records)[i]) {
      UnionHas(AllGroupIssues(n, db), i, x);
    }
  }

  /** A group that raises no issue: its members agree with it and with each other. */
  lemma {:induction false} MemberOfCleanGroup(n: Names, db: Db, key: Key, r: Record)
    requires MappingsKnown(db) && key in Keys(n, db.records) && GroupIssues(n, db, key) == {}
    requires r in Members(n, db.records, key) && Named(n, r) && KeyOf(r) == Some(key)
    ensures RecordConsistent(n, db, r) && r.staffName == Some(GroupOf(n, db, key).name)
  {
    var issues := GroupIssues(n, db, key);
    assert SeveralNames !in issues && UnknownPublication !in issues && NameTaken !in issues && OtherStaff !in issues;
  }

  lemma {:induction false} CleanGroup(n: Names, db: Db, key: Key)
    requires MappingsKnown(db) && IssuesOf(n, db) == {} && key in Keys(n, db.records)
    ensures GroupIssues(n, db, key) == {}
  {
    var keys := Keys(n, db.records);
    var j :| 0 <= j < |keys| && keys[j] == key;
    forall x: Issue ensures x !in GroupIssues(n, db, keys[j]) {
      NoIssue(n, db, x);
    }
  }

  lemma {:induction false} RecordOfReadyPlan(n: Names, db: Db, i: nat)
    requires MappingsKnown(db) && IssuesOf(n, db) == {} && i < |db.records| && Named(n, db.records[i])
    ensures KeyOf(db.records[i]).value in Keys(n, db.records)
    ensures RecordConsistent(n, db, db.records[i])
    ensures db.records[i].staffName == Some(GroupOf(n, db, KeyOf(db.records[i]).value).name)
  {
    var key := KeyOf(db.records[i]).value;
    KeysAre(n, db.records, key);
    MembersAre(n, db.records, key);
    CleanGroup(n, db, key);
    MemberOfCleanGroup(n, db, key, db.records[i]);
  }

  // ---- Links do not change the grouping ----

  predicate SameSource(a: seq<Record>, b: seq<Record>) {
    |a| == |b| && forall i :: 0 <= i < |a| ==> Unlinked(a[i]) == Unlinked(b[i])
  }

  lemma SameRecord(n: Names, a: Record, b: Record)
    requires Unlinked(a) == Unlinked(b)
    ensures KeyOf(a) == KeyOf(b) && Named(n, a) == Named(n, b) && a.staffName == b.staffName
  {
    assert Unlinked(a).staffName == a.staffName && Unlinked(b).staffName == b.staffName;
    assert Unlinked(a).externalStaffId == a.externalStaffId && Unlinked(b).externalStaffId == b.externalStaffId;
  }

  lemma {:induction false} SameKeys(n: Names, a: seq<Record>, b: seq<Record>)
    requires SameSource(a, b)
    ensures Keys(n, a) == Keys(n, b)
  {
    if |a| > 0 {
      SameKeys(n, a[..|a| - 1], b[..|b| - 1]);
      SameRecord(n, a[|a| - 1], b[|b| - 1]);
    }
  }

  // ---- Applying a ready plan, group by group ----

  /** The first k identities of the plan. */
  predicate Early(keys: seq<Key>, k: nat, key: Option<Key>)
    requires k <= |keys|
  {
    exists j :: 0 <= j < k && key == Some(keys[j])
  }

  /** After k groups: their records are linked to the registered staff member, the others untouched. */
  ghost predicate AppliedUpTo(n: Names, db: Db, now: Db, k: nat)
    requires k <= |Keys(n, db.records)|
  {
    var keys := Keys(n, db.records);
    && SameSource(db.records, now.records) && MappingsKnown(now)
    && db.staff <= now.staff
    && (forall s :: |db.staff| <= s < |now.staff| ==> !now.staff[s].active)
    && (forall key :: key in now.mappings <==> key in db.mappings || Early(keys, k, Some(key)))
    && (forall key :: key in db.mappings ==> now.mappings[key] == db.mappings[key])
    && (forall i :: 0 <= i < |db.records| ==>
          if Early(keys, k, KeyOf(db.records[i]))
          then now.records[i].staffId == Target(now, KeyOf(db.records[i]).value) else now.records[i] == db.records[i])
  }

  lemma EarlyNext(keys: seq<Key>, k: nat, key: Option<Key>)
    requires k < |keys|
    ensures Early(keys, k + 1, key) <==> Early(keys, k, key) || key == Some(keys[k])
  {
    if key == Some(keys[k]) { assert Early(keys, k + 1, key); }
  }

  lemma {:induction false} LinkedRecord(n: Names, db: Db, now: Db, k: nat, i: nat)
    requires MappingsKnown(db) && Consistent(n, db) && k < |Keys(n, db.records)| && AppliedUpTo(n, db, now, k)
    requires i < |db.records|
    ensures var keys := Keys(n, db.records);
            var after := ApplyGroup(now, GroupOf(n, db, keys[k]));
            && Unlinked(db.records[i]) == Unlinked(after.records[i])
            && (if Early(keys, k + 1, KeyOf(db.records[i]))
                then after.records[i].staffId == Target(after, KeyOf(db.records[i]).value) else after.records[i] == db.records[i])
  {
    var keys := Keys(n, db.records);
    EarlyNext(keys, k, KeyOf(db.records[i]));
    SameRecord(n, db.records[i], now.records[i]);
    assert RecordConsistent(n, db, db.records[i]);
    KeysDistinct(n, db.records);
    assert !Early(keys, k, Some(keys[k]));
  }

  lemma {:induction false} ApplyOne(n: Names, db: Db, now: Db, k: nat)
    requires MappingsKnown(db) && Consistent(n, db) && k < |Keys(n, db.records)| && AppliedUpTo(n, db, now, k)
    ensures AppliedUpTo(n, db, ApplyGroup(now, GroupOf(n, db, Keys(n, db.records)[k])), k + 1)
  {
    var keys := Keys(n, db.records);
    var after := ApplyGroup(now, GroupOf(n, db, keys[k]));
    forall i | 0 <= i < |db.records|
      ensures Unlinked(db.records[i]) == Unlinked(after.records[i])
      ensures if Early(keys, k + 1, KeyOf(db.records[i]))
              then after.records[i].staffId == Target(after, KeyOf(db.records[i]).value) else after.records[i] == db.records[i]
    {
      LinkedRecord(n, db, now, k, i);
    }
    forall key ensures key in after.mappings <==> key in db.mappings || Early(keys, k + 1, Some(key)) {
      EarlyNext(keys, k, Some(key));
    }
  }

  lemma AppliedNone(n: Names, db: Db)
    requires MappingsKnown(db)
    ensures AppliedUpTo(n, db, db, 0)
  {
  }

  lemma NextGroup(n: Names, db: Db, k: nat)
    requires MappingsKnown(db) && 0 < k <= |Keys(n, db.records)|
    ensures ApplyGroups(db, GroupsOf(n, db), k)
         == ApplyGroup(ApplyGroups(db, GroupsOf(n, db), k - 1), GroupOf(n, db, Keys(n, db.records)[k - 1]))
  {
    assert GroupsOf(n, db)[k - 1] == GroupOf(n, db, Keys(n, db.records)[k - 1]);
  }

  lemma {:induction false} ApplyAll(n: Names, db: Db, k: nat) returns (now: Db)
    requires MappingsKnown(db) && Consistent(n, db) && k <= |Keys(n, db.records)|
    ensures now == ApplyGroups(db, GroupsOf(n, db), k) && AppliedUpTo(n, db, now, k)
  {
    if k == 0 {
      AppliedNone(n, db);
      now := db;
    } else {
      var before := ApplyAll(n, db, k - 1);
      ApplyOne(n, db, before, k - 1);
      NextGroup(n, db, k);
      now := ApplyGroup(before, GroupOf(n, db, Keys(n, db.records)[k - 1]));
    }
  }

  /** As many staff are created as there are groups without one. */
  lemma {:induction false} StaffCreated(db: Db, groups: seq<Group>, k: nat)
    requires k <= |groups|
    ensures |ApplyGroups(db, groups, k).staff| == |db.staff| + CountGroups(groups[..k], false)
  {
    if k > 0 {
      StaffCreated(db, groups, k - 1);
      assert groups[..k][..k - 1] == groups[..k - 1];
    }
  }

  // ---- The result of applying ----

  /** Every record is linked to the staff member registered for its identity. */
  ghost predicate FullyLinked(n: Names, db: Db) {
    forall i :: 0 <= i < |db.records| ==>
      && Named(n, db.records[i]) && KeyOf(db.records[i]).value in db.mappings
      && db.records[i].staffId == Some(db.mappings[KeyOf(db.records[i]).value])
  }

  lemma {:induction false} AllLinked(records: seq<Record>)
    requires forall i :: 0 <= i < |records| ==> records[i].staffId.Some?
    ensures Linked(records) == |records|
  {
    if |records| > 0 { AllLinked(records[..|records| - 1]); }
  }

  lemma {:induction false} AppliedIsLinked(n: Names, db: Db, now: Db)
    requires MappingsKnown(db) && Consistent(n, db) && AppliedUpTo(n, db, now, |Keys(n, db.records)|)
    ensures FullyLinked(n, now) && Consistent(n, now)
  {
    var keys := Keys(n, db.records);
    forall i | 0 <= i < |now.records|
      ensures Named(n, now.records[i]) && KeyOf(now.records[i]).value in now.mappings
      ensures now.records[i].staffId == Some(now.mappings[KeyOf(now.records[i]).value])
      ensures KeyOf(now.records[i]) == KeyOf(db.records[i]) && now.records[i].staffName == db.records[i].staffName
    {
      assert RecordConsistent(n, db, db.records[i]);
      SameRecord(n, db.records[i], now.records[i]);
      KeysAre(n, db.records, KeyOf(db.records[i]).value);
      assert KeyOf(db.records[i]).value in keys;
      assert Early(keys, |keys|, KeyOf(db.records[i]));
    }
  }

  /** Applying the current plan of a ready state never comes out incomplete. */
  lemma ReadyPlanApplies(n: Names, db: Db)
    requires MappingsKnown(db) && Ready(PlanOf(n, db))
    ensures var r := ApplyPlan(n, db, PlanOf(n, db).checksum);
            && r.Success? && FullyLinked(n, r.value) && Linked(r.value.records) == |db.records|
            && MappingsKnown(r.value) && Consistent(n, r.value)
            && SameSource(db.records, r.value.records) && db.staff <= r.value.staff
            && (forall s :: |db.staff| <= s < |r.value.staff| ==> !r.value.staff[s].active)
            && (forall key :: key in db.mappings ==> key in r.value.mappings && r.value.mappings[key] == db.mappings[key])
  {
    ReadyIsConsistent(n, db);
    var keys := Keys(n, db.records);
    var now := ApplyAll(n, db, |keys|);
    AppliedIsLinked(n, db, now);
    AllLinked(now.records);
  }

  // ---- Applying is a fixed point ----

  lemma {:induction false} SameTarget(n: Names, db: Db, now: Db, key: Key)
    requires Consistent(n, db) && key in Keys(n, db.records) && key.Publication?
    requires forall key :: key in db.mappings ==> key in now.mappings && now.mappings[key] == db.mappings[key]
    ensures Target(now, key) == Target(db, key)
  {
    KeysAre(n, db.records, key);
    var i :| 0 <= i < |db.records| && Named(n, db.records[i]) && KeyOf(db.records[i]) == Some(key);
    assert RecordConsistent(n, db, db.records[i]);
  }

  lemma SameChecksum(n: Names, db: Db, now: Db)
    requires Consistent(n, db) && SameSource(db.records, now.records)
    requires forall key :: key in db.mappings ==> key in now.mappings && now.mappings[key] == db.mappings[key]
    ensures ChecksumOf(n, now) == ChecksumOf(n, db)
  {
    SameKeys(n, db.records, now.records);
    var a, b := ChecksumOf(n, now), ChecksumOf(n, db);
    forall key | key in Keys(n, db.records) ensures a.targets[key] == b.targets[key] {
      if key.Publication? { SameTarget(n, db, now, key); }
    }
    assert a.targets == b.targets;
    assert a.records == b.records;
  }

  lemma {:induction false} LinkedMembers(n: Names, db: Db, key: Key)
    requires Consistent(n, db) && FullyLinked(n, db) && key in Keys(n, db.records)
    ensures var ms := Members(n, db.records, key);
            && |ms| > 0 && key in db.mappings
            && forall r :: r in ms ==> r.staffId == Target(db, key) && r.staffName == ms[0].staffName && Named(n, r)
  {
    var ms := Members(n, db.records, key);
    KeysAre(n, db.records, key);
    MembersAre(n, db.records, key);
    var i :| 0 <= i < |db.records| && Named(n, db.records[i]) && KeyOf(db.records[i]) == Some(key);
    assert db.records[i] in ms;
    forall r | r in ms ensures r.staffId == Target(db, key) && r.staffName == db.records[i].staffName && key in db.mappings {
      MemberLinked(n, db, key, r);
    }
    assert ms[0] in ms;
  }

  predicate Agreeing(n: Names, ms: seq<Record>, target: Option<nat>) {
    |ms| > 0 && Named(n, ms[0]) && forall r :: r in ms ==> r.staffId == target && r.staffName == ms[0].staffName
  }

  lemma {:induction false} AgreeingGroup(n: Names, db: Db, key: Key)
    requires MappingsKnown(db) && key in Keys(n, db.records) && key in db.mappings
    requires Agreeing(n, Members(n, db.records, key), Target(db, key))
    ensures GroupOf(n, db, key).staffId == Target(db, key) && GroupIssues(n, db, key) == {}
  {
    var ms := Members(n, db.records, key);
    var name := ms[0].staffName.value;
    assert !NamesDiffer(ms, name);
    assert !LinkedElsewhere(ms, Target(db, key));
  }

  lemma {:induction false} GroupOfLinked(n: Names, db: Db, key: Key)
    requires MappingsKnown(db) && Consistent(n, db) && FullyLinked(n, db) && key in Keys(n, db.records)
    ensures GroupOf(n, db, key).staffId == Target(db, key) && Target(db, key).Some? && GroupIssues(n, db, key) == {}
    ensures forall r :: r in Members(n, db.records, key) ==> r.staffId == Target(db, key)
  {
    LinkedMembers(n, db, key);
    assert Members(n, db.records, key)[0] in Members(n, db.records, key);
    AgreeingGroup(n, db, key);
  }

  lemma {:induction false} MemberLinked(n: Names, db: Db, key: Key, r: Record)
    requires Consistent(n, db) && FullyLinked(n, db) && r in Members(n, db.records, key)
    ensures r.staffId == Target(db, key) && key in db.mappings
    ensures forall i :: 0 <= i < |db.records| && KeyOf(db.records[i]) == Some(key) ==> r.staffName == db.records[i].staffName
  {
    MembersAre(n, db.records, key);
    var i :| 0 <= i < |db.records| && db.records[i] == r;
  }

  lemma LinkedHasNoIssues(n: Names, db: Db)
    requires MappingsKnown(db) && Consistent(n, db) && FullyLinked(n, db)
    ensures IssuesOf(n, db) == {}
  {
    var all := AllGroupIssues(n, db);
    forall i | 0 <= i < |all| ensures all[i] == {} {
      GroupOfLinked(n, db, Keys(n, db.records)[i]);
    }
    UnionOfEmpty(all);
    forall r | r in db.records ensures Named(n, r) {
      var i :| 0 <= i < |db.records| && db.records[i] == r;
    }
  }

  lemma {:induction false} AllMembersLinked(ms: seq<Record>, target: Option<nat>)
    requires target.Some? && forall r :: r in ms ==> r.staffId == target
    ensures CountLinked(ms, target) == |ms|
  {
    if |ms| > 0 {
      assert ms[|ms| - 1] in ms;
      AllMembersLinked(ms[..|ms| - 1], target);
    }
  }

  /** The sizes of the groups of these identities. */
  function Sizes(n: Names, records: seq<Record>, keys: seq<Key>): (s: seq<int>)
    ensures |s| == |keys|
  {
    seq(|keys|, i requires 0 <= i < |keys| => |Members(n, records, keys[i])|)
  }

  function CountNamed(n: Names, records: seq<Record>): nat {
    if |records| == 0 then 0
    else CountNamed(n, records[..|records| - 1]) + (if Named(n, records[|records| - 1]) then 1 else 0)
  }

  /** Every named record is in exactly one group, and no other record is in any. */
  lemma {:induction false} GroupsPartition(n: Names, records: seq<Record>)
    ensures Sum(Sizes(n, records, Keys(n, records))) == CountNamed(n, records)
  {
    if |records| > 0 {
      var before, r := records[..|records| - 1], records[|records| - 1];
      GroupsPartition(n, before);
      assert records == before + [r];
      if Named(n, r) {
        AddToPartition(n, before, r, Keys(n, before));
      } else {
        SameSizes(n, before, r, Keys(n, before));
      }
    }
  }

  lemma {:induction false} SameSizes(n: Names, before: seq<Record>, r: Record, keys: seq<Key>)
    requires !Named(n, r)
    ensures Sizes(n, before + [r], keys) == Sizes(n, before, keys)
  {
    assert (before + [r])[..|before|] == before;
    forall i | 0 <= i < |keys| ensures Members(n, before + [r], keys[i]) == Members(n, before, keys[i]) {
    }
  }

  lemma {:induction false} AllNamed(n: Names, records: seq<Record>)
    requires forall i :: 0 <= i < |records| ==> Named(n, records[i])
    ensures CountNamed(n, records) == |records|
  {
    if |records| > 0 { AllNamed(n, records[..|records| - 1]); }
  }

  lemma {:induction false} AddToPartition(n: Names, before: seq<Record>, r: Record, keys: seq<Key>)
    requires Named(n, r) && keys == Keys(n, before)
    ensures Sum(Sizes(n, before + [r], Keys(n, before + [r]))) == Sum(Sizes(n, before, keys)) + 1
  {
    assert (before + [r])[..|before|] == before;
    if KeyOf(r).value in keys { AddToGroup(n, before, r, keys); } else { AddGroup(n, before, r, keys); }
  }

  lemma {:induction false} AddToGroup(n: Names, before: seq<Record>, r: Record, keys: seq<Key>)
    requires Named(n, r) && keys == Keys(n, before) && KeyOf(r).value in keys
    ensures Sum(Sizes(n, before + [r], keys)) == Sum(Sizes(n, before, keys)) + 1
  {
    var key := KeyOf(r).value;
    var was, now := Sizes(n, before, keys), Sizes(n, before + [r], keys);
    KeysDistinct(n, before);
    var j :| 0 <= j < |keys| && keys[j] == key;
    forall i | 0 <= i < |keys| ensures now[i] == was[i] + (if i == j then 1 else 0) {
      MembersSnoc(n, before, r, keys[i]);
      assert i != j ==> keys[i] != keys[j];
    }
    assert now == was[j := was[j] + 1];
    SumUpdate(was, j, was[j] + 1);
  }

  lemma {:induction false} AddGroup(n: Names, before: seq<Record>, r: Record, keys: seq<Key>)
    requires Named(n, r) && keys == Keys(n, before) && KeyOf(r).value !in keys
    ensures Sum(Sizes(n, before + [r], keys + [KeyOf(r).value])) == Sum(Sizes(n, before, keys)) + 1
  {
    var key := KeyOf(r).value;
    var was, now := Sizes(n, before, keys), Sizes(n, before + [r], keys + [key]);
    forall i | 0 <= i < |keys| ensures now[i] == was[i] {
      MembersSnoc(n, before, r, keys[i]);
    }
    MembersSnoc(n, before, r, key);
    OnlyMembersOfKeys(n, before, key);
    assert now == was + [1];
    SumSnoc(was, 1);
  }

  lemma {:induction false} MembersSnoc(n: Names, before: seq<Record>, r: Record, key: Key)
    requires Named(n, r)
    ensures |Members(n, before + [r], key)| == |Members(n, before, key)| + (if KeyOf(r) == Some(key) then 1 else 0)
  {
    assert (before + [r])[..|before|] == before;
  }

  lemma {:induction false} OnlyMembersOfKeys(n: Names, records: seq<Record>, key: Key)
    ensures |Members(n, records, key)| > 0 ==> key in Keys(n, records)
  {
    var ms := Members(n, records, key);
    KeysAre(n, records, key);
    MembersAre(n, records, key);
    if |ms| > 0 {
      assert ms[0] in ms;
      var i :| 0 <= i < |records| && records[i] == ms[0];
    }
  }

  lemma LinkedIsSettled(n: Names, db: Db)
    requires MappingsKnown(db) && Consistent(n, db) && FullyLinked(n, db)
    ensures PlanOf(n, db).pending == 0
  {
    var keys := Keys(n, db.records);
    var groups := GroupsOf(n, db);
    forall i | 0 <= i < |keys| ensures LinkedIn(groups)[i] == Sizes(n, db.records, keys)[i] {
      GroupOfLinked(n, db, keys[i]);
      AllMembersLinked(Members(n, db.records, keys[i]), Target(db, keys[i]));
    }
    assert LinkedIn(groups) == Sizes(n, db.records, keys);
    GroupsPartition(n, db.records);
    AllNamed(n, db.records);
  }

  lemma {:induction false} NoGroupToCreate(groups: seq<Group>)
    requires forall i :: 0 <= i < |groups| ==> groups[i].staffId.Some?
    ensures CountGroups(groups, false) == 0
  {
    if |groups| > 0 { NoGroupToCreate(groups[..|groups| - 1]); }
  }

  lemma {:induction false} ApplyingAgain(db: Db, groups: seq<Group>, k: nat)
    requires k <= |groups| && forall i :: 0 <= i < |groups| ==> groups[i].staffId.Some?
    requires forall i :: 0 <= i < |db.records| ==> db.records[i].staffId.Some?
    ensures ApplyGroups(db, groups, k) == db
  {
    if k > 0 {
      ApplyingAgain(db, groups, k - 1);
      assert LinkRecords(db.records, groups[k - 1].key, groups[k - 1].staffId.value) == db.records;
    }
  }

  /** A fully linked history has a ready plan with nothing pending, and applying it changes nothing. */
  lemma LinkedIsFixedPoint(n: Names, db: Db)
    requires MappingsKnown(db) && Consistent(n, db) && FullyLinked(n, db)
    ensures var plan := PlanOf(n, db);
            && Ready(plan) && plan.pending == 0 && plan.created == 0
            && ApplyPlan(n, db, plan.checksum) == Success(db)
  {
    var groups := GroupsOf(n, db);
    LinkedHasNoIssues(n, db);
    LinkedIsSettled(n, db);
    forall i | 0 <= i < |groups| ensures groups[i].staffId.Some? {
      GroupOfLinked(n, db, Keys(n, db.records)[i]);
    }
    NoGroupToCreate(groups);
    ApplyingAgain(db, groups, |groups|);
    AllLinked(db.records);
  }

  /**
   Applying a ready plan links every record and creates exactly the staff it announced; the checksum
   still holds, the plan made afterwards is ready with nothing pending, and applying the same
   checksum again succeeds and creates nothing.
   */
  lemma ApplyReachesFixedPoint(n: Names, db: Db)
    requires MappingsKnown(db) && Ready(PlanOf(n, db))
    ensures var plan := PlanOf(n, db);
            var r := ApplyPlan(n, db, plan.checksum);
            && r.Success? && MappingsKnown(r.value) && FullyLinked(n, r.value)
            && |r.value.staff| == |db.staff| + plan.created
            && PlanOf(n, r.value).checksum == plan.checksum
            && Ready(PlanOf(n, r.value)) && PlanOf(n, r.value).pending == 0
            && ApplyPlan(n, r.value, plan.checksum) == Success(r.value)
  {
    ReadyIsConsistent(n, db);
    ReadyPlanApplies(n, db);
    var now := ApplyPlan(n, db, PlanOf(n, db).checksum).value;
    StaffCreatedByPlan(n, db);
    SameChecksum(n, db, now);
    LinkedIsFixedPoint(n, now);
  }

  lemma StaffCreatedByPlan(n: Names, db: Db)
    requires MappingsKnown(db) && ApplyPlan(n, db, PlanOf(n, db).checksum).Success?
    ensures |ApplyPlan(n, db, PlanOf(n, db).checksum).value.staff| == |db.staff| + PlanOf(n, db).created
  {
    var groups := GroupsOf(n, db);
    StaffCreated(db, groups, |groups|);
    assert groups[..|groups|] == groups;
  }

  // ---- The plan and its application, step by step ----

  lemma {:induction false} TakeNext(n: Names, records: seq<Record>, i: nat, key: Key)
    requires i < |records|
    ensures records[..i + 1][..i] == records[..i]
    ensures Keys(n, records[..i + 1])
         == if !Named(n, records[i]) || KeyOf(records[i]).value in Keys(n, records[..i]) then Keys(n, records[..i])
            else Keys(n, records[..i]) + [KeyOf(records[i]).value]
    ensures Members(n, records[..i + 1], key)
         == Members(n, records[..i], key)
            + (if Named(n, records[i]) && KeyOf(records[i]) == Some(key) then [records[i]] else [])
  {
    assert records[..i + 1][..i] == records[..i];
  }

  ghost predicate Grouped(n: Names, records: seq<Record>, order: seq<Key>, grouped: map<Key, seq<Record>>) {
    order == Keys(n, records) && forall key :: key in order ==> key in grouped && grouped[key] == Members(n, records, key)
  }

  /** One more record joins the group of its identity, or starts one. */
  method GroupRecord(n: Names, records: seq<Record>, i: nat, order: seq<Key>, grouped: map<Key, seq<Record>>)
    returns (order': seq<Key>, grouped': map<Key, seq<Record>>)
    requires i < |records| && Named(n, records[i]) && Grouped(n, records[..i], order, grouped)
    ensures Grouped(n, records[..i + 1], order', grouped')
  {
    var key := KeyOf(records[i]).value;
    TakeNext(n, records, i, key);
    forall k | k in order && k != key ensures Members(n, records[..i + 1], k) == Members(n, records[..i], k) {
      TakeNext(n, records, i, k);
    }
    if key in order {
      order', grouped' := order, grouped[key := grouped[key] + [records[i]]];
    } else {
      OnlyMembersOfKeys(n, records[..i], key);
      order', grouped' := order + [key], grouped[key := [records[i]]];
    }
  }

  method GroupRecords(n: Names, records: seq<Record>) returns (order: seq<Key>, grouped: map<Key, seq<Record>>, unnamed: bool)
    ensures Grouped(n, records, order, grouped)
    ensures unnamed == SomeUnnamed(n, records)
  {
    order, grouped, unnamed := [], map[], false;
    for i := 0 to |records|
      invariant Grouped(n, records[..i], order, grouped)
      invariant unnamed == SomeUnnamed(n, records[..i])
    {
      assert records[..i + 1] == records[..i] + [records[i]];
      if Named(n, records[i]) {
        order, grouped := GroupRecord(n, records, i, order, grouped);
      } else {
        forall key | key in order ensures Members(n, records[..i + 1], key) == Members(n, records[..i], key) {
          TakeNext(n, records, i, key);
        }
        TakeNext(n, records, i, Label(""));
        unnamed := true;
      }
    }
    assert records[..|records|] == records;
  }

  /** Builds the plan as the handler does: groups in one pass, then each group's entry and its issues. */
  method BuildPlan(n: Names, db: Db) returns (plan: Plan)
    requires MappingsKnown(db)
    ensures plan == PlanOf(n, db)
  {
    var order, grouped, unnamed := GroupRecords(n, db.records);
    var groups, own := BuildGroups(n, db, order, grouped);
    var issues := AddGlobalIssues(unnamed, own, |db.records|);
    var linked := Sum(LinkedIn(groups));
    plan := Plan(ChecksumOf(n, db), |db.records|, linked, |db.records| - linked, CountGroups(groups, true),
                 CountGroups(groups, false), groups, issues);
  }

  method AddGlobalIssues(unnamed: bool, own: set<Issue>, count: nat) returns (issues: set<Issue>)
    ensures issues == WithGlobalIssues(unnamed, own, count)
  {
    issues := own;
    if unnamed { issues := issues + {NoName}; }
    if count == 0 { issues := issues + {NothingToLink}; }
    if count > MAX_RECORDS { issues := issues + {TooMany}; }
  }

  method BuildGroups(n: Names, db: Db, order: seq<Key>, grouped: map<Key, seq<Record>>) returns (groups: seq<Group>, issues: set<Issue>)
    requires MappingsKnown(db) && Grouped(n, db.records, order, grouped)
    ensures groups == GroupsOf(n, db) && issues == Union(AllGroupIssues(n, db))
  {
    ghost var all, spec := AllGroupIssues(n, db), GroupsOf(n, db);
    groups, issues := [], {};
    for j := 0 to |order|
      invariant groups == spec[..j] && issues == Union(all[..j])
    {
      var g, own := BuildGroupAt(n, db, order[j], grouped[order[j]]);
      assert spec[j] == g && all[j] == own;
      groups := groups + [g];
      issues := issues + own;
      assert all[..j + 1][..j] == all[..j];
    }
    assert all[..|order|] == all && spec[..|order|] == spec;
  }

  method BuildGroupAt(n: Names, db: Db, key: Key, ms: seq<Record>) returns (g: Group, issues: set<Issue>)
    requires MappingsKnown(db) && key in Keys(n, db.records) && ms == Members(n, db.records, key)
    ensures g == GroupOf(n, db, key) && issues == GroupIssues(n, db, key)
  {
    GroupNonempty(n, db.records, key);
    g, issues := BuildGroup(n, db.staff, key, ms, if key in db.mappings then Some(db.mappings[key]) else None);
  }

  method BuildGroup(n: Names, staff: seq<Staff>, key: Key, ms: seq<Record>, target: Option<nat>) returns (g: Group, issues: set<Issue>)
    requires |ms| > 0 && ms[0].staffName.Some? && (target.Some? ==> target.value < |staff|)
    ensures g == MakeGroup(n, staff, key, ms, target) && issues == OwnIssues(n, staff, key, ms, g)
  {
    var name := ms[0].staffName.value;
    var linked, elsewhere := CountLinks(ms, target);
    issues := {};
    if NamesDiffer(ms, name) { issues := issues + {SeveralNames}; }
    if key.Publication? && target.None? { issues := issues + {UnknownPublication}; }
    if key.Label? && target.None? && Taken(n, staff, name) { issues := issues + {NameTaken}; }
    if elsewhere { issues := issues + {OtherStaff}; }
    g := Group(key, name, |ms|, target, if target.Some? then staff[target.value].roomResource else n.room(name), linked);
  }

  method CountLinks(ms: seq<Record>, target: Option<nat>) returns (linked: nat, elsewhere: bool)
    ensures linked == CountLinked(ms, target) && elsewhere == LinkedElsewhere(ms, target)
  {
    linked, elsewhere := 0, false;
    for i := 0 to |ms|
      invariant linked == CountLinked(ms[..i], target) && elsewhere == LinkedElsewhere(ms[..i], target)
    {
      assert ms[..i + 1][..i] == ms[..i] && ms[..i + 1] == ms[..i] + [ms[i]];
      if target.Some? && ms[i].staffId == target { linked := linked + 1; }
      if ms[i].staffId.Some? && ms[i].staffId != target { elsewhere := true; }
    }
    assert ms[..|ms|] == ms;
  }

  class Linker {
    var records: seq<Record>
    var staff: seq<Staff>
    var mappings: map<Key, nat>

    function State(): Db
      reads this
    {
      Db(records, staff, mappings)
    }

    constructor (db: Db)
      ensures State() == db
    {
      records, staff, mappings := db.records, db.staff, db.mappings;
    }

    method Apply(n: Names, checksum: Checksum) returns (refusal: Option<string>)
      requires MappingsKnown(State())
      modifies this
      ensures match ApplyPlan(n, old(State()), checksum)
              case Success(db) => refusal.None? && State() == db
              case Failure(code) => refusal == Some(code) && State() == old(State())
    {
      var before := State();
      var plan := BuildPlan(n, before);
      if checksum != plan.checksum { return Some("CHANGED"); }
      if plan.issues != {} { return Some("NOT_READY"); }
      LinkGroups(plan.groups);
      if Linked(records) != plan.total {
        records, staff, mappings := before.records, before.staff, before.mappings;
        return Some("INCOMPLETE");
      }
      return None;
    }

    method LinkGroups(groups: seq<Group>)
      modifies this
      ensures State() == ApplyGroups(old(State()), groups, |groups|)
    {
      for k := 0 to |groups|
        invariant State() == ApplyGroups(old(State()), groups, k)
      {
        LinkGroup(groups[k]);
      }
    }

    method LinkGroup(g: Group)
      modifies this
      ensures State() == ApplyGroup(old(State()), g)
    {
      var staffId := |staff|;
      if g.staffId.Some? {
        staffId := g.staffId.value;
      } else {
        staff := staff + [Staff(g.name, g.roomResource, false)];
        mappings := mappings[g.key := staffId];
      }
      records := LinkRecords(records, g.key, staffId);
    }
  }
}
