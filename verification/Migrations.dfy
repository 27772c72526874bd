/** What revisions 0023, 0024 and 0025 do to the data, upwards and downwards. */
module Migrations {
  import opened Wrappers
  import opened Schema

  // ---- 0023 ------------------------------------------------------------------------------------------

  const LEGACY_NOTE := "Legacy applied import accepted during Sprint 48 migration"
  const BACKFILL_NOTE := "Sprint 48 migration backfill"

  const NEW_REVIEW := Review("pending", None, None, None, "[]", None)
  const NEW_OPERATIONS := Operations("open", None, None, None, None)

  /** The CASE expressions of the first UPDATE. */
  function Backfilled(r: Import): Import
    requires r.review.Some?
  {
    var v := r.review.value;
    r.(review := Some(v.(
      status := if r.status == "applied" then "approved" else "pending",
      reviewedBy := if r.status == "applied" then r.appliedBy else v.reviewedBy,
      reviewedAt := if r.status == "applied" then r.appliedAt else v.reviewedAt,
      note := if r.status == "applied" then Some(LEGACY_NOTE) else v.note)))
  }

  /** The CASE expression of the second UPDATE. */
  function Queued(r: Settlement): Settlement
    requires r.operations.Some?
  {
    r.(operations := Some(r.operations.value.(status := if r.status == "reconciled" then "review" else "open")))
  }

  function DefaultPolicy(z: Zone, now: int): Policy {
    Policy(true, Some(8), Some(12), true, 80.0, 95.0, 30.0, 5, Some(BACKFILL_NOTE),
           z.createdBy, z.createdBy, now, now, None)
  }

  function ReviewColumns(t: map<Id, Import>): (u: map<Id, Import>)
    ensures u.Keys == t.Keys && forall k :: k in t ==> u[k] == t[k].(review := Some(NEW_REVIEW))
  {
    map k | k in t :: t[k].(review := Some(NEW_REVIEW))
  }

  function BackfillAll(t: map<Id, Import>): (u: map<Id, Import>)
    requires forall k :: k in t ==> t[k].review.Some?
    ensures u.Keys == t.Keys && forall k :: k in t ==> u[k] == Backfilled(t[k])
  {
    map k | k in t :: Backfilled(t[k])
  }

  function Up23Imports(t: map<Id, Import>): map<Id, Import> {
    BackfillAll(ReviewColumns(t))
  }

  function OperationsColumns(t: map<Id, Settlement>): (u: map<Id, Settlement>)
    ensures u.Keys == t.Keys && forall k :: k in t ==> u[k] == t[k].(operations := Some(NEW_OPERATIONS))
  {
    map k | k in t :: t[k].(operations := Some(NEW_OPERATIONS))
  }

  function QueueAll(t: map<Id, Settlement>): (u: map<Id, Settlement>)
    requires forall k :: k in t ==> t[k].operations.Some?
    ensures u.Keys == t.Keys && forall k :: k in t ==> u[k] == Queued(t[k])
  {
    map k | k in t :: Queued(t[k])
  }

  function Up23Settlements(t: map<Id, Settlement>): map<Id, Settlement> {
    QueueAll(OperationsColumns(t))
  }

  function Up23Policies(zones: map<Id, Zone>, now: int): map<Id, Policy> {
    map z | z in zones :: DefaultPolicy(zones[z], now)
  }

  function Up23(db: Db, now: int): Db {
    db.(imports := Up23Imports(db.imports), settlements := Up23Settlements(db.settlements),
        policies := Some(Up23Policies(db.zones, now)), others := db.others + OTHERS_23, trafficAllowed := true)
  }

  function Down23Imports(t: map<Id, Import>): map<Id, Import> {
    map k | k in t :: t[k].(review := None)
  }

  function Down23Settlements(t: map<Id, Settlement>): map<Id, Settlement> {
    map k | k in t :: t[k].(operations := None)
  }

  function Down23(db: Db): Db {
    db.(imports := Down23Imports(db.imports), settlements := Down23Settlements(db.settlements), policies := None,
        others := db.others - OTHERS_23, trafficAllowed := false)
  }

  // ---- 0024 ------------------------------------------------------------------------------------------

  function Up24(db: Db): Db {
    db.(launches := Some(map[]), closes := Some(map[]), packs := Some(map[]), others := db.others + OTHERS_24,
        preparerRequired := true)
  }

  function Down24(db: Db): Db {
    db.(launches := None, closes := None, packs := None, others := db.others - OTHERS_24, preparerRequired := false)
  }

  // ---- 0025 ------------------------------------------------------------------------------------------

  const NEW_SLO := Slo(false, 2)
  const NEW_TRIGGER := Trigger("admin", None, "{}")
  const NEW_CADENCE := Cadence(false, None, None)
  const NEW_RETENTION := Retention("working", None)

  /** The retention UPDATE. */
  function Classified(r: Pack): Pack
    requires r.retention.Some?
  {
    if r.status == "complete" then r.(retention := Some(r.retention.value.(class_ := "final"))) else r
  }

  function Up25Policies(t: map<Id, Policy>): map<Id, Policy> {
    map z | z in t :: t[z].(slo := Some(NEW_SLO))
  }

  function Up25Rollouts(t: map<Id, Rollout>): map<Id, Rollout> {
    map k | k in t :: t[k].(trigger := Some(NEW_TRIGGER))
  }

  function Up25Closes(t: map<Id, Close>): map<Id, Close> {
    map k | k in t :: t[k].(cadence := Some(NEW_CADENCE))
  }

  function RetentionColumns(t: map<Id, Pack>): (u: map<Id, Pack>)
    ensures u.Keys == t.Keys && forall k :: k in t ==> u[k] == t[k].(retention := Some(NEW_RETENTION))
  {
    map k | k in t :: t[k].(retention := Some(NEW_RETENTION))
  }

  function ClassifyAll(t: map<Id, Pack>): (u: map<Id, Pack>)
    requires forall k :: k in t ==> t[k].retention.Some?
    ensures u.Keys == t.Keys && forall k :: k in t ==> u[k] == Classified(t[k])
  {
    map k | k in t :: Classified(t[k])
  }

  function Up25Packs(t: map<Id, Pack>): map<Id, Pack> {
    ClassifyAll(RetentionColumns(t))
  }

  function Up25(db: Db): Db
    requires db.policies.Some? && db.closes.Some? && db.packs.Some?
  {
    db.(policies := Some(Up25Policies(db.policies.value)), rollouts := Up25Rollouts(db.rollouts),
        closes := Some(Up25Closes(db.closes.value)), packs := Some(Up25Packs(db.packs.value)),
        others := db.others + OTHERS_25, preparerRequired := false)
  }

  function Down25Policies(t: map<Id, Policy>): map<Id, Policy> {
    map z | z in t :: t[z].(slo := None)
  }

  function Down25Rollouts(t: map<Id, Rollout>): map<Id, Rollout> {
    map k | k in t :: t[k].(trigger := None)
  }

  function Down25Closes(t: map<Id, Close>): map<Id, Close> {
    map k | k in t :: t[k].(cadence := None)
  }

  function Down25Packs(t: map<Id, Pack>): map<Id, Pack> {
    map k | k in t :: t[k].(retention := None)
  }

  function Down25(db: Db): Db
    requires db.policies.Some? && db.closes.Some? && db.packs.Some?
  {
    db.(policies := Some(Down25Policies(db.policies.value)), rollouts := Down25Rollouts(db.rollouts),
        closes := Some(Down25Closes(db.closes.value)), packs := Some(Down25Packs(db.packs.value)),
        others := db.others - OTHERS_25, preparerRequired := true)
  }

  // ---- Every upgrade leads to a valid database ----------------------------------------------------------

  lemma ImportsUp23(t: map<Id, Import>, users: set<Id>, programs: set<Id>)
    requires ImportsOk(t, users, programs, 22)
    ensures ImportsOk(Up23Imports(t), users, programs, 23) && Down23Imports(Up23Imports(t)) == t
  {
    forall k | k in t
      ensures ImportOk(Up23Imports(t)[k], users, programs, 23) && Down23Imports(Up23Imports(t))[k] == t[k]
    {
      assert ImportOk(t[k], users, programs, 22);
    }
  }

  lemma SettlementsUp23(t: map<Id, Settlement>, users: set<Id>, programs: set<Id>)
    requires SettlementsOk(t, users, programs, 22)
    ensures SettlementsOk(Up23Settlements(t), users, programs, 23) && Down23Settlements(Up23Settlements(t)) == t
  {
    forall k | k in t
      ensures SettlementOk(Up23Settlements(t)[k], users, programs, 23)
              && Down23Settlements(Up23Settlements(t))[k] == t[k]
    {
      assert SettlementOk(t[k], users, programs, 22);
    }
  }

  lemma PoliciesUp23(zones: map<Id, Zone>, users: set<Id>, now: int)
    requires ZonesOk(zones, users)
    ensures PoliciesOk(Up23Policies(zones, now), zones.Keys, users, 23) && Up23Policies(zones, now).Keys == zones.Keys
  {
    forall z | z in zones ensures PolicyOk(Up23Policies(zones, now)[z], users, 23) {
      assert Refers(zones[z].createdBy, users);
    }
  }

  lemma IncidentsUp23(t: map<Id, Incident>)
    requires IncidentsOk(t, false)
    ensures IncidentsOk(t, true)
  {
    forall k | k in t ensures IncidentOk(t[k], true) { assert IncidentOk(t[k], false); }
  }

  lemma RolloutsUnder(t: map<Id, Rollout>, zones: set<Id>, rev: nat, later: nat)
    requires rev < 25 && later < 25 && RolloutsOk(t, zones, rev)
    ensures RolloutsOk(t, zones, later)
  {
    forall k | k in t ensures RolloutOk(t[k], zones, later) { assert RolloutOk(t[k], zones, rev); }
  }

  lemma Up23Valid(db: Db, now: int)
    requires Valid(db, 22)
    ensures Valid(Up23(db, now), 23)
    ensures Up23(db, now).policies.value.Keys == db.zones.Keys
  {
    ImportsUp23(db.imports, db.users, db.programs);
    SettlementsUp23(db.settlements, db.users, db.programs);
    PoliciesUp23(db.zones, db.users, now);
    IncidentsUp23(db.incidents);
    RolloutsUnder(db.rollouts, db.zones.Keys, 22, 23);
  }

  /** Tables that a revision leaves alone read the same under the next one. */
  lemma UntouchedTables(db: Db, rev: nat)
    requires rev >= 23
    ensures ImportsOk(db.imports, db.users, db.programs, rev) <==> ImportsOk(db.imports, db.users, db.programs, 23)
    ensures SettlementsOk(db.settlements, db.users, db.programs, rev) <==>
              SettlementsOk(db.settlements, db.users, db.programs, 23)
  {
    forall k | k in db.imports
      ensures ImportOk(db.imports[k], db.users, db.programs, rev) <==>
                ImportOk(db.imports[k], db.users, db.programs, 23)
    {
    }
    forall k | k in db.settlements
      ensures SettlementOk(db.settlements[k], db.users, db.programs, rev) <==>
                SettlementOk(db.settlements[k], db.users, db.programs, 23)
    {
    }
  }

  lemma Up24Valid(db: Db)
    requires Valid(db, 23)
    ensures Valid(Up24(db), 24)
  {
    UntouchedTables(db, 24);
    RolloutsUnder(db.rollouts, db.zones.Keys, 23, 24);
    forall z | z in db.policies.value ensures PolicyOk(db.policies.value[z], db.users, 24) {
      assert PolicyOk(db.policies.value[z], db.users, 23);
    }
  }

  lemma PoliciesUp25(t: map<Id, Policy>, zones: set<Id>, users: set<Id>)
    requires PoliciesOk(t, zones, users, 24)
    ensures PoliciesOk(Up25Policies(t), zones, users, 25) && Down25Policies(Up25Policies(t)) == t
  {
    forall k | k in t ensures PolicyOk(Up25Policies(t)[k], users, 25) && Down25Policies(Up25Policies(t))[k] == t[k] {
      assert PolicyOk(t[k], users, 24);
    }
  }

  lemma RolloutsUp25(t: map<Id, Rollout>, zones: set<Id>)
    requires RolloutsOk(t, zones, 24)
    ensures RolloutsOk(Up25Rollouts(t), zones, 25) && Down25Rollouts(Up25Rollouts(t)) == t
  {
    forall k | k in t ensures RolloutOk(Up25Rollouts(t)[k], zones, 25) && Down25Rollouts(Up25Rollouts(t))[k] == t[k] {
      assert RolloutOk(t[k], zones, 24);
    }
  }

  lemma ClosesUp25(t: map<Id, Close>, launches: set<Id>, users: set<Id>)
    requires ClosesOk(t, launches, users, true, 24)
    ensures ClosesOk(Up25Closes(t), launches, users, false, 25) && Down25Closes(Up25Closes(t)) == t
  {
    forall k | k in t
      ensures CloseOk(Up25Closes(t)[k], launches, users, false, 25) && Down25Closes(Up25Closes(t))[k] == t[k]
    {
      assert CloseOk(t[k], launches, users, true, 24);
    }
  }

  lemma PacksUp25(t: map<Id, Pack>, launches: set<Id>, users: set<Id>)
    requires PacksOk(t, launches, users, 24)
    ensures PacksOk(Up25Packs(t), launches, users, 25) && Down25Packs(Up25Packs(t)) == t
  {
    forall k | k in t ensures PackOk(Up25Packs(t)[k], launches, users, 25) && Down25Packs(Up25Packs(t))[k] == t[k] {
      assert PackOk(t[k], launches, users, 24);
    }
  }

  lemma Up25Valid(db: Db)
    requires Valid(db, 24)
    ensures Valid(Up25(db), 25)
  {
    UntouchedTables(db, 24);
    UntouchedTables(db, 25);
    PoliciesUp25(db.policies.value, db.zones.Keys, db.users);
    RolloutsUp25(db.rollouts, db.zones.Keys);
    ClosesUp25(db.closes.value, db.launches.value.Keys, db.users);
    PacksUp25(db.packs.value, db.launches.value.Keys, db.users);
  }

  // ---- Every downgrade undoes its upgrade ---------------------------------------------------------------

  lemma Down23Undoes(db: Db, now: int)
    requires Valid(db, 22)
    ensures Down23(Up23(db, now)) == db
  {
    ImportsUp23(db.imports, db.users, db.programs);
    SettlementsUp23(db.settlements, db.users, db.programs);
    assert db.others + OTHERS_23 - OTHERS_23 == db.others;
  }

  lemma Down24Undoes(db: Db)
    requires Valid(db, 23)
    ensures Down24(Up24(db)) == db
  {
    assert db.others + OTHERS_24 - OTHERS_24 == db.others;
  }

  lemma Down25Undoes(db: Db)
    requires Valid(db, 24)
    ensures Down25(Up25(db)) == db
  {
    PoliciesUp25(db.policies.value, db.zones.Keys, db.users);
    RolloutsUp25(db.rollouts, db.zones.Keys);
    ClosesUp25(db.closes.value, db.launches.value.Keys, db.users);
    PacksUp25(db.packs.value, db.launches.value.Keys, db.users);
    assert db.others + OTHERS_25 - OTHERS_25 == db.others;
  }

  /** Upgrading any valid 0022 database through all three revisions gives a valid 0025 database with
    * exactly one traffic policy per zone, and the three downgrades bring back the original. */
  lemma ThereAndBack(db: Db, now: int)
    requires Valid(db, 22)
    ensures Up23(db, now).policies.Some? && Up24(Up23(db, now)).closes.Some? && Up24(Up23(db, now)).packs.Some?
    ensures var top := Up25(Up24(Up23(db, now)));
            && Valid(top, 25) && top.policies.value.Keys == db.zones.Keys
            && Down23(Down24(Down25(top))) == db
  {
    Up23Valid(db, now);
    Down23Undoes(db, now);
    Up24Valid(Up23(db, now));
    Down24Undoes(Up23(db, now));
    Up25Valid(Up24(Up23(db, now)));
    Down25Undoes(Up24(Up23(db, now)));
  }

  // ---- When a downgrade is possible after the system has been in use -----------------------------------

  lemma ImportsDown23(t: map<Id, Import>, users: set<Id>, programs: set<Id>)
    requires ImportsOk(t, users, programs, 23)
    ensures ImportsOk(Down23Imports(t), users, programs, 22)
  {
    forall k | k in t
      ensures ImportOk(Down23Imports(t)[k], users, programs, 22)
    {
      assert ImportOk(t[k], users, programs, 23);
    }
  }

  lemma SettlementsDown23(t: map<Id, Settlement>, users: set<Id>, programs: set<Id>)
    requires SettlementsOk(t, users, programs, 23)
    ensures SettlementsOk(Down23Settlements(t), users, programs, 22)
  {
    forall k | k in t ensures SettlementOk(Down23Settlements(t)[k], users, programs, 22) {
      assert SettlementOk(t[k], users, programs, 23);
    }
  }

  lemma IncidentsDown23(t: map<Id, Incident>)
    requires IncidentsOk(t, true)
    ensures IncidentsOk(t, false) <==> forall k :: k in t ==> t[k].category != "traffic"
  {
    forall k | k in t ensures IncidentOk(t[k], false) <==> t[k].category != "traffic" { assert IncidentOk(t[k], true); }
  }

  /** 0023 cannot be undone while a traffic incident exists; otherwise it always can. */
  lemma Down23ValidExactlyWhen(db: Db)
    requires Valid(db, 23)
    ensures Valid(Down23(db), 22) <==> forall k :: k in db.incidents ==> db.incidents[k].category != "traffic"
  {
    ImportsDown23(db.imports, db.users, db.programs);
    SettlementsDown23(db.settlements, db.users, db.programs);
    IncidentsDown23(db.incidents);
    RolloutsUnder(db.rollouts, db.zones.Keys, 23, 22);
    assert Down23(db).others == {};
  }

  lemma PoliciesDown25(t: map<Id, Policy>, zones: set<Id>, users: set<Id>)
    requires PoliciesOk(t, zones, users, 25)
    ensures PoliciesOk(Down25Policies(t), zones, users, 24)
  {
    forall k | k in t ensures PolicyOk(Down25Policies(t)[k], users, 24) { assert PolicyOk(t[k], users, 25); }
  }

  lemma RolloutsDown25(t: map<Id, Rollout>, zones: set<Id>)
    requires RolloutsOk(t, zones, 25)
    ensures RolloutsOk(Down25Rollouts(t), zones, 24)
  {
    forall k | k in t ensures RolloutOk(Down25Rollouts(t)[k], zones, 24) { assert RolloutOk(t[k], zones, 25); }
  }

  lemma ClosesDown25(t: map<Id, Close>, launches: set<Id>, users: set<Id>)
    requires ClosesOk(t, launches, users, false, 25)
    ensures ClosesOk(Down25Closes(t), launches, users, true, 24) <==> forall k :: k in t ==> t[k].preparedBy.Some?
  {
    var u := Down25Closes(t);
    forall k | k in t ensures CloseOk(u[k], launches, users, true, 24) <==> t[k].preparedBy.Some? {
      assert CloseOk(t[k], launches, users, false, 25);
    }
    assert u.Keys == t.Keys;
  }

  lemma PacksDown25(t: map<Id, Pack>, launches: set<Id>, users: set<Id>)
    requires PacksOk(t, launches, users, 25)
    ensures PacksOk(Down25Packs(t), launches, users, 24)
  {
    forall k | k in t
      ensures PackOk(Down25Packs(t)[k], launches, users, 24)
    {
      assert PackOk(t[k], launches, users, 25);
    }
  }

  /** 0025 cannot be undone while a close without a human preparer exists; otherwise it always can. */
  lemma Down25ValidExactlyWhen(db: Db)
    requires Valid(db, 25)
    ensures Valid(Down25(db), 24) <==> forall k :: k in db.closes.value ==> db.closes.value[k].preparedBy.Some?
  {
    UntouchedTables(db, 24);
    UntouchedTables(db, 25);
    PoliciesDown25(db.policies.value, db.zones.Keys, db.users);
    RolloutsDown25(db.rollouts, db.zones.Keys);
    ClosesDown25(db.closes.value, db.launches.value.Keys, db.users);
    PacksDown25(db.packs.value, db.launches.value.Keys, db.users);
    assert Down25(db).others == OthersAt(24);
  }

  // ---- Databases that cannot be taken back ------------------------------------------------------------------

  const WITH_TRAFFIC := Db(
    {}, {}, map[], map[], map[], map[0 := Incident("traffic", "open")], map[], Some(map[]), None, None, None,
    OTHERS_23, true, false)

  /** A valid 0023 database that 0023 cannot be undone on: one open traffic incident. */
  lemma TrafficBlocksDowngrade()
    ensures Valid(WITH_TRAFFIC, 23) && !Valid(Down23(WITH_TRAFFIC), 22)
  {
    assert IncidentOk(WITH_TRAFFIC.incidents[0], true);
    assert !IncidentOk(Down23(WITH_TRAFFIC).incidents[0], false);
  }

  const BY_SYSTEM := Close(3, 20000, "draft", None, Some(Cadence(true, Some(1), None)))

  const WITH_SYSTEM_CLOSE := Db(
    {}, {1}, map[2 := Zone("Nasr City", None)], map[], map[], map[], map[], Some(map[]),
    Some(map[3 := Launch(1, 2, "active")]), Some(map[4 := BY_SYSTEM]), Some(map[]),
    OTHERS_23 + OTHERS_24 + OTHERS_25, true, false)

  /** A valid 0025 database that 0025 cannot be undone on: one close that the system prepared. */
  lemma SystemCloseBlocksDowngrade()
    ensures Valid(WITH_SYSTEM_CLOSE, 25) && !Valid(Down25(WITH_SYSTEM_CLOSE), 24)
  {
    var db := WITH_SYSTEM_CLOSE;
    assert CloseOk(BY_SYSTEM, {3}, {}, false, 25);
    assert db.launches.value.Keys == {3} && db.zones.Keys == {2};
    Down25ValidExactlyWhen(db);
    assert db.closes.value[4].preparedBy.None?;
  }

  // ---- All the way down -------------------------------------------------------------------------------------

  lemma Down24Valid(db: Db)
    requires Valid(db, 24)
    ensures Valid(Down24(db), 23)
  {
    UntouchedTables(db, 24);
    RolloutsUnder(db.rollouts, db.zones.Keys, 24, 23);
    forall z | z in db.policies.value ensures PolicyOk(db.policies.value[z], db.users, 23) {
      assert PolicyOk(db.policies.value[z], db.users, 24);
    }
    assert Down24(db).others == OthersAt(23);
  }

  predicate EveryClosePrepared(db: Db)
    requires db.closes.Some?
  {
    forall k :: k in db.closes.value ==> db.closes.value[k].preparedBy.Some?
  }

  predicate NoTrafficIncident(db: Db) {
    forall k :: k in db.incidents ==> db.incidents[k].category != "traffic"
  }

  lemma WithoutClosesValid(db: Db)
    requires Valid(db, 25)
    ensures Valid(db.(closes := Some(map[])), 25)
  {
  }

  /** From any 0025 database the three downgrades can be made one after the other, each ending in a valid
    * database, exactly when every close has a preparer and no traffic incident exists. The closes matter
    * for the first of them only: what is left at the end is valid exactly when no traffic incident exists. */
  lemma AllTheWayDown(db: Db)
    requires Valid(db, 25)
    ensures (Valid(Down25(db), 24) && Valid(Down24(Down25(db)), 23) && Valid(Down23(Down24(Down25(db))), 22))
            <==> EveryClosePrepared(db) && NoTrafficIncident(db)
    ensures Valid(Down23(Down24(Down25(db))), 22) <==> NoTrafficIncident(db)
  {
    Down25ValidExactlyWhen(db);
    var bare := db.(closes := Some(map[]));
    WithoutClosesValid(db);
    Down25ValidExactlyWhen(bare);
    assert Down24(Down25(bare)) == Down24(Down25(db));
    Down24Valid(Down25(bare));
    Down23ValidExactlyWhen(Down24(Down25(db)));
  }

  // ---- What the new columns hold ------------------------------------------------------------------------------

  lemma WhatImportsGet(t: map<Id, Import>, k: Id)
    requires k in t
    ensures k in Up23Imports(t)
    ensures Up23Imports(t)[k]
            == t[k].(review := Some(
                       if t[k].status == "applied"
                       then Review("approved", None, t[k].appliedBy,
                                   Some("Legacy applied import accepted during Sprint 48 migration"), "[]",
                                   t[k].appliedAt)
                       else Review("pending", None, None, None, "[]", None)))
  {
  }

  lemma WhatSettlementsGet(t: map<Id, Settlement>, k: Id)
    requires k in t
    ensures k in Up23Settlements(t)
    ensures Up23Settlements(t)[k]
            == t[k].(operations := Some(Operations(if t[k].status == "reconciled" then "review" else "open",
                                                   None, None, None, None)))
  {
  }

  /** What revision 0023 writes: imports applied before it count as approved by whoever applied them, and all
    * others await review; reconciled settlements are up for review and all others are open; and every zone
    * gets the default policy, in the name of the zone's creator. All other columns stay as they were. */
  lemma WhatRevision23Writes(db: Db, now: int, up: Db, k: Id)
    requires up == Up23(db, now)
    ensures up.imports.Keys == db.imports.Keys && up.settlements.Keys == db.settlements.Keys
    ensures up.policies.Some? && up.policies.value.Keys == db.zones.Keys
    ensures k in db.imports ==>
              up.imports[k] == db.imports[k].(review := Some(
                if db.imports[k].status == "applied"
                then Review("approved", None, db.imports[k].appliedBy,
                            Some("Legacy applied import accepted during Sprint 48 migration"), "[]",
                            db.imports[k].appliedAt)
                else Review("pending", None, None, None, "[]", None)))
    ensures k in db.settlements ==>
              up.settlements[k] == db.settlements[k].(operations := Some(
                Operations(if db.settlements[k].status == "reconciled" then "review" else "open",
                           None, None, None, None)))
    ensures k in db.zones ==>
              up.policies.value[k]
              == Policy(true, Some(8), Some(12), true, 80.0, 95.0, 30.0, 5, Some("Sprint 48 migration backfill"),
                        db.zones[k].createdBy, db.zones[k].createdBy, now, now, None)
  {
    if k in db.imports { WhatImportsGet(db.imports, k); }
    if k in db.settlements { WhatSettlementsGet(db.settlements, k); }
  }

  /** A revision leaves the tables alone that it does not name. */
  lemma UpgradesTouchOnlyTheirTables(db: Db, now: int)
    ensures var up := Up23(db, now);
            && up.users == db.users && up.programs == db.programs && up.zones == db.zones
            && up.incidents == db.incidents && up.rollouts == db.rollouts
            && up.launches == db.launches && up.closes == db.closes && up.packs == db.packs
    ensures db.policies.Some? && db.closes.Some? && db.packs.Some? ==>
              var up := Up25(db);
              && up.users == db.users && up.programs == db.programs && up.zones == db.zones
              && up.imports == db.imports && up.settlements == db.settlements && up.incidents == db.incidents
              && up.launches == db.launches
  {
  }

  lemma WhatPacksGet(t: map<Id, Pack>, k: Id)
    requires k in t
    ensures k in Up25Packs(t)
    ensures Up25Packs(t)[k]
            == t[k].(retention := Some(Retention(if t[k].status == "complete" then "final" else "working", None)))
  {
  }

  /** What revision 0025 writes: complete packs become final and all others working, none with an end; no close
    * is in the cadence; policies do not pause by themselves; and past rollouts were the administrators'. */
  lemma WhatRevision25Writes(db: Db, up: Db, k: Id)
    requires db.policies.Some? && db.closes.Some? && db.packs.Some? && up == Up25(db)
    ensures up.packs.Some? && up.packs.value.Keys == db.packs.value.Keys
    ensures up.closes.Some? && up.closes.value.Keys == db.closes.value.Keys
    ensures up.policies.Some? && up.policies.value.Keys == db.policies.value.Keys
    ensures up.rollouts.Keys == db.rollouts.Keys
    ensures k in db.packs.value ==>
              up.packs.value[k] == db.packs.value[k].(retention := Some(
                Retention(if db.packs.value[k].status == "complete" then "final" else "working", None)))
    ensures k in db.closes.value ==>
              up.closes.value[k] == db.closes.value[k].(cadence := Some(Cadence(false, None, None)))
    ensures k in db.policies.value ==>
              up.policies.value[k] == db.policies.value[k].(slo := Some(Slo(false, 2)))
    ensures k in db.rollouts ==>
              up.rollouts[k] == db.rollouts[k].(trigger := Some(Trigger("admin", None, "{}")))
  {
    if k in db.packs.value { WhatPacksGet(db.packs.value, k); }
  }

  /** The three downgrades take away nothing but what the three revisions brought: every other row and every
    * other column is still there, however the database has been used in between. */
  lemma DowngradesLoseOnlyTheNew(db: Db, low: Db, k: Id)
    requires db.policies.Some? && db.closes.Some? && db.packs.Some? && low == Down23(Down24(Down25(db)))
    ensures && low == db.(imports := low.imports, settlements := low.settlements, rollouts := low.rollouts,
                          policies := None, launches := None, closes := None, packs := None,
                          others := low.others, trafficAllowed := false, preparerRequired := false)
            && low.imports.Keys == db.imports.Keys && low.settlements.Keys == db.settlements.Keys
            && low.rollouts.Keys == db.rollouts.Keys
    ensures k in db.imports ==> low.imports[k] == db.imports[k].(review := None)
    ensures k in db.settlements ==>
              low.settlements[k] == db.settlements[k].(operations := None)
    ensures k in db.rollouts ==> low.rollouts[k] == db.rollouts[k].(trigger := None)
  {
  }
}
