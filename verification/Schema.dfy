/** The tables that revisions 0023, 0024 and 0025 change, with the keys, foreign keys and checks they
  * declare. Columns a revision adds are grouped, and absent before it. */
module Schema {
  import opened Wrappers

  type Id = nat

  datatype Review = Review(
    status: string, assignee: Option<Id>, reviewedBy: Option<Id>, note: Option<string>, riskFlags: string,
    reviewedAt: Option<int>)

  datatype Import = Import(
    provider: string, reference: string, program: Option<Id>, status: string, rowsCount: int,
    createdBy: Option<Id>, appliedBy: Option<Id>, appliedAt: Option<int>, review: Option<Review>)

  datatype Operations = Operations(
    status: string, assignee: Option<Id>, closedBy: Option<Id>, note: Option<string>, closedAt: Option<int>)

  datatype Settlement = Settlement(
    provider: string, reference: string, program: Option<Id>, status: string, rowsCount: int, matched: int,
    mismatched: int, createdBy: Option<Id>, operations: Option<Operations>)

  datatype Zone = Zone(area: string, createdBy: Option<Id>)

  datatype Slo = Slo(autoPause: bool, redSnapshots: int)

  datatype Policy = Policy(
    enabled: bool, hourlyCap: Option<int>, chefDailyCap: Option<int>, enforceBucket: bool, warningPct: real,
    criticalPct: real, rejectionPct: real, minAttempts: int, note: Option<string>, createdBy: Option<Id>,
    updatedBy: Option<Id>, createdAt: int, updatedAt: int, slo: Option<Slo>)

  datatype Incident = Incident(category: string, status: string)

  datatype Trigger = Trigger(source: string, reason: Option<string>, evidence: string)

  datatype Rollout = Rollout(zone: Id, fromStage: string, toStage: string, trigger: Option<Trigger>)

  datatype Launch = Launch(program: Id, zone: Id, status: string)

  datatype Cadence = Cadence(preparedBySystem: bool, dueAt: Option<int>, overdueAt: Option<int>)

  datatype Close = Close(session: Id, date: int, status: string, preparedBy: Option<Id>, cadence: Option<Cadence>)

  datatype Retention = Retention(class_: string, until: Option<int>)

  datatype Pack = Pack(session: Id, status: string, generatedBy: Id, generatedAt: int, retention: Option<Retention>)

  /** A database. A table that a revision creates is None before it. `others` names the created tables
    * whose rows no migration touches. `trafficAllowed` and `preparerRequired` are the two constraints
    * that a revision relaxes. */
  datatype Db = Db(
    users: set<Id>,
    programs: set<Id>,
    zones: map<Id, Zone>,
    imports: map<Id, Import>,
    settlements: map<Id, Settlement>,
    incidents: map<Id, Incident>,
    rollouts: map<Id, Rollout>,
    policies: Option<map<Id, Policy>>,
    launches: Option<map<Id, Launch>>,
    closes: Option<map<Id, Close>>,
    packs: Option<map<Id, Pack>>,
    others: set<string>,
    trafficAllowed: bool,
    preparerRequired: bool
  )

  predicate Refers(x: Option<Id>, ids: set<Id>) {
    x.Some? ==> x.value in ids
  }

  // ---- Rows ------------------------------------------------------------------------------------------

  predicate ReviewOk(v: Review, users: set<Id>) {
    && v.status in {"pending", "assigned", "approved", "rejected"}
    && Refers(v.assignee, users) && Refers(v.reviewedBy, users)
  }

  predicate ImportOk(r: Import, users: set<Id>, programs: set<Id>, rev: nat) {
    && r.status in {"draft", "validated", "applied", "failed"} && r.rowsCount >= 0
    && Refers(r.program, programs) && Refers(r.createdBy, users) && Refers(r.appliedBy, users)
    && (r.review.Some? <==> rev >= 23)
    && (r.review.Some? ==> ReviewOk(r.review.value, users))
  }

  predicate OperationsOk(o: Operations, users: set<Id>) {
    && o.status in {"open", "review", "closed", "reopened"}
    && Refers(o.assignee, users) && Refers(o.closedBy, users)
  }

  predicate SettlementOk(r: Settlement, users: set<Id>, programs: set<Id>, rev: nat) {
    && r.status in {"draft", "reconciled", "blocked"} && r.rowsCount >= 0
    && Refers(r.program, programs) && Refers(r.createdBy, users)
    && (r.operations.Some? <==> rev >= 23)
    && (r.operations.Some? ==> OperationsOk(r.operations.value, users))
  }

  predicate Percent(x: real) { 0.0 < x <= 100.0 }

  predicate PolicyOk(r: Policy, users: set<Id>, rev: nat) {
    && Refers(r.createdBy, users) && Refers(r.updatedBy, users)
    && (r.hourlyCap.Some? ==> r.hourlyCap.value > 0) && (r.chefDailyCap.Some? ==> r.chefDailyCap.value > 0)
    && Percent(r.warningPct) && Percent(r.criticalPct) && Percent(r.rejectionPct) && r.minAttempts > 0
    && (r.slo.Some? <==> rev >= 25)
    && (r.slo.Some? ==> r.slo.value.redSnapshots >= 2)
  }

  const BASE_CATEGORIES := {"chef_sla", "delivery_sla", "support_sla", "payment", "reliability", "notifications"}

  predicate IncidentOk(r: Incident, trafficAllowed: bool) {
    && (r.category in BASE_CATEGORIES || (trafficAllowed && r.category == "traffic"))
    && r.status in {"open", "acknowledged", "resolved"}
  }

  const STAGES := {"not_started", "canary", "limited", "full", "paused"}

  predicate RolloutOk(r: Rollout, zones: set<Id>, rev: nat) {
    && r.zone in zones && r.fromStage in STAGES && r.toStage in STAGES
    && (r.trigger.Some? <==> rev >= 25)
    && (r.trigger.Some? ==> r.trigger.value.source in {"admin", "system"})
  }

  predicate LaunchOk(r: Launch, programs: set<Id>, zones: set<Id>) {
    r.program in programs && r.zone in zones && r.status in {"planned", "active", "paused", "completed", "aborted"}
  }

  predicate CloseOk(r: Close, launches: set<Id>, users: set<Id>, preparerRequired: bool, rev: nat) {
    && r.session in launches
    && r.status in {"draft", "ready", "blocked", "closed", "reopened"}
    && Refers(r.preparedBy, users) && (preparerRequired ==> r.preparedBy.Some?)
    && (r.cadence.Some? <==> rev >= 25)
  }

  predicate PackOk(r: Pack, launches: set<Id>, users: set<Id>, rev: nat) {
    && r.session in launches && r.generatedBy in users
    && r.status in {"complete", "incomplete"}
    && (r.retention.Some? <==> rev >= 25)
    && (r.retention.Some? ==> r.retention.value.class_ in {"working", "final"})
  }

  // ---- Tables, with their unique columns ----------------------------------------------------------------

  ghost predicate ImportsOk(t: map<Id, Import>, users: set<Id>, programs: set<Id>, rev: nat) {
    && (forall k :: k in t ==> ImportOk(t[k], users, programs, rev))
    && (forall a, b :: a in t && b in t && a != b ==>
          t[a].provider != t[b].provider || t[a].reference != t[b].reference)
  }

  ghost predicate SettlementsOk(t: map<Id, Settlement>, users: set<Id>, programs: set<Id>, rev: nat) {
    && (forall k :: k in t ==> SettlementOk(t[k], users, programs, rev))
    && (forall a, b :: a in t && b in t && a != b ==>
          t[a].provider != t[b].provider || t[a].reference != t[b].reference)
  }

  ghost predicate ZonesOk(t: map<Id, Zone>, users: set<Id>) {
    && (forall k :: k in t ==> Refers(t[k].createdBy, users))
    && (forall a, b :: a in t && b in t && a != b ==> t[a].area != t[b].area)
  }

  ghost predicate PoliciesOk(t: map<Id, Policy>, zones: set<Id>, users: set<Id>, rev: nat) {
    t.Keys <= zones && forall k :: k in t ==> PolicyOk(t[k], users, rev)
  }

  ghost predicate IncidentsOk(t: map<Id, Incident>, trafficAllowed: bool) {
    forall k :: k in t ==> IncidentOk(t[k], trafficAllowed)
  }

  ghost predicate RolloutsOk(t: map<Id, Rollout>, zones: set<Id>, rev: nat) {
    forall k :: k in t ==> RolloutOk(t[k], zones, rev)
  }

  ghost predicate LaunchesOk(t: map<Id, Launch>, programs: set<Id>, zones: set<Id>) {
    forall k :: k in t ==> LaunchOk(t[k], programs, zones)
  }

  ghost predicate ClosesOk(t: map<Id, Close>, launches: set<Id>, users: set<Id>, preparerRequired: bool, rev: nat) {
    && (forall k :: k in t ==> CloseOk(t[k], launches, users, preparerRequired, rev))
    && (forall a, b :: a in t && b in t && a != b ==> t[a].session != t[b].session || t[a].date != t[b].date)
  }

  ghost predicate PacksOk(t: map<Id, Pack>, launches: set<Id>, users: set<Id>, rev: nat) {
    forall k :: k in t ==> PackOk(t[k], launches, users, rev)
  }

  // ---- Databases -----------------------------------------------------------------------------------------

  const OTHERS_23 := {"zone_admission_events", "expansion_monitoring_snapshots"}
  const OTHERS_24 := {
    "launch_runbook_steps", "launch_command_events", "launch_traffic_overrides", "launch_rollback_drills"}
  const OTHERS_25 := {"expansion_capacity_forecasts", "expansion_reviews"}

  function OthersAt(rev: nat): set<string> {
    (if rev >= 23 then OTHERS_23 else {})
    + (if rev >= 24 then OTHERS_24 else {})
    + (if rev >= 25 then OTHERS_25 else {})
  }

  /** A database that satisfies everything revision `rev` declares. */
  ghost predicate Valid(db: Db, rev: nat) {
    && ImportsOk(db.imports, db.users, db.programs, rev)
    && SettlementsOk(db.settlements, db.users, db.programs, rev)
    && ZonesOk(db.zones, db.users)
    && IncidentsOk(db.incidents, db.trafficAllowed)
    && RolloutsOk(db.rollouts, db.zones.Keys, rev)
    && (if rev >= 23
        then db.policies.Some? && PoliciesOk(db.policies.value, db.zones.Keys, db.users, rev)
        else db.policies.None?)
    && (if rev >= 24 then LaunchTablesOk(db, rev) else db.launches.None? && db.closes.None? && db.packs.None?)
    && db.others == OthersAt(rev)
    && (db.trafficAllowed <==> rev >= 23)
    && (db.preparerRequired <==> rev == 24)
  }

  ghost predicate LaunchTablesOk(db: Db, rev: nat) {
    && db.launches.Some? && db.closes.Some? && db.packs.Some?
    && LaunchesOk(db.launches.value, db.programs, db.zones.Keys)
    && ClosesOk(db.closes.value, db.launches.value.Keys, db.users, db.preparerRequired, rev)
    && PacksOk(db.packs.value, db.launches.value.Keys, db.users, rev)
  }
}
