/** The migrations as they run: ordered operations on one database. A constraint that existing rows
  * violate aborts the migration, and the transaction leaves no trace. */
module Database {
  import opened Wrappers
  import opened Schema
  import opened Migrations

  // ---- The bulk statements, row by row -----------------------------------------------------------------

  /** UPDATE provider_cost_import_batches. */
  method BackfillReviews(t: map<Id, Import>) returns (rows: map<Id, Import>)
    requires forall k :: k in t ==> t[k].review.Some?
    ensures rows == BackfillAll(t)
  {
    var todo := t.Keys;
    rows := t;
    while todo != {}
      invariant todo <= t.Keys && rows.Keys == t.Keys
      invariant forall k :: k in t ==> rows[k] == if k in todo then t[k] else Backfilled(t[k])
    {
      var k :| k in todo;
      rows := rows[k := Backfilled(t[k])];
      todo := todo - {k};
    }
  }

  /** UPDATE provider_settlement_batches. */
  method QueueSettlements(t: map<Id, Settlement>) returns (rows: map<Id, Settlement>)
    requires forall k :: k in t ==> t[k].operations.Some?
    ensures rows == QueueAll(t)
  {
    var todo := t.Keys;
    rows := t;
    while todo != {}
      invariant todo <= t.Keys && rows.Keys == t.Keys
      invariant forall k :: k in t ==> rows[k] == if k in todo then t[k] else Queued(t[k])
    {
      var k :| k in todo;
      rows := rows[k := Queued(t[k])];
      todo := todo - {k};
    }
  }

  /** INSERT INTO zone_traffic_policies SELECT ... FROM expansion_zones. */
  method InsertPolicies(zones: map<Id, Zone>, now: int) returns (rows: map<Id, Policy>)
    ensures rows == Up23Policies(zones, now)
  {
    var todo := zones.Keys;
    rows := map[];
    while todo != {}
      invariant todo <= zones.Keys && rows.Keys == zones.Keys - todo
      invariant forall z :: z in rows ==> rows[z] == DefaultPolicy(zones[z], now)
    {
      var z :| z in todo;
      rows := rows[z := DefaultPolicy(zones[z], now)];
      todo := todo - {z};
    }
  }

  /** UPDATE launch_evidence_packs SET retention_class='final' WHERE status='complete'. */
  method ClassifyPacks(t: map<Id, Pack>) returns (rows: map<Id, Pack>)
    requires forall k :: k in t ==> t[k].retention.Some?
    ensures rows == ClassifyAll(t)
  {
    var todo := t.Keys;
    rows := t;
    while todo != {}
      invariant todo <= t.Keys && rows.Keys == t.Keys
      invariant forall k :: k in t ==> rows[k] == if k in todo then t[k] else Classified(t[k])
    {
      var k :| k in todo;
      if t[k].status == "complete" {
        rows := rows[k := t[k].(retention := Some(t[k].retention.value.(class_ := "final")))];
      }
      todo := todo - {k};
    }
  }

  class Connection {
    var db: Db

    constructor (db: Db)
      ensures this.db == db
    {
      this.db := db;
    }

    // ---- 0023 ------------------------------------------------------------------------------------------

    /** Review columns, their foreign keys and check, and the backfill. */
    method AddReviews() returns (ok: bool)
      modifies this
      ensures ok && db == old(db).(imports := Up23Imports(old(db).imports))
    {
      db := db.(imports := ReviewColumns(db.imports));
      ok := forall k :: k in db.imports ==> ReviewOk(db.imports[k].review.value, db.users);
      var rows := BackfillReviews(db.imports);
      db := db.(imports := rows);
    }

    /** Queue columns of the settlements, their foreign keys and check, and the backfill. */
    method AddOperations() returns (ok: bool)
      modifies this
      ensures ok && db == old(db).(settlements := Up23Settlements(old(db).settlements))
    {
      db := db.(settlements := OperationsColumns(db.settlements));
      ok := forall k :: k in db.settlements ==> OperationsOk(db.settlements[k].operations.value, db.users);
      var rows := QueueSettlements(db.settlements);
      db := db.(settlements := rows);
    }

    /** The three new tables; creating a table that is there already fails. */
    method CreateTrafficTables(now: int) returns (ok: bool)
      modifies this
      ensures ok <==> old(db).policies.None? && OTHERS_23 !! old(db).others
      ensures ok ==> db == old(db).(policies := Some(Up23Policies(old(db).zones, now)),
                                    others := old(db).others + OTHERS_23)
    {
      ok := db.policies.None? && OTHERS_23 !! db.others;
      if ok {
        var rows := InsertPolicies(db.zones, now);
        db := db.(policies := Some(rows));
        db := db.(others := db.others + OTHERS_23);
      }
    }

    /** Replacing the category check: every existing row must satisfy the new one. */
    method ReplaceCategoryCheck(trafficAllowed: bool) returns (ok: bool)
      modifies this
      ensures ok <==> IncidentsOk(old(db).incidents, trafficAllowed)
      ensures ok ==> db == old(db).(trafficAllowed := trafficAllowed)
      ensures !ok ==> db == old(db)
    {
      ok := forall k :: k in db.incidents ==> IncidentOk(db.incidents[k], trafficAllowed);
      if ok {
        db := db.(trafficAllowed := trafficAllowed);
      }
    }

    method Upgrade23(now: int) returns (ok: bool)
      modifies this
      ensures Valid(old(db), 22) ==> ok
      ensures ok ==> db == Up23(old(db), now)
      ensures !ok ==> db == old(db)
    {
      var before := db;
      ok := AddReviews();
      if ok { ok := AddOperations(); }
      if ok { ok := CreateTrafficTables(now); }
      if ok { ok := ReplaceCategoryCheck(true); }
      if Valid(before, 22) { IncidentsUp23(before.incidents); }
      if !ok {
        db := before;
      }
    }

    /** The narrowed category check comes first, and is the only step that can fail. */
    method Downgrade23() returns (ok: bool)
      modifies this
      ensures ok <==> IncidentsOk(old(db).incidents, false)
      ensures ok ==> db == Down23(old(db))
      ensures !ok ==> db == old(db)
    {
      ok := ReplaceCategoryCheck(false);
      if ok {
        db := db.(others := db.others - OTHERS_23);
        db := db.(policies := None);
        db := db.(settlements := Down23Settlements(db.settlements));
        db := db.(imports := Down23Imports(db.imports));
      }
    }

    // ---- 0025 ------------------------------------------------------------------------------------------

    /** Retention columns with their check, and the backfill of complete packs. */
    method AddRetention()
      requires db.packs.Some?
      modifies this
      ensures db == old(db).(packs := Some(Up25Packs(old(db).packs.value)))
    {
      var rows := ClassifyPacks(RetentionColumns(db.packs.value));
      db := db.(packs := Some(rows));
    }

    method Upgrade25() returns (ok: bool)
      modifies this
      ensures Valid(old(db), 24) ==> ok
      ensures ok ==> old(db).policies.Some? && old(db).closes.Some? && old(db).packs.Some? && db == Up25(old(db))
      ensures !ok ==> db == old(db)
    {
      ok := db.policies.Some? && db.closes.Some? && db.packs.Some? && OTHERS_25 !! db.others;
      if ok {
        db := db.(policies := Some(Up25Policies(db.policies.value)));
        db := db.(rollouts := Up25Rollouts(db.rollouts));
        db := db.(preparerRequired := false);
        db := db.(closes := Some(Up25Closes(db.closes.value)));
        AddRetention();
        db := db.(others := db.others + OTHERS_25);
      }
    }

    /** Making the preparer mandatory again is the only step that can fail. */
    method Downgrade25() returns (ok: bool)
      requires db.policies.Some? && db.closes.Some? && db.packs.Some?
      modifies this
      ensures ok <==> forall k :: k in old(db).closes.value ==> old(db).closes.value[k].preparedBy.Some?
      ensures ok ==> db == Down25(old(db))
      ensures !ok ==> db == old(db)
    {
      var before := db;
      db := db.(others := db.others - OTHERS_25);
      db := db.(packs := Some(Down25Packs(db.packs.value)));
      db := db.(closes := Some(Down25Closes(db.closes.value)));
      ok := forall k :: k in before.closes.value ==> before.closes.value[k].preparedBy.Some?;
      if ok {
        db := db.(preparerRequired := true);
        db := db.(rollouts := Down25Rollouts(db.rollouts));
        db := db.(policies := Some(Down25Policies(db.policies.value)));
      } else {
        db := before;
      }
    }
  }
}
