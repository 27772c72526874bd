/** The gate: it reads an evidence file and decides again, without trusting the collector's verdict. */
module ReviewGate {
  import opened Wrappers
  import opened Json
  import opened Stabilization

  datatype Complaint =
    | VersionMismatch | MigrationMismatch | CommitNotStamped | FlagMissing(flag: nat)
    | NotHealthy | NotContinue | HasBlockers | OverdueRemain | NoneClosed

  const FLAGS := [
    "slo_auto_pause_policy_verified", "capacity_forecast_verified", "daily_close_cadence_verified",
    "evidence_retention_verified", "expansion_review_verified"]

  function ReleaseComplaints(release: Row, expectedRelease: string, expectedHead: string): seq<Complaint> {
    Unless(Get(release, "version") == JStr(expectedRelease), VersionMismatch)
    + Unless(Get(release, "migration_head") == JStr(expectedHead), MigrationMismatch)
    + Unless(Stamped(Get(release, "commit")), CommitNotStamped)
  }

  /** Complaints about the first n flags. */
  function FlagComplaints(payload: Row, n: nat): seq<Complaint>
    requires n <= |FLAGS|
  {
    if n == 0 then []
    else FlagComplaints(payload, n - 1) + Unless(Get(payload, FLAGS[n - 1]) == TRUE, FlagMissing(n - 1))
  }

  function ReviewComplaints(review: Row): seq<Complaint> {
    Unless(Get(review, "status") == JStr("healthy"), NotHealthy)
    + Unless(Get(review, "recommendation") == JStr("continue"), NotContinue)
    + Unless(!Truthy(Get(review, "blockers_json")), HasBlockers)
  }

  function CadenceComplaints(cadence: Row): Option<seq<Complaint>> {
    var overdue := IntOrZero(Get(cadence, "overdue_open_rows"));
    var closed := IntOrZero(Get(cadence, "closed_system_rows"));
    if overdue.None? || closed.None? then None
    else Some(Unless(overdue.value == 0, OverdueRemain) + Unless(closed.value >= 1, NoneClosed))
  }

  /** The gate's failures on any decoded file; no failures is PASS. */
  function Decision(file: Json, expectedRelease: string, expectedHead: string): Option<seq<Complaint>> {
    if !file.JObj? then None
    else
      var release := RowOrEmpty(Get(file.fields, "release"));
      var review := RowOrEmpty(Get(file.fields, "latest_review"));
      var cadence := RowOrEmpty(Get(file.fields, "cadence"));
      if release.None? || !Hashable(Get(release.value, "commit")) || review.None? || cadence.None? then None
      else
        var last := CadenceComplaints(cadence.value);
        if last.None? then None
        else Some(ReleaseComplaints(release.value, expectedRelease, expectedHead)
                  + FlagComplaints(file.fields, |FLAGS|) + ReviewComplaints(review.value) + last.value)
  }

  method CheckFlags(payload: Row) returns (failures: seq<Complaint>)
    ensures failures == FlagComplaints(payload, |FLAGS|)
  {
    failures := [];
    for i := 0 to |FLAGS|
      invariant failures == FlagComplaints(payload, i)
    {
      failures := Note(failures, Get(payload, FLAGS[i]) == TRUE, FlagMissing(i));
    }
  }

  method CheckReview(review: Row) returns (failures: seq<Complaint>)
    ensures failures == ReviewComplaints(review)
  {
    failures := [];
    failures := Note(failures, Get(review, "status") == JStr("healthy"), NotHealthy);
    failures := Note(failures, Get(review, "recommendation") == JStr("continue"), NotContinue);
    failures := Note(failures, !Truthy(Get(review, "blockers_json")), HasBlockers);
  }

  method CheckRelease(release: Row, expectedRelease: string, expectedHead: string) returns (r: Option<seq<Complaint>>)
    ensures r == if Hashable(Get(release, "commit"))
                 then Some(ReleaseComplaints(release, expectedRelease, expectedHead)) else None
  {
    var failures := [];
    failures := Note(failures, Get(release, "version") == JStr(expectedRelease), VersionMismatch);
    failures := Note(failures, Get(release, "migration_head") == JStr(expectedHead), MigrationMismatch);
    var commit := Get(release, "commit");
    if !Hashable(commit) { return None; }
    failures := Note(failures, commit !in {JNull, JStr(""), JStr("unknown")}, CommitNotStamped);
    assert failures == ReleaseComplaints(release, expectedRelease, expectedHead);
    r := Some(failures);
  }

  method Decide(file: Json, expectedRelease: string, expectedHead: string) returns (r: Option<seq<Complaint>>)
    ensures r == Decision(file, expectedRelease, expectedHead)
  {
    if !file.JObj? { return None; }
    var release := RowOrEmpty(Get(file.fields, "release"));
    if release.None? { return None; }
    var failures := CheckRelease(release.value, expectedRelease, expectedHead);
    if failures.None? { return None; }

    var flags := CheckFlags(file.fields);

    var review := RowOrEmpty(Get(file.fields, "latest_review"));
    if review.None? { return None; }
    var reviewed := CheckReview(review.value);

    var cadence := RowOrEmpty(Get(file.fields, "cadence"));
    if cadence.None? { return None; }
    var overdue := IntOrZero(Get(cadence.value, "overdue_open_rows"));
    if overdue.None? { return None; }
    var closed := IntOrZero(Get(cadence.value, "closed_system_rows"));
    if closed.None? { return None; }
    var counted := [];
    counted := Note(counted, overdue.value == 0, OverdueRemain);
    counted := Note(counted, closed.value >= 1, NoneClosed);
    assert counted == CadenceComplaints(cadence.value).value;
    r := Some(failures.value + flags + reviewed + counted);
  }

  // ---- Verdicts as sets of reasons ---------------------------------------------------------------------------

  /** The finding behind each of the gate's complaints, for any file. */
  predicate Complained(file: Row, release: Row, review: Row, overdue: int, closed: int, expectedRelease: string,
                       expectedHead: string, c: Complaint) {
    match c
    case VersionMismatch => Get(release, "version") != JStr(expectedRelease)
    case MigrationMismatch => Get(release, "migration_head") != JStr(expectedHead)
    case CommitNotStamped => !Stamped(Get(release, "commit"))
    case FlagMissing(i) => i < |FLAGS| && Get(file, FLAGS[i]) != TRUE
    case NotHealthy => Get(review, "status") != JStr("healthy")
    case NotContinue => Get(review, "recommendation") != JStr("continue")
    case HasBlockers => Truthy(Get(review, "blockers_json"))
    case OverdueRemain => overdue != 0
    case NoneClosed => closed < 1
  }

  lemma InReleaseComplaints(release: Row, expectedRelease: string, expectedHead: string, c: Complaint)
    ensures c in ReleaseComplaints(release, expectedRelease, expectedHead) <==>
            || (c == VersionMismatch && Get(release, "version") != JStr(expectedRelease))
            || (c == MigrationMismatch && Get(release, "migration_head") != JStr(expectedHead))
            || (c == CommitNotStamped && !Stamped(Get(release, "commit")))
  {
    var u1 := Unless(Get(release, "version") == JStr(expectedRelease), VersionMismatch);
    InUnless(c, Get(release, "version") == JStr(expectedRelease), VersionMismatch);
    InAppend(c, u1, Get(release, "migration_head") == JStr(expectedHead), MigrationMismatch);
    InAppend(c, u1 + Unless(Get(release, "migration_head") == JStr(expectedHead), MigrationMismatch),
             Stamped(Get(release, "commit")), CommitNotStamped);
  }

  lemma {:induction false} InFlagComplaints(file: Row, n: nat, c: Complaint)
    requires n <= |FLAGS|
    ensures c in FlagComplaints(file, n) <==> c.FlagMissing? && c.flag < n && Get(file, FLAGS[c.flag]) != TRUE
  {
    if n > 0 {
      InFlagComplaints(file, n - 1, c);
      InAppend(c, FlagComplaints(file, n - 1), Get(file, FLAGS[n - 1]) == TRUE, FlagMissing(n - 1));
    }
  }

  lemma InReviewComplaints(review: Row, c: Complaint)
    ensures c in ReviewComplaints(review) <==>
            || (c == NotHealthy && Get(review, "status") != JStr("healthy"))
            || (c == NotContinue && Get(review, "recommendation") != JStr("continue"))
            || (c == HasBlockers && Truthy(Get(review, "blockers_json")))
  {
    var u1 := Unless(Get(review, "status") == JStr("healthy"), NotHealthy);
    InUnless(c, Get(review, "status") == JStr("healthy"), NotHealthy);
    InAppend(c, u1, Get(review, "recommendation") == JStr("continue"), NotContinue);
    InAppend(c, u1 + Unless(Get(review, "recommendation") == JStr("continue"), NotContinue),
             !Truthy(Get(review, "blockers_json")), HasBlockers);
  }

  /** The gate lists a complaint exactly when there is a finding behind it. */
  lemma GateLists(file: Json, expectedRelease: string, expectedHead: string, c: Complaint)
    requires Decision(file, expectedRelease, expectedHead).Some?
    ensures var cadence := RowOrEmpty(Get(file.fields, "cadence")).value;
            c in Decision(file, expectedRelease, expectedHead).value <==>
            Complained(file.fields, RowOrEmpty(Get(file.fields, "release")).value,
                       RowOrEmpty(Get(file.fields, "latest_review")).value,
                       IntOrZero(Get(cadence, "overdue_open_rows")).value,
                       IntOrZero(Get(cadence, "closed_system_rows")).value,
                       expectedRelease, expectedHead, c)
  {
    var cadence := RowOrEmpty(Get(file.fields, "cadence")).value;
    InReleaseComplaints(RowOrEmpty(Get(file.fields, "release")).value, expectedRelease, expectedHead, c);
    InFlagComplaints(file.fields, |FLAGS|, c);
    InReviewComplaints(RowOrEmpty(Get(file.fields, "latest_review")).value, c);
    InUnless(c, IntOrZero(Get(cadence, "overdue_open_rows")).value == 0, OverdueRemain);
    InUnless(c, IntOrZero(Get(cadence, "closed_system_rows")).value >= 1, NoneClosed);
  }

  // ---- The gate agrees with the collector ----------------------------------------------------------------

  /** The five flags of a file say what the collector found. */
  predicate Flagged(file: Row, f: Findings) {
    && Get(file, FLAGS[0]) == JBool(f.autoPause)
    && Get(file, FLAGS[1]) == JBool(f.forecast)
    && Get(file, FLAGS[2]) == JBool(f.CadenceVerified())
    && Get(file, FLAGS[3]) == JBool(f.RetentionVerified())
    && Get(file, FLAGS[4]) == JBool(f.ReviewVerified())
  }

  lemma EvidenceFlags(a: Answers, zone: string, session: string, f: Findings, failures: seq<Failure>)
    ensures Flagged(Payload(a, zone, session, f, failures).fields, f)
  {
    PayloadFlags(a, zone, session, f, failures);
  }

  function ReviewOf(f: Findings): Row {
    if f.review.JObj? then f.review.fields else map[]
  }

  lemma CountsAreRead(cadence: Json, closed: nat, overdue: nat)
    requires cadence.JObj? && "rows" in cadence.fields
    requires Get(cadence.fields, "closed_system_rows") == JInt(closed)
    requires Get(cadence.fields, "overdue_open_rows") == JInt(overdue)
    ensures RowOrEmpty(cadence) == Some(cadence.fields)
    ensures IntOrZero(Get(cadence.fields, "closed_system_rows")) == Some(closed)
    ensures IntOrZero(Get(cadence.fields, "overdue_open_rows")) == Some(overdue)
  {
    assert cadence.fields != map[];
  }

  lemma AnswersAreRead(a: Answers)
    requires Readable(a)
    ensures RowOrEmpty(a.release) == Some(a.release.fields)
    ensures RowOrEmpty(Examine(a).review) == Some(ReviewOf(Examine(a)))
  {
  }

  function EvidenceOf(a: Answers, zone: string, session: string): Json
    requires Readable(a)
  {
    Payload(a, zone, session, Examine(a), CollectorFailures(a, Examine(a)))
  }

  /** The gate can read every file the collector writes, and complains exactly about what the collector found. */
  lemma GateOnEvidence(a: Answers, zone: string, session: string, expectedRelease: string, expectedHead: string,
                       c: Complaint)
    requires Readable(a)
    ensures Decision(EvidenceOf(a, zone, session), expectedRelease, expectedHead).Some?
    ensures c in Decision(EvidenceOf(a, zone, session), expectedRelease, expectedHead).value <==>
            Complained(EvidenceOf(a, zone, session).fields, a.release.fields, ReviewOf(Examine(a)),
                       |Examine(a).overdue|, |Examine(a).closed|, expectedRelease, expectedHead, c)
  {
    var f := Examine(a);
    var failures := CollectorFailures(a, f);
    var file := EvidenceOf(a, zone, session);
    PayloadCopies(a, zone, session, f, failures);
    PayloadCounts(a, zone, session, f, failures);
    AnswersAreRead(a);
    CountsAreRead(Get(file.fields, "cadence"), |f.closed|, |f.overdue|);
    ReadableIsDecided(file, expectedRelease, expectedHead);
    GateLists(file, expectedRelease, expectedHead, c);
  }

  lemma ReadableIsDecided(file: Json, expectedRelease: string, expectedHead: string)
    requires file.JObj? && RowOrEmpty(Get(file.fields, "release")).Some?
    requires Hashable(Get(RowOrEmpty(Get(file.fields, "release")).value, "commit"))
    requires RowOrEmpty(Get(file.fields, "latest_review")).Some? && RowOrEmpty(Get(file.fields, "cadence")).Some?
    requires IntOrZero(Get(RowOrEmpty(Get(file.fields, "cadence")).value, "overdue_open_rows")).Some?
    requires IntOrZero(Get(RowOrEmpty(Get(file.fields, "cadence")).value, "closed_system_rows")).Some?
    ensures Decision(file, expectedRelease, expectedHead).Some?
  {
  }

  /** The collector's failure that each of the gate's complaints repeats. */
  function Cause(c: Complaint): Option<Failure> {
    match c
    case VersionMismatch => Some(WrongRelease)
    case MigrationMismatch => Some(WrongMigration)
    case CommitNotStamped => Some(NotStamped)
    case FlagMissing(i) =>
      if i == 0 then Some(AutoPauseUnsafe)
      else if i == 1 then Some(ForecastMissing)
      else if i == 2 then Some(CadenceNotVerified)
      else if i == 3 then Some(RetentionNotVerified)
      else if i == 4 then Some(ReviewNotHealthy)
      else None
    case NotHealthy => Some(ReviewNotHealthy)
    case NotContinue => Some(ReviewNotHealthy)
    case HasBlockers => Some(ReviewNotHealthy)
    case OverdueRemain => Some(CadenceNotVerified)
    case NoneClosed => Some(CadenceNotVerified)
  }

  /** A complaint that has to appear whenever the collector reports this failure. */
  function Echo(x: Failure): Complaint {
    match x
    case WrongRelease => VersionMismatch
    case WrongMigration => MigrationMismatch
    case NotStamped => CommitNotStamped
    case AutoPauseUnsafe => FlagMissing(0)
    case ForecastMissing => FlagMissing(1)
    case CadenceNotVerified => FlagMissing(2)
    case RetentionNotVerified => FlagMissing(3)
    case ReviewNotHealthy => FlagMissing(4)
  }

  /** The finding behind the complaint that echoes a failure is the finding behind the failure. */
  lemma EchoIsComplained(a: Answers, file: Row, x: Failure)
    requires Readable(a) && Flagged(file, Examine(a))
    ensures Complained(file, a.release.fields, ReviewOf(Examine(a)), |Examine(a).overdue|, |Examine(a).closed|,
                       EXPECTED_RELEASE, EXPECTED_MIGRATION, Echo(x))
            <==> Failed(a, x)
  {
  }

  lemma EveryFailureIsEchoed(a: Answers, zone: string, session: string, x: Failure)
    requires Readable(a) && x in CollectorFailures(a, Examine(a))
    ensures Decision(EvidenceOf(a, zone, session), EXPECTED_RELEASE, EXPECTED_MIGRATION).Some?
    ensures Echo(x) in Decision(EvidenceOf(a, zone, session), EXPECTED_RELEASE, EXPECTED_MIGRATION).value
  {
    CollectorLists(a, x);
    EvidenceFlags(a, zone, session, Examine(a), CollectorFailures(a, Examine(a)));
    EchoIsComplained(a, EvidenceOf(a, zone, session).fields, x);
    GateOnEvidence(a, zone, session, EXPECTED_RELEASE, EXPECTED_MIGRATION, Echo(x));
  }

  /** A complaint with a finding behind it repeats a failure with a finding behind it. */
  lemma ComplaintHasACause(a: Answers, file: Row, c: Complaint)
    requires Readable(a) && Flagged(file, Examine(a))
    requires Complained(file, a.release.fields, ReviewOf(Examine(a)), |Examine(a).overdue|, |Examine(a).closed|,
                        EXPECTED_RELEASE, EXPECTED_MIGRATION, c)
    ensures Cause(c).Some? && Failed(a, Cause(c).value)
  {
  }

  lemma EveryComplaintHasACause(a: Answers, zone: string, session: string, c: Complaint)
    requires Readable(a) && Decision(EvidenceOf(a, zone, session), EXPECTED_RELEASE, EXPECTED_MIGRATION).Some?
    requires c in Decision(EvidenceOf(a, zone, session), EXPECTED_RELEASE, EXPECTED_MIGRATION).value
    ensures Cause(c).Some? && Cause(c).value in CollectorFailures(a, Examine(a))
  {
    GateOnEvidence(a, zone, session, EXPECTED_RELEASE, EXPECTED_MIGRATION, c);
    EvidenceFlags(a, zone, session, Examine(a), CollectorFailures(a, Examine(a)));
    ComplaintHasACause(a, EvidenceOf(a, zone, session).fields, c);
    CollectorLists(a, Cause(c).value);
  }

  /** Whatever the API answers: if the collector writes a file at all, the gate reads it, and passes it
    * exactly when the file says "verified": true, which is when the collector found nothing. */
  lemma CollectorAndGateAgree(a: Answers, zone: string, session: string)
    requires Collected(a, zone, session).Some?
    ensures var e := Collected(a, zone, session).value;
            var d := Decision(e.payload, EXPECTED_RELEASE, EXPECTED_MIGRATION);
            && d.Some? && (e.failures == [] <==> d.value == [])
            && e.payload.JObj? && (Get(e.payload.fields, "verified") == TRUE <==> d.value == [])
  {
    var failures := CollectorFailures(a, Examine(a));
    PayloadVerdict(a, zone, session, Examine(a), failures);
    GateOnEvidence(a, zone, session, EXPECTED_RELEASE, EXPECTED_MIGRATION, VersionMismatch);
    var d := Decision(EvidenceOf(a, zone, session), EXPECTED_RELEASE, EXPECTED_MIGRATION);
    if failures != [] {
      EveryFailureIsEchoed(a, zone, session, failures[0]);
    }
    if d.value != [] {
      EveryComplaintHasACause(a, zone, session, d.value[0]);
    }
  }
}
