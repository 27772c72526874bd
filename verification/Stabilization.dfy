/** The two post-launch scripts: the collector, which judges the API's answers and writes an evidence
  * file, and the gate, which judges the file on its own. A script that dies with an exception yields
  * None. */
module Stabilization {
  import opened Wrappers
  import opened Json

  const EXPECTED_RELEASE := "0.50.0"
  const EXPECTED_MIGRATION := "0025_sprint50"

  /** The six decoded API answers. */
  datatype Answers = Answers(release: Json, policy: Json, forecasts: Json, reviews: Json, closes: Json, packs: Json)

  datatype Failure =
    | WrongRelease | WrongMigration | NotStamped | AutoPauseUnsafe | ForecastMissing | ReviewNotHealthy
    | CadenceNotVerified | RetentionNotVerified

  /** The file that the collector writes, its failures in the order it found them, and its exit status. */
  datatype Evidence = Evidence(payload: Json, failures: seq<Failure>, exitStatus: int)

  // ---- The judgements, one by one --------------------------------------------------------------------

  predicate Stamped(commit: Json) {
    commit != JNull && commit != JStr("") && commit != JStr("unknown")
  }

  function AutoPause(policy: Row): Option<bool> {
    if Get(policy, "slo_auto_pause_enabled") != TRUE then Some(false)
    else
      var n := IntOrZero(Get(policy, "slo_consecutive_red_snapshots"));
      if n.Some? then Some(n.value >= 2) else None
  }

  function Forecast(forecasts: Json): Option<bool> {
    if !Truthy(forecasts) then Some(false)
    else if !forecasts.JArr? || !forecasts.items[0].JObj? then None
    else
      var row := forecasts.items[0].fields;
      var risk := Get(row, "risk");
      if !Truthy(Get(row, "monitoring_snapshot_id")) then Some(false)
      else if !Hashable(risk) then None
      else Some(risk == JStr("green") || risk == JStr("amber") || risk == JStr("red"))
  }

  predicate Healthy(review: Row) {
    && Get(review, "status") == JStr("healthy")
    && Get(review, "recommendation") == JStr("continue")
    && !Truthy(Get(review, "blockers_json"))
  }

  predicate InCadence(x: Row) { Truthy(Get(x, "cadence_due_at")) }

  predicate ClosedBySystem(x: Row) {
    Get(x, "prepared_by_system") == TRUE && Get(x, "status") == JStr("closed")
  }

  predicate Overdue(x: Row) {
    Truthy(Get(x, "overdue_notified_at")) && Get(x, "status") != JStr("closed")
  }

  predicate Complete(x: Row) { Get(x, "status") == JStr("complete") }

  predicate FinalForever(x: Row) {
    Get(x, "retention_class") == JStr("final") && Get(x, "retain_until") == JNull
  }

  predicate WorkingWithEnd(x: Row) {
    Get(x, "retention_class") == JStr("working") && Truthy(Get(x, "retain_until"))
  }

  // ---- The collector -------------------------------------------------------------------------------------

  /** What the collector derives from the answers before it decides. */
  datatype Findings = Findings(
    autoPause: bool, forecast: bool, review: Json, cadence: seq<Row>, closed: seq<Row>, overdue: seq<Row>,
    packs: seq<Row>, complete: seq<Row>, malformedComplete: seq<Row>, malformedWorking: seq<Row>)
  {
    predicate ReviewVerified() { Truthy(review) && review.JObj? && Healthy(review.fields) }

    predicate CadenceVerified() { closed != [] && overdue == [] }

    predicate RetentionVerified() { complete != [] && malformedComplete == [] && malformedWorking == [] }
  }

  function CadenceRows(closes: seq<Row>): seq<Row> { Filter(closes, InCadence) }

  function ClosedRows(closes: seq<Row>): seq<Row> { Filter(CadenceRows(closes), ClosedBySystem) }

  function OverdueRows(closes: seq<Row>): seq<Row> { Filter(CadenceRows(closes), Overdue) }

  function CompletePacks(packs: seq<Row>): seq<Row> { Filter(packs, Complete) }

  function MalformedComplete(packs: seq<Row>): seq<Row> { Filter(CompletePacks(packs), (x: Row) => !FinalForever(x)) }

  function MalformedWorking(packs: seq<Row>): seq<Row> {
    Filter(packs, (x: Row) => !Complete(x) && !WorkingWithEnd(x))
  }

  predicate ServiceReadable(a: Answers) {
    && a.release.JObj? && Hashable(Get(a.release.fields, "commit"))
    && a.policy.JObj? && AutoPause(a.policy.fields).Some?
    && Forecast(a.forecasts).Some?
  }

  /** Every answer has a shape the collector survives. */
  predicate Readable(a: Answers) {
    ServiceReadable(a) && FirstOf(a.reviews).Some? && Rows(a.closes).Some? && Rows(a.packs).Some?
  }

  function Examine(a: Answers): Findings
    requires Readable(a)
  {
    var closes := Rows(a.closes).value;
    var packs := Rows(a.packs).value;
    Findings(AutoPause(a.policy.fields).value, Forecast(a.forecasts).value, FirstOf(a.reviews).value,
             CadenceRows(closes), ClosedRows(closes), OverdueRows(closes),
             packs, CompletePacks(packs), MalformedComplete(packs), MalformedWorking(packs))
  }

  function Unless<T>(ok: bool, failure: T): seq<T> {
    if ok then [] else [failure]
  }

  function ReleaseFailures(release: Row): seq<Failure> {
    Unless(Get(release, "version") == JStr(EXPECTED_RELEASE), WrongRelease)
    + Unless(Get(release, "migration_head") == JStr(EXPECTED_MIGRATION), WrongMigration)
    + Unless(Stamped(Get(release, "commit")), NotStamped)
  }

  function ServiceFailures(a: Answers): seq<Failure>
    requires ServiceReadable(a)
  {
    ReleaseFailures(a.release.fields)
    + Unless(AutoPause(a.policy.fields).value, AutoPauseUnsafe)
    + Unless(Forecast(a.forecasts).value, ForecastMissing)
  }

  function CollectorFailures(a: Answers, f: Findings): seq<Failure>
    requires ServiceReadable(a)
  {
    ServiceFailures(a)
    + Unless(f.ReviewVerified(), ReviewNotHealthy)
    + Unless(f.CadenceVerified(), CadenceNotVerified)
    + Unless(f.RetentionVerified(), RetentionNotVerified)
  }

  function Message(failure: Failure): string {
    match failure
    case WrongRelease => "release_version_not_" + EXPECTED_RELEASE
    case WrongMigration => "migration_head_not_" + EXPECTED_MIGRATION
    case NotStamped => "release_commit_not_stamped"
    case AutoPauseUnsafe => "slo_auto_pause_policy_not_safe"
    case ForecastMissing => "capacity_forecast_missing"
    case ReviewNotHealthy => "expansion_review_not_healthy"
    case CadenceNotVerified => "daily_close_cadence_not_verified"
    case RetentionNotVerified => "evidence_retention_policy_not_verified"
  }

  function Payload(a: Answers, zone: string, session: string, f: Findings, failures: seq<Failure>): Json {
    JObj(map[
      "release" := a.release,
      "zone_id" := JStr(zone),
      "session_id" := JStr(session),
      "slo_auto_pause_policy_verified" := JBool(f.autoPause),
      "capacity_forecast_verified" := JBool(f.forecast),
      "daily_close_cadence_verified" := JBool(f.CadenceVerified()),
      "evidence_retention_verified" := JBool(f.RetentionVerified()),
      "expansion_review_verified" := JBool(f.ReviewVerified()),
      "policy" := a.policy,
      "latest_forecast" := if a.forecasts.JArr? && a.forecasts.items != [] then a.forecasts.items[0] else JNull,
      "latest_review" := f.review,
      "cadence" := JObj(map[
        "rows" := Array(f.cadence),
        "closed_system_rows" := JInt(|f.closed|),
        "overdue_open_rows" := JInt(|f.overdue|)]),
      "evidence_retention" := JObj(map[
        "pack_count" := JInt(|f.packs|),
        "complete_final_count" := JInt(|f.complete|),
        "malformed_complete" := JInt(|f.malformedComplete|),
        "malformed_working" := JInt(|f.malformedWorking|)]),
      "verified" := JBool(failures == []),
      "failures" := JArr(seq(|failures|, i requires 0 <= i < |failures| => JStr(Message(failures[i]))))])
  }

  function Collected(a: Answers, zone: string, session: string): Option<Evidence> {
    if !Readable(a) then None
    else
      var f := Examine(a);
      var failures := CollectorFailures(a, f);
      Some(Evidence(Payload(a, zone, session, f, failures), failures, if failures == [] then 0 else 2))
  }

  /** `if not ok: failures.append(failure)`. */
  method Note<T>(failures: seq<T>, ok: bool, failure: T) returns (r: seq<T>)
    ensures r == failures + Unless(ok, failure)
  {
    r := failures;
    if !ok {
      r := r + [failure];
    }
  }

  method JudgeService(a: Answers) returns (r: Option<(bool, bool, seq<Failure>)>)
    ensures r == if ServiceReadable(a)
                 then Some((AutoPause(a.policy.fields).value, Forecast(a.forecasts).value, ServiceFailures(a)))
                 else None
  {
    if !a.release.JObj? { return None; }
    var release := a.release.fields;
    var failures := [];
    failures := Note(failures, Get(release, "version") == JStr(EXPECTED_RELEASE), WrongRelease);
    failures := Note(failures, Get(release, "migration_head") == JStr(EXPECTED_MIGRATION), WrongMigration);
    var commit := Get(release, "commit");
    if !Hashable(commit) { return None; }
    failures := Note(failures, commit !in {JNull, JStr(""), JStr("unknown")}, NotStamped);
    assert failures == ReleaseFailures(release);

    if !a.policy.JObj? { return None; }
    var autoPause := AutoPause(a.policy.fields);
    if autoPause.None? { return None; }
    failures := Note(failures, autoPause.value, AutoPauseUnsafe);

    var forecast := Forecast(a.forecasts);
    if forecast.None? { return None; }
    failures := Note(failures, forecast.value, ForecastMissing);
    r := Some((autoPause.value, forecast.value, failures));
  }

  /** The collector's steps, in its own order. */
  method Judge(a: Answers) returns (r: Option<(Findings, seq<Failure>)>)
    ensures r == if Readable(a) then Some((Examine(a), CollectorFailures(a, Examine(a)))) else None
  {
    var service := JudgeService(a);
    if service.None? { return None; }
    var (autoPause, forecast, failures) := service.value;

    var review := FirstOf(a.reviews);
    if review.None? { return None; }
    failures := Note(failures, Truthy(review.value) && Healthy(review.value.fields), ReviewNotHealthy);

    var closes := Rows(a.closes);
    if closes.None? { return None; }
    var cadence := CadenceRows(closes.value);
    var closed := ClosedRows(closes.value);
    var overdue := OverdueRows(closes.value);
    failures := Note(failures, closed != [] && overdue == [], CadenceNotVerified);

    var packs := Rows(a.packs);
    if packs.None? { return None; }
    var f := Findings(autoPause, forecast, review.value, cadence, closed, overdue, packs.value,
                      CompletePacks(packs.value), MalformedComplete(packs.value), MalformedWorking(packs.value));
    failures := Note(failures, f.RetentionVerified(), RetentionNotVerified);
    r := Some((f, failures));
  }

  method Collect(a: Answers, zone: string, session: string) returns (r: Option<Evidence>)
    ensures r == Collected(a, zone, session)
  {
    var judged := Judge(a);
    if judged.None? { return None; }
    var (f, failures) := judged.value;
    r := Some(Evidence(Payload(a, zone, session, f, failures), failures, if failures == [] then 0 else 2));
  }

  // ---- The verdict as a set of reasons -------------------------------------------------------------------------

  lemma InUnless<T>(x: T, ok: bool, failure: T)
    ensures x in Unless(ok, failure) <==> !ok && x == failure
  {
  }

  lemma InAppend<T>(x: T, s: seq<T>, ok: bool, failure: T)
    ensures x in s + Unless(ok, failure) <==> x in s || (!ok && x == failure)
  {
  }

  /** The finding behind each of the collector's failures. */
  predicate Failed(a: Answers, x: Failure)
    requires Readable(a)
  {
    var release := a.release.fields;
    var f := Examine(a);
    match x
    case WrongRelease => Get(release, "version") != JStr(EXPECTED_RELEASE)
    case WrongMigration => Get(release, "migration_head") != JStr(EXPECTED_MIGRATION)
    case NotStamped => !Stamped(Get(release, "commit"))
    case AutoPauseUnsafe => !f.autoPause
    case ForecastMissing => !f.forecast
    case ReviewNotHealthy => !f.ReviewVerified()
    case CadenceNotVerified => !f.CadenceVerified()
    case RetentionNotVerified => !f.RetentionVerified()
  }

  lemma InRelease(release: Row, x: Failure)
    ensures x in ReleaseFailures(release) <==>
            || (x == WrongRelease && Get(release, "version") != JStr(EXPECTED_RELEASE))
            || (x == WrongMigration && Get(release, "migration_head") != JStr(EXPECTED_MIGRATION))
            || (x == NotStamped && !Stamped(Get(release, "commit")))
  {
    var u1 := Unless(Get(release, "version") == JStr(EXPECTED_RELEASE), WrongRelease);
    InUnless(x, Get(release, "version") == JStr(EXPECTED_RELEASE), WrongRelease);
    InAppend(x, u1, Get(release, "migration_head") == JStr(EXPECTED_MIGRATION), WrongMigration);
    InAppend(x, u1 + Unless(Get(release, "migration_head") == JStr(EXPECTED_MIGRATION), WrongMigration),
             Stamped(Get(release, "commit")), NotStamped);
  }

  lemma CollectorLists(a: Answers, x: Failure)
    requires Readable(a)
    ensures x in CollectorFailures(a, Examine(a)) <==> Failed(a, x)
  {
    var f := Examine(a);
    var s3 := ReleaseFailures(a.release.fields);
    var s4 := s3 + Unless(f.autoPause, AutoPauseUnsafe);
    var s5 := ServiceFailures(a);
    var s6 := s5 + Unless(f.ReviewVerified(), ReviewNotHealthy);
    var s7 := s6 + Unless(f.CadenceVerified(), CadenceNotVerified);
    InRelease(a.release.fields, x);
    InAppend(x, s3, f.autoPause, AutoPauseUnsafe);
    InAppend(x, s4, f.forecast, ForecastMissing);
    InAppend(x, s5, f.ReviewVerified(), ReviewNotHealthy);
    InAppend(x, s6, f.CadenceVerified(), CadenceNotVerified);
    InAppend(x, s7, f.RetentionVerified(), RetentionNotVerified);
  }

  // ---- What a clean verdict means ----------------------------------------------------------------------------

  /** Some daily close in the cadence was prepared by the system and closed, and none that went overdue
    * is still open. */
  predicate CadenceKept(closes: seq<Row>) {
    && (exists x :: x in closes && Truthy(Get(x, "cadence_due_at"))
                    && Get(x, "prepared_by_system") == TRUE && Get(x, "status") == JStr("closed"))
    && (forall x :: x in closes && Truthy(Get(x, "cadence_due_at")) && Truthy(Get(x, "overdue_notified_at")) ==>
          Get(x, "status") == JStr("closed"))
  }

  /** Some pack is complete; complete packs are final for ever and all others have a day to go. */
  predicate RetentionKept(packs: seq<Row>) {
    && (exists x :: x in packs && Get(x, "status") == JStr("complete"))
    && (forall x :: x in packs ==>
          if Get(x, "status") == JStr("complete")
          then Get(x, "retention_class") == JStr("final") && Get(x, "retain_until") == JNull
          else Get(x, "retention_class") == JStr("working") && Truthy(Get(x, "retain_until")))
  }

  lemma CadenceMeans(closes: seq<Row>)
    ensures ClosedRows(closes) != [] && OverdueRows(closes) == [] <==> CadenceKept(closes)
  {
    FilterKeeps(closes, InCadence);
    FilterIsEmpty(CadenceRows(closes), ClosedBySystem);
    FilterIsEmpty(CadenceRows(closes), Overdue);
  }

  lemma RetentionMeans(packs: seq<Row>)
    ensures CompletePacks(packs) != [] && MalformedComplete(packs) == [] && MalformedWorking(packs) == []
            <==> RetentionKept(packs)
  {
    var notFinal := (x: Row) => !FinalForever(x);
    var notWorking := (x: Row) => !Complete(x) && !WorkingWithEnd(x);
    FilterKeeps(packs, Complete);
    FilterIsEmpty(packs, Complete);
    FilterIsEmpty(CompletePacks(packs), notFinal);
    FilterIsEmpty(packs, notWorking);
    assert MalformedComplete(packs) == Filter(CompletePacks(packs), notFinal);
    assert MalformedWorking(packs) == Filter(packs, notWorking);
  }

  predicate PolicyReady(policy: Row) {
    var n := IntOrZero(Get(policy, "slo_consecutive_red_snapshots"));
    Get(policy, "slo_auto_pause_enabled") == TRUE && n.Some? && n.value >= 2
  }

  predicate ForecastReady(forecasts: Json) {
    && forecasts.JArr? && forecasts.items != [] && forecasts.items[0].JObj?
    && Truthy(Get(forecasts.items[0].fields, "monitoring_snapshot_id"))
    && Get(forecasts.items[0].fields, "risk") in {JStr("green"), JStr("amber"), JStr("red")}
  }

  predicate ReviewReady(reviews: Json) {
    && reviews.JArr? && reviews.items != [] && reviews.items[0].JObj?
    && var review := reviews.items[0].fields;
    && Get(review, "status") == JStr("healthy") && Get(review, "recommendation") == JStr("continue")
    && !Truthy(Get(review, "blockers_json"))
  }

  /** The requirement on the answers whose breach each failure reports. */
  predicate Met(a: Answers, x: Failure) {
    match x
    case WrongRelease => a.release.JObj? && Get(a.release.fields, "version") == JStr(EXPECTED_RELEASE)
    case WrongMigration => a.release.JObj? && Get(a.release.fields, "migration_head") == JStr(EXPECTED_MIGRATION)
    case NotStamped =>
      && a.release.JObj? && Hashable(Get(a.release.fields, "commit"))
      && Get(a.release.fields, "commit") !in {JNull, JStr(""), JStr("unknown")}
    case AutoPauseUnsafe => a.policy.JObj? && PolicyReady(a.policy.fields)
    case ForecastMissing => ForecastReady(a.forecasts)
    case ReviewNotHealthy => ReviewReady(a.reviews)
    case CadenceNotVerified => Rows(a.closes).Some? && CadenceKept(Rows(a.closes).value)
    case RetentionNotVerified => Rows(a.packs).Some? && RetentionKept(Rows(a.packs).value)
  }

  lemma ForecastMeans(forecasts: Json)
    ensures Forecast(forecasts) == Some(true) <==> ForecastReady(forecasts)
  {
  }

  lemma ReviewMeans(reviews: Json)
    ensures FirstOf(reviews).Some? && FirstOf(reviews).value.JObj? && Healthy(FirstOf(reviews).value.fields) 
            <==> ReviewReady(reviews)
  {
  }

  lemma MetIsNotFailed(a: Answers, x: Failure)
    requires Readable(a)
    ensures Met(a, x) <==> !Failed(a, x)
  {
    if x == ForecastMissing {
      ForecastMeans(a.forecasts);
    } else if x == ReviewNotHealthy {
      ReviewMeans(a.reviews);
    } else if x == CadenceNotVerified {
      CadenceMeans(Rows(a.closes).value);
    } else if x == RetentionNotVerified {
      RetentionMeans(Rows(a.packs).value);
    }
  }

  /** A failure is reported exactly when its requirement is not met. */
  lemma FailuresAreExact(a: Answers, zone: string, session: string, x: Failure)
    requires Collected(a, zone, session).Some?
    ensures x in Collected(a, zone, session).value.failures <==> !Met(a, x)
  {
    CollectorLists(a, x);
    MetIsNotFailed(a, x);
  }

  lemma MetIsReadable(a: Answers)
    requires forall x: Failure :: Met(a, x)
    ensures Readable(a)
  {
    assert Met(a, NotStamped) && Met(a, AutoPauseUnsafe) && Met(a, ForecastMissing);
    assert Met(a, ReviewNotHealthy) && Met(a, CadenceNotVerified) && Met(a, RetentionNotVerified);
    ForecastMeans(a.forecasts);
    ReviewMeans(a.reviews);
  }

  /** The collector survives and finds nothing exactly when every requirement is met. */
  lemma NoFailureMeans(a: Answers, zone: string, session: string)
    ensures (Collected(a, zone, session).Some? && Collected(a, zone, session).value.failures == []) <==>
              forall x: Failure :: Met(a, x)
  {
    if Readable(a) {
      var failures := CollectorFailures(a, Examine(a));
      forall x: Failure ensures x in failures <==> !Met(a, x) { FailuresAreExact(a, zone, session, x); }
      if failures != [] { assert failures[0] in failures; }
    } else if forall x: Failure :: Met(a, x) {
      MetIsReadable(a);
    }
  }

  // ---- What the written file says ----------------------------------------------------------------------------

  /** The place of a requirement in the order in which the collector checks them. */
  function Place(x: Failure): nat {
    match x
    case WrongRelease => 0
    case WrongMigration => 1
    case NotStamped => 2
    case AutoPauseUnsafe => 3
    case ForecastMissing => 4
    case ReviewNotHealthy => 5
    case CadenceNotVerified => 6
    case RetentionNotVerified => 7
  }

  /** In the order of the checks, without repetition, and among the first n checks. */
  ghost predicate InOrder(s: seq<Failure>, n: nat) {
    && (forall i :: 0 <= i < |s| ==> Place(s[i]) < n)
    && (forall i, j :: 0 <= i < j < |s| ==> Place(s[i]) < Place(s[j]))
  }

  lemma NextInOrder(s: seq<Failure>, ok: bool, x: Failure)
    requires InOrder(s, Place(x))
    ensures InOrder(s + Unless(ok, x), Place(x) + 1)
  {
  }

  lemma ReleaseInOrder(release: Row)
    ensures InOrder(ReleaseFailures(release), 3)
  {
    var s1 := Unless(Get(release, "version") == JStr(EXPECTED_RELEASE), WrongRelease);
    var s2 := s1 + Unless(Get(release, "migration_head") == JStr(EXPECTED_MIGRATION), WrongMigration);
    assert InOrder(s1, 1);
    NextInOrder(s1, Get(release, "migration_head") == JStr(EXPECTED_MIGRATION), WrongMigration);
    NextInOrder(s2, Stamped(Get(release, "commit")), NotStamped);
  }

  lemma TwoInOrder(s: seq<Failure>, autoPause: bool, forecast: bool)
    requires InOrder(s, 3)
    ensures InOrder(s + Unless(autoPause, AutoPauseUnsafe) + Unless(forecast, ForecastMissing), 5)
  {
    NextInOrder(s, autoPause, AutoPauseUnsafe);
    NextInOrder(s + Unless(autoPause, AutoPauseUnsafe), forecast, ForecastMissing);
  }

  lemma ThreeInOrder(s: seq<Failure>, review: bool, cadence: bool, retention: bool)
    requires InOrder(s, 5)
    ensures InOrder(s + Unless(review, ReviewNotHealthy) + Unless(cadence, CadenceNotVerified)
                    + Unless(retention, RetentionNotVerified), 8)
  {
    var s6 := s + Unless(review, ReviewNotHealthy);
    NextInOrder(s, review, ReviewNotHealthy);
    NextInOrder(s6, cadence, CadenceNotVerified);
    NextInOrder(s6 + Unless(cadence, CadenceNotVerified), retention, RetentionNotVerified);
  }

  lemma FailuresInOrder(a: Answers, f: Findings)
    requires ServiceReadable(a)
    ensures InOrder(CollectorFailures(a, f), 8)
  {
    ReleaseInOrder(a.release.fields);
    TwoInOrder(ReleaseFailures(a.release.fields), AutoPause(a.policy.fields).value, Forecast(a.forecasts).value);
    assert InOrder(ServiceFailures(a), 5);
    ThreeInOrder(ServiceFailures(a), f.ReviewVerified(), f.CadenceVerified(), f.RetentionVerified());
  }

  lemma MessageShape(x: Failure)
    ensures |Message(x)| > 8
    ensures x == WrongRelease ==> |Message(x)| == 26 && Message(x)[8] == 'v'
    ensures x == WrongMigration ==> |Message(x)| == 32 && Message(x)[0] == 'm'
    ensures x == NotStamped ==> |Message(x)| == 26 && Message(x)[8] == 'c'
    ensures x == AutoPauseUnsafe ==> |Message(x)| == 30
    ensures x == ForecastMissing ==> |Message(x)| == 25
    ensures x == ReviewNotHealthy ==> |Message(x)| == 28
    ensures x == CadenceNotVerified ==> |Message(x)| == 32 && Message(x)[0] == 'd'
    ensures x == RetentionNotVerified ==> |Message(x)| == 38
  {
  }

  /** No two failures are written with the same message. */
  lemma MessagesDiffer(x: Failure, y: Failure)
    requires Message(x) == Message(y)
    ensures x == y
  {
    MessageShape(x);
    MessageShape(y);
  }

  lemma PayloadVerdict(a: Answers, zone: string, session: string, f: Findings, failures: seq<Failure>)
    ensures var p := Payload(a, zone, session, f, failures).fields;
            && Get(p, "verified") == JBool(failures == [])
            && Get(p, "failures").JArr? && |Get(p, "failures").items| == |failures|
            && forall i :: 0 <= i < |failures| ==> Get(p, "failures").items[i] == JStr(Message(failures[i]))
  {
  }

  lemma WrittenMessages(written: seq<Json>, failures: seq<Failure>, x: Failure)
    requires |written| == |failures|
    requires forall i :: 0 <= i < |failures| ==> written[i] == JStr(Message(failures[i]))
    ensures JStr(Message(x)) in written <==> x in failures
  {
    if JStr(Message(x)) in written {
      var i :| 0 <= i < |written| && written[i] == JStr(Message(x));
      MessagesDiffer(x, failures[i]);
    }
    if x in failures {
      var i :| 0 <= i < |failures| && failures[i] == x;
      assert written[i] == JStr(Message(x));
    }
  }

  /** In every file the collector writes, "verified" is true exactly when every requirement is met, and
    * "failures" lists the message of every requirement that is not met, once each, in the order of the
    * checks. The script exits with status 0 in the first case and 2 otherwise. */
  lemma WrittenVerdict(a: Answers, zone: string, session: string)
    requires Collected(a, zone, session).Some?
    ensures var e := Collected(a, zone, session).value;
            && e.payload.JObj?
            && Get(e.payload.fields, "verified") == JBool(forall x: Failure :: Met(a, x))
            && e.exitStatus == (if forall x: Failure :: Met(a, x) then 0 else 2)
            && Get(e.payload.fields, "failures").JArr?
            && var written := Get(e.payload.fields, "failures").items;
            && (forall x :: JStr(Message(x)) in written <==> !Met(a, x))
            && |written| == |e.failures| && InOrder(e.failures, 8)
            && (forall i :: 0 <= i < |written| ==> written[i] == JStr(Message(e.failures[i])))
  {
    var f := Examine(a);
    var failures := CollectorFailures(a, f);
    FailuresInOrder(a, f);
    PayloadVerdict(a, zone, session, f, failures);
    NoFailureMeans(a, zone, session);
    var written := Get(Payload(a, zone, session, f, failures).fields, "failures").items;
    forall x ensures JStr(Message(x)) in written <==> !Met(a, x) {
      WrittenMessages(written, failures, x);
      FailuresAreExact(a, zone, session, x);
    }
  }

  /** The collector survives and writes "verified": true exactly when every requirement is met. */
  lemma VerifiedMeans(a: Answers, zone: string, session: string)
    ensures && Collected(a, zone, session).Some? && Collected(a, zone, session).value.payload.JObj?
            && Get(Collected(a, zone, session).value.payload.fields, "verified") == TRUE
            <==> forall x: Failure :: Met(a, x)
  {
    if Readable(a) {
      WrittenVerdict(a, zone, session);
    } else if forall x: Failure :: Met(a, x) {
      MetIsReadable(a);
    }
  }

  lemma PayloadCopies(a: Answers, zone: string, session: string, f: Findings, failures: seq<Failure>)
    ensures var p := Payload(a, zone, session, f, failures).fields;
            && Get(p, "release") == a.release && Get(p, "policy") == a.policy
            && Get(p, "zone_id") == JStr(zone) && Get(p, "session_id") == JStr(session)
            && Get(p, "latest_forecast")
               == (if a.forecasts.JArr? && a.forecasts.items != [] then a.forecasts.items[0] else JNull)
            && Get(p, "latest_review") == f.review
  {
  }

  lemma PayloadServiceFlags(a: Answers, zone: string, session: string, f: Findings, failures: seq<Failure>)
    ensures var p := Payload(a, zone, session, f, failures).fields;
            && Get(p, "slo_auto_pause_policy_verified") == JBool(f.autoPause)
            && Get(p, "capacity_forecast_verified") == JBool(f.forecast)
            && Get(p, "daily_close_cadence_verified") == JBool(f.CadenceVerified())
  {
  }

  lemma PayloadFlags(a: Answers, zone: string, session: string, f: Findings, failures: seq<Failure>)
    ensures var p := Payload(a, zone, session, f, failures).fields;
            && Get(p, "slo_auto_pause_policy_verified") == JBool(f.autoPause)
            && Get(p, "capacity_forecast_verified") == JBool(f.forecast)
            && Get(p, "daily_close_cadence_verified") == JBool(f.CadenceVerified())
            && Get(p, "evidence_retention_verified") == JBool(f.RetentionVerified())
            && Get(p, "expansion_review_verified") == JBool(f.ReviewVerified())
  {
    PayloadServiceFlags(a, zone, session, f, failures);
  }

  /** The written file keeps the answers it judged. */
  lemma WrittenAnswers(a: Answers, zone: string, session: string)
    requires Collected(a, zone, session).Some?
    ensures var p := Collected(a, zone, session).value.payload.fields;
            && Get(p, "release") == a.release && Get(p, "policy") == a.policy
            && Get(p, "zone_id") == JStr(zone) && Get(p, "session_id") == JStr(session)
            && (a.forecasts.JArr? && a.forecasts.items != [] ==> Get(p, "latest_forecast") == a.forecasts.items[0])
            && (a.reviews.JArr? && a.reviews.items != [] ==> Get(p, "latest_review") == a.reviews.items[0])
  {
    PayloadCopies(a, zone, session, Examine(a), CollectorFailures(a, Examine(a)));
  }

  lemma ServiceFindingsAreMet(a: Answers)
    requires Readable(a)
    ensures Examine(a).autoPause <==> Met(a, AutoPauseUnsafe)
    ensures Examine(a).forecast <==> Met(a, ForecastMissing)
  {
    ForecastMeans(a.forecasts);
  }

  lemma RowFindingsAreMet(a: Answers)
    requires Readable(a)
    ensures Examine(a).CadenceVerified() <==> Met(a, CadenceNotVerified)
    ensures Examine(a).RetentionVerified() <==> Met(a, RetentionNotVerified)
  {
    CadenceMeans(Rows(a.closes).value);
    RetentionMeans(Rows(a.packs).value);
  }

  lemma ReviewFindingIsMet(a: Answers)
    requires Readable(a)
    ensures Examine(a).ReviewVerified() <==> Met(a, ReviewNotHealthy)
  {
    ReviewMeans(a.reviews);
  }

  /** Each of the written file's five flags says whether the requirement of that name is met. */
  lemma WrittenFlags(a: Answers, zone: string, session: string)
    requires Collected(a, zone, session).Some?
    ensures var p := Collected(a, zone, session).value.payload.fields;
            && Get(p, "slo_auto_pause_policy_verified") == JBool(Met(a, AutoPauseUnsafe))
            && Get(p, "capacity_forecast_verified") == JBool(Met(a, ForecastMissing))
            && Get(p, "daily_close_cadence_verified") == JBool(Met(a, CadenceNotVerified))
            && Get(p, "evidence_retention_verified") == JBool(Met(a, RetentionNotVerified))
            && Get(p, "expansion_review_verified") == JBool(Met(a, ReviewNotHealthy))
  {
    PayloadFlags(a, zone, session, Examine(a), CollectorFailures(a, Examine(a)));
    ServiceFindingsAreMet(a);
    RowFindingsAreMet(a);
    ReviewFindingIsMet(a);
  }

  lemma PayloadCounts(a: Answers, zone: string, session: string, f: Findings, failures: seq<Failure>)
    ensures var cadence := Get(Payload(a, zone, session, f, failures).fields, "cadence");
            && cadence.JObj? && Get(cadence.fields, "rows") == Array(f.cadence)
            && Get(cadence.fields, "closed_system_rows") == JInt(|f.closed|)
            && Get(cadence.fields, "overdue_open_rows") == JInt(|f.overdue|)
    ensures var retention := Get(Payload(a, zone, session, f, failures).fields, "evidence_retention");
            && retention.JObj? && Get(retention.fields, "pack_count") == JInt(|f.packs|)
            && Get(retention.fields, "complete_final_count") == JInt(|f.complete|)
            && Get(retention.fields, "malformed_complete") == JInt(|f.malformedComplete|)
            && Get(retention.fields, "malformed_working") == JInt(|f.malformedWorking|)
  {
  }

  /** How many rows satisfy a condition. */
  function Count(rows: seq<Row>, holds: Row -> bool): nat {
    |Filter(rows, holds)|
  }

  /** The counts in the written file are counts over the rows of the answers. */
  lemma WrittenCounts(a: Answers, zone: string, session: string)
    requires Collected(a, zone, session).Some?
    ensures var cadence := Get(Collected(a, zone, session).value.payload.fields, "cadence");
            && Rows(a.closes).Some? && cadence.JObj?
            && var closes := Rows(a.closes).value;
            && Get(cadence.fields, "rows") == Array(Filter(closes, InCadence))
            && Get(cadence.fields, "closed_system_rows")
               == JInt(Count(closes, (x: Row) => InCadence(x) && ClosedBySystem(x)))
            && Get(cadence.fields, "overdue_open_rows") == JInt(Count(closes, (x: Row) => InCadence(x) && Overdue(x)))
    ensures var retention := Get(Collected(a, zone, session).value.payload.fields, "evidence_retention");
            && Rows(a.packs).Some? && retention.JObj?
            && var packs := Rows(a.packs).value;
            && Get(retention.fields, "pack_count") == JInt(|packs|)
            && Get(retention.fields, "complete_final_count") == JInt(Count(packs, Complete))
            && Get(retention.fields, "malformed_complete")
               == JInt(Count(packs, (x: Row) => Complete(x) && !FinalForever(x)))
            && Get(retention.fields, "malformed_working")
               == JInt(Count(packs, (x: Row) => !Complete(x) && !WorkingWithEnd(x)))
  {
    var f := Examine(a);
    var closes, packs := Rows(a.closes).value, Rows(a.packs).value;
    PayloadCounts(a, zone, session, f, CollectorFailures(a, f));
    FilterTwice(closes, InCadence, ClosedBySystem, (x: Row) => InCadence(x) && ClosedBySystem(x));
    FilterTwice(closes, InCadence, Overdue, (x: Row) => InCadence(x) && Overdue(x));
    FilterTwice(packs, Complete, (x: Row) => !FinalForever(x), (x: Row) => Complete(x) && !FinalForever(x));
  }
}
