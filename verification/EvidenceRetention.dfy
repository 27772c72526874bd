/** Evidence packs after revision 0025: the service adds packs and prunes expired ones, and the
  * stabilization collector checks what is left. */
module EvidenceRetention {
  import opened Wrappers
  import opened Text
  import opened Json
  import opened Schema
  import opened Migrations
  import Stabilization

  type Packs = map<Id, Pack>

  // ---- What the service does -----------------------------------------------------------------------------------

  function NewPack(session: Id, blocked: bool, admin: Id, now: int, keepFor: nat): Pack {
    if blocked
    then Pack(session, "incomplete", admin, now, Some(Retention("working", Some(now + keepFor))))
    else Pack(session, "complete", admin, now, Some(Retention("final", None)))
  }

  /** The rows that the pruning query selects. */
  predicate Expired(p: Pack, now: int) {
    && p.status == "incomplete" && p.retention.Some? && p.retention.value.class_ == "working"
    && p.retention.value.until.Some? && p.retention.value.until.value <= now
  }

  predicate Superseded(t: Packs, k: Id)
    requires k in t
  {
    exists j :: j in t && t[j].session == t[k].session && t[j].generatedAt > t[k].generatedAt
  }

  function Pruned(t: Packs, now: int): (u: Packs) {
    map k | k in t && !(Expired(t[k], now) && Superseded(t, k)) :: t[k]
  }

  datatype Event =
    | Generate(id: Id, session: Id, blocked: bool, admin: Id, now: int, keepFor: nat)
    | Prune(now: int)

  /** None: a generated identifier is never one in use. */
  function Step(t: Packs, e: Event): Option<Packs> {
    match e
    case Generate(id, session, blocked, admin, now, keepFor) =>
      if id in t then None else Some(t[id := NewPack(session, blocked, admin, now, keepFor)])
    case Prune(now) => Some(Pruned(t, now))
  }

  function Run(t: Packs, es: seq<Event>): Option<Packs> {
    if es == [] then Some(t)
    else
      var before := Run(t, es[..|es| - 1]);
      if before.None? then None else Step(before.value, es[|es| - 1])
  }

  // ---- Pruning keeps every session's newest pack -------------------------------------------------------------------

  /** Some pack of the session among `keys` is at least as new as all the others. */
  lemma {:induction false} NewestOf(t: Packs, keys: set<Id>, session: Id) returns (k: Id)
    requires keys != {} && forall j :: j in keys ==> j in t && t[j].session == session
    ensures k in keys && forall j :: j in keys ==> t[j].generatedAt <= t[k].generatedAt
    decreases |keys|
  {
    k :| k in keys;
    var rest := keys - {k};
    assert forall j :: j in keys ==> j == k || j in rest;
    if rest != {} {
      var j := NewestOf(t, rest, session);
      if t[k].generatedAt < t[j].generatedAt { k := j; }
    }
  }

  ghost predicate Newest(t: Packs, session: Id, k: Id) {
    && k in t && t[k].session == session
    && forall j :: j in t && t[j].session == session ==> t[j].generatedAt <= t[k].generatedAt
  }

  /** Pruning removes only expired working packs, and a session that has a pack keeps one: its newest. */
  lemma PruningKeepsTheNewest(t: Packs, now: int, session: Id)
    requires exists k :: k in t && t[k].session == session
    ensures exists k :: k in Pruned(t, now) && Newest(t, session, k)
  {
    var keys := set k | k in t && t[k].session == session;
    var some :| some in t && t[some].session == session;
    assert some in keys;
    var k := NewestOf(t, keys, session);
    assert k in Pruned(t, now) && Newest(t, session, k);
  }

  // ---- What becomes of one pack --------------------------------------------------------------------------------

  /** Some pruning among these events comes when this pack's time is over. */
  ghost predicate PrunedLate(es: seq<Event>, until: int) {
    exists i :: 0 <= i < |es| && es[i].Prune? && until <= es[i].now
  }

  lemma PackStep(t: Packs, e: Event, k: Id)
    requires Step(t, e).Some? && k in t
    ensures k in Step(t, e).value ==> Step(t, e).value[k] == t[k]
    ensures k !in Step(t, e).value ==>
              && e.Prune? && t[k].status == "incomplete"
              && t[k].retention.Some? && t[k].retention.value.class_ == "working"
              && t[k].retention.value.until.Some? && t[k].retention.value.until.value <= e.now
  {
  }

  /** A pack never changes. One that is deleted was an incomplete working pack with an end, and a pruning came
    * after that end; so complete packs, and packs without an end, are never deleted. */
  lemma {:induction false} PackStays(t: Packs, es: seq<Event>, more: seq<Event>, k: Id)
    requires Run(t, es).Some? && Run(t, es + more).Some? && k in Run(t, es).value
    requires forall i :: 0 <= i < |more| && more[i].Generate? ==> more[i].id != k
    ensures var p := Run(t, es).value[k]; var u := Run(t, es + more).value;
            && (k in u ==> u[k] == p)
            && (k !in u ==> p.status == "incomplete" && p.retention.Some? && p.retention.value.class_ == "working"
                            && p.retention.value.until.Some? && PrunedLate(more, p.retention.value.until.value))
  {
    if more == [] {
      assert es + more == es;
    } else {
      var n := |more| - 1;
      var before := es + more[..n];
      assert es + more == before + [more[n]];
      assert (before + [more[n]])[..|before|] == before;
      PackStays(t, es, more[..n], k);
      var p := Run(t, es).value[k];
      if k in Run(t, before).value {
        PackStep(Run(t, before).value, more[n], k);
        if k !in Run(t, es + more).value { assert more[n].Prune? && p.retention.value.until.value <= more[n].now; }
      } else {
        var i :| 0 <= i < n && more[..n][i].Prune? && p.retention.value.until.value <= more[..n][i].now;
        assert more[i].Prune?;
      }
    }
  }

  lemma GeneratedPack(t: Packs, es: seq<Event>, e: Event)
    requires e.Generate? && Run(t, es).Some? && Run(t, es + [e]).Some?
    ensures e.id in Run(t, es + [e]).value
    ensures Run(t, es + [e]).value[e.id]
            == if e.blocked
               then Pack(e.session, "incomplete", e.admin, e.now, Some(Retention("working", Some(e.now + e.keepFor))))
               else Pack(e.session, "complete", e.admin, e.now, Some(Retention("final", None)))
  {
    assert (es + [e])[..|es|] == es;
    assert Run(t, es + [e]) == Step(Run(t, es).value, e);
  }

  /** In every run, a pack generated without blockers is complete and final and stays so for good. One
    * generated with blockers is incomplete and working, with an end, and stays so until a pruning after
    * that end deletes it. */
  lemma GeneratedPackStays(t: Packs, es: seq<Event>, e: Event, more: seq<Event>)
    requires e.Generate? && Run(t, es).Some? && Run(t, es + [e]).Some? && Run(t, es + [e] + more).Some?
    requires forall i :: 0 <= i < |more| && more[i].Generate? ==> more[i].id != e.id
    ensures var u := Run(t, es + [e] + more).value;
            && (!e.blocked ==>
                  e.id in u
                  && u[e.id] == Pack(e.session, "complete", e.admin, e.now, Some(Retention("final", None))))
            && (e.blocked && e.id in u ==>
                  u[e.id] == Pack(e.session, "incomplete", e.admin, e.now,
                                  Some(Retention("working", Some(e.now + e.keepFor)))))
            && (e.blocked && e.id !in u ==> PrunedLate(more, e.now + e.keepFor))
  {
    GeneratedPack(t, es, e);
    var p := Run(t, es + [e]).value[e.id];
    assert p.status == "incomplete" ==> e.blocked;
    PackStays(t, es + [e], more, e.id);
  }

  // ---- What the collector sees -------------------------------------------------------------------

  /** A moment as the API writes it. Only that the text is not empty matters here. */
  function Moment(x: int): string {
    if x < 0 then "-" + Decimal(-x) else Decimal(x)
  }

  function OptionalMoment(x: Option<int>): Json {
    if x.Some? then JStr(Moment(x.value)) else JNull
  }

  /** The fields of EvidencePackResponse that the collector reads. */
  function PackItem(t: Packs, k: Id): Row {
    if k in t && t[k].retention.Some? then
      map["status" := JStr(t[k].status),
          "retention_class" := JStr(t[k].retention.value.class_),
          "retain_until" := OptionalMoment(t[k].retention.value.until)]
    else map[]
  }

  function PackList(t: Packs, order: seq<Id>): seq<Row> {
    Render(order, (k: Id) => PackItem(t, k))
  }

  /** The API lists exactly the session's packs, in some order. */
  predicate Lists(order: seq<Id>, t: Packs, session: Id) {
    && (forall k :: k in order ==> k in t && t[k].session == session)
    && (forall k :: k in t && t[k].session == session ==> k in order)
  }

  // ---- Every run after the migration -------------------------------------------------------------

  /** A pack as the service itself would have written it. */
  predicate WellKept(p: Pack) {
    && p.retention.Some?
    && if p.status == "complete" then p.retention.value == Retention("final", None)
       else p.retention.value.class_ == "working" && p.retention.value.until.Some?
  }

  /** The packs of before the migration are all still there, as the migration left them; all others are
    * well kept. */
  ghost predicate Inv(old_: Packs, t: Packs) {
    && (forall k :: k in old_ ==> k in t && t[k] == Up25Packs(old_)[k])
    && (forall k :: k in t && k !in old_ ==> WellKept(t[k]))
  }

  lemma StepKeepsInv(old_: Packs, t: Packs, e: Event)
    requires Inv(old_, t) && Step(t, e).Some?
    ensures Inv(old_, Step(t, e).value)
  {
    var u := Step(t, e).value;
    forall k | k in old_ ensures k in u && u[k] == Up25Packs(old_)[k] {
      assert t[k].retention.value.until.None?;
    }
  }

  lemma {:induction false} RunKeepsInv(old_: Packs, es: seq<Event>)
    requires Run(Up25Packs(old_), es).Some?
    ensures Inv(old_, Run(Up25Packs(old_), es).value)
  {
    if es != [] {
      RunKeepsInv(old_, es[..|es| - 1]);
      StepKeepsInv(old_, Run(Up25Packs(old_), es[..|es| - 1]).value, es[|es| - 1]);
    }
  }

  lemma ItemIsRead(t: Packs, k: Id)
    requires k in t && t[k].retention.Some?
    ensures Stabilization.Complete(PackItem(t, k)) <==> t[k].status == "complete"
    ensures Stabilization.FinalForever(PackItem(t, k)) <==> t[k].retention.value == Retention("final", None)
    ensures Stabilization.WorkingWithEnd(PackItem(t, k)) <==>
              t[k].retention.value.class_ == "working" && t[k].retention.value.until.Some?
  {
    var until := t[k].retention.value.until;
    assert until.Some? ==> Moment(until.value) != "";
  }

  predicate Untouched(old_: Packs, session: Id) {
    forall k :: k in old_ && old_[k].session == session ==> old_[k].status == "complete"
  }

  predicate HasComplete(t: Packs, session: Id) {
    exists k :: k in t && t[k].session == session && t[k].status == "complete"
  }

  predicate Passes(x: Row) {
    if Stabilization.Complete(x) then Stabilization.FinalForever(x) else Stabilization.WorkingWithEnd(x)
  }

  /** One listed pack passes the collector's test exactly when it is not an incomplete one from before the
    * migration. */
  lemma ItemPasses(old_: Packs, t: Packs, k: Id)
    requires Inv(old_, t) && k in t
    ensures Passes(PackItem(t, k)) <==> !(k in old_ && old_[k].status != "complete")
  {
    ItemIsRead(t, k);
  }

  lemma SomeListedIsComplete(t: Packs, session: Id, order: seq<Id>)
    requires Lists(order, t, session) && forall k :: k in t ==> t[k].retention.Some?
    ensures (exists x :: x in PackList(t, order) && Stabilization.Complete(x)) <==> HasComplete(t, session)
  {
    var list := PackList(t, order);
    forall i | 0 <= i < |order| ensures Stabilization.Complete(list[i]) <==> t[order[i]].status == "complete" {
      ItemIsRead(t, order[i]);
    }
    if HasComplete(t, session) {
      var k :| k in t && t[k].session == session && t[k].status == "complete";
      var i :| 0 <= i < |order| && order[i] == k;
      assert list[i] in list && Stabilization.Complete(list[i]);
    }
  }

  lemma AllListedPass(old_: Packs, t: Packs, session: Id, order: seq<Id>)
    requires Inv(old_, t) && Lists(order, t, session)
    ensures (forall x :: x in PackList(t, order) ==> Passes(x)) <==> Untouched(old_, session)
  {
    var list := PackList(t, order);
    forall i | 0 <= i < |order|
      ensures Passes(list[i]) <==> !(order[i] in old_ && old_[order[i]].status != "complete")
    {
      ItemPasses(old_, t, order[i]);
    }
    if k :| k in old_ && old_[k].session == session && old_[k].status != "complete" {
      assert k in t && t[k].session == session;
      var i :| 0 <= i < |order| && order[i] == k;
      assert list[i] in list;
    }
  }

  /** Over every run of generating and pruning that follows the migration: the retention check passes for a
    * session exactly when it has a complete pack and had no incomplete one when the migration ran. */
  lemma RetentionAfterMigration(old_: Packs, es: seq<Event>, session: Id, order: seq<Id>)
    requires Run(Up25Packs(old_), es).Some? && Lists(order, Run(Up25Packs(old_), es).value, session)
    ensures var t := Run(Up25Packs(old_), es).value;
            Stabilization.RetentionKept(PackList(t, order)) <==> HasComplete(t, session) && Untouched(old_, session)
  {
    var t := Run(Up25Packs(old_), es).value;
    var list := PackList(t, order);
    RunKeepsInv(old_, es);
    SomeListedIsComplete(t, session, order);
    AllListedPass(old_, t, session, order);
    assert (forall x :: x in list ==> Passes(x)) <==>
           forall x :: x in list ==>
             if Stabilization.Complete(x) then Stabilization.FinalForever(x) else Stabilization.WorkingWithEnd(x);
  }

  /** In particular right after the migration. */
  lemma RetentionJustMigrated(old_: Packs, session: Id, order: seq<Id>)
    requires Lists(order, old_, session)
    ensures Stabilization.RetentionKept(PackList(Up25Packs(old_), order)) <==>
              HasComplete(old_, session) && Untouched(old_, session)
  {
    var u := Up25Packs(old_);
    assert forall k :: k in old_ ==> u[k].session == old_[k].session && u[k].status == old_[k].status;
    assert Run(u, []) == Some(u);
    RetentionAfterMigration(old_, [], session, order);
    if HasComplete(old_, session) {
      var k :| k in old_ && old_[k].session == session && old_[k].status == "complete";
      assert k in u && u[k].session == session && u[k].status == "complete";
    }
  }

  lemma PacksAreRead(a: Stabilization.Answers, rows: seq<Row>)
    requires a.packs == Array(rows)
    ensures Stabilization.Met(a, Stabilization.RetentionNotVerified) <==> Stabilization.RetentionKept(rows)
  {
    RowsOfArray(rows);
  }

  /** The collector, given any answers whose packs are the session's, reports the retention policy as
    * verified on exactly the same grounds. */
  lemma CollectorAfterMigration(old_: Packs, es: seq<Event>, session: Id, order: seq<Id>, a: Stabilization.Answers,
                                zone: string, name: string)
    requires Run(Up25Packs(old_), es).Some? && Lists(order, Run(Up25Packs(old_), es).value, session)
    requires a.packs == Array(PackList(Run(Up25Packs(old_), es).value, order))
    requires Stabilization.Collected(a, zone, name).Some?
    ensures Stabilization.RetentionNotVerified !in Stabilization.Collected(a, zone, name).value.failures
            <==> HasComplete(Run(Up25Packs(old_), es).value, session) && Untouched(old_, session)
  {
    RetentionAfterMigration(old_, es, session, order);
    PacksAreRead(a, PackList(Run(Up25Packs(old_), es).value, order));
    Stabilization.FailuresAreExact(a, zone, name, Stabilization.RetentionNotVerified);
  }
}
