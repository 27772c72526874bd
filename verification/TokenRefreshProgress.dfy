/** How much a run can do: fetches per call, length of a run, and absence of deadlock. */
module TokenRefreshProgress {
  import opened Wrappers
  import opened TokenRefresh
  import opened TokenRefreshSafety
  import Sessions

  /** Calls that go to the server themselves, and all calls. */
  predicate StartsRequest(e: Event) { e.StartApi? || e.StartLogin? || e.StartLogout? }

  predicate Starts(e: Event) { StartsRequest(e) || e.StartReload? }

  function Count(es: seq<Event>, which: Event -> bool): nat {
    if es == [] then 0 else Count(es[..|es| - 1], which) + (if which(es[|es| - 1]) then 1 else 0)
  }

  // ---- Sums over tasks and refreshes ---------------------------------------------------------------

  function Sum<T>(xs: seq<T>, f: T -> nat): nat {
    if xs == [] then 0 else Sum(xs[..|xs| - 1], f) + f(xs[|xs| - 1])
  }

  lemma {:induction false} SumUpdate<T>(xs: seq<T>, i: nat, x: T, f: T -> nat)
    requires i < |xs|
    ensures Sum(xs[i := x], f) + f(xs[i]) == Sum(xs, f) + f(x)
  {
    var ys := xs[i := x];
    if i == |xs| - 1 {
      assert ys[..|ys| - 1] == xs[..|xs| - 1];
    } else {
      assert ys[..|ys| - 1] == xs[..|xs| - 1][i := x];
      SumUpdate(xs[..|xs| - 1], i, x, f);
    }
  }

  lemma SumAppend<T>(xs: seq<T>, x: T, f: T -> nat)
    ensures Sum(xs + [x], f) == Sum(xs, f) + f(x)
  {
    assert (xs + [x])[..|xs|] == xs;
  }

  // ---- Fetches -------------------------------------------------------------------------------------

  /** The fetches a call may still make: one retry and one refresh. */
  function Budget(t: Task): nat {
    match t
    case Api(_, _, sends, _, _, phase, _, _) =>
      if phase == Waiting then (if sends == 1 then 2 else 0)
      else if phase == Done then 0 else 1
    case _ => 0
  }

  /** The running call an event moves, if any. */
  function Mover(e: Event): Option<nat> {
    match e
    case Answer(p, _) => Some(p)
    case FetchFails(p) => Some(p)
    case Clear(p) => Some(p)
    case Resume(p) => Some(p)
    case ServerLogin(p, _, _) => Some(p)
    case LoginStores(p) => Some(p)
    case LoginRejected(p) => Some(p)
    case LoginFails(p) => Some(p)
    case ServerLogout(p, _) => Some(p)
    case LogoutEnds(p) => Some(p)
    case ReloadEnds(p, _) => Some(p)
    case _ => None
  }

  lemma MoverSpends(w: World, e: Event, p: nat)
    requires Enabled(w, e) && Mover(e) == Some(p)
    requires e.Resume? ==> w.tasks[p].sends == 1
    ensures var v := Next(w, e);
            && p < |w.tasks| && p < |v.tasks| && v.tasks == w.tasks[p := v.tasks[p]]
            && v.fetches + Budget(v.tasks[p]) <= w.fetches + Budget(w.tasks[p])
  {
  }

  lemma OtherSpends(w: World, e: Event)
    requires Enabled(w, e) && Mover(e).None?
    ensures var v := Next(w, e);
            if Starts(e) then |v.tasks| == |w.tasks| + 1 && v.tasks == w.tasks + [v.tasks[|w.tasks|]]
                              && v.fetches + Budget(v.tasks[|w.tasks|])
                                 <= w.fetches + (if StartsRequest(e) then 3 else 0)
            else v.tasks == w.tasks && v.fetches == w.fetches
  {
  }

  lemma StepSpends(w: World, e: Event)
    requires TasksOk(w) && Enabled(w, e)
    ensures var v := Next(w, e);
            && |v.tasks| == |w.tasks| + (if Starts(e) then 1 else 0)
            && v.fetches + Sum(v.tasks, Budget)
               <= w.fetches + Sum(w.tasks, Budget) + (if StartsRequest(e) then 3 else 0)
  {
    var v := Next(w, e);
    if Mover(e).Some? {
      var p := Mover(e).value;
      if e.Resume? { assert TaskOk(w, p); }
      MoverSpends(w, e, p);
      SumUpdate(w.tasks, p, v.tasks[p], Budget);
    } else {
      OtherSpends(w, e);
      if Starts(e) { SumAppend(w.tasks, v.tasks[|w.tasks|], Budget); }
    }
  }

  lemma {:induction false} RunSpends(es: seq<Event>)
    requires Run(es).Some?
    ensures |Run(es).value.tasks| == Count(es, Starts)
    ensures Run(es).value.fetches + Sum(Run(es).value.tasks, Budget) <= 3 * Count(es, StartsRequest)
  {
    if es != [] {
      RunSpends(es[..|es| - 1]);
      RunKeepsInv(es[..|es| - 1]);
      StepSpends(Run(es[..|es| - 1]).value, es[|es| - 1]);
    }
  }

  /** In any interleaving, n requests, logins and logouts make at most 3n fetches, and no request sends more
    * than twice. */
  lemma AtMostThreeFetchesPerCall(es: seq<Event>)
    requires Run(es).Some?
    ensures var w := Run(es).value;
            && |w.tasks| == Count(es, Starts)
            && w.fetches <= 3 * Count(es, StartsRequest)
            && forall p :: 0 <= p < |w.tasks| && w.tasks[p].Api? ==> 1 <= w.tasks[p].sends <= 2
  {
    RunSpends(es);
    RunKeepsInv(es);
    var w := Run(es).value;
    forall p | 0 <= p < |w.tasks| && w.tasks[p].Api? ensures 1 <= w.tasks[p].sends <= 2 { assert TaskOk(w, p); }
  }

  /** Each request calls `refresh` at most once: the refreshes it may start have one initiator each. */
  lemma OneRefreshPerRequest(es: seq<Event>, a: nat, b: nat)
    requires Run(es).Some? && a < b < |Run(es).value.refreshes|
    ensures Run(es).value.refreshes[a].initiator != Run(es).value.refreshes[b].initiator
  {
    RunKeepsInv(es);
    assert RefreshOk(Run(es).value, a);
    assert RefreshOk(Run(es).value, b);
  }

  // ---- Length of a run -----------------------------------------------------------------------------

  function TaskWork(t: Task): nat {
    match t
    case Api(_, _, sends, _, _, phase, _, _) =>
      (match phase case Waiting => (if sends == 1 then 8 else 1) case Initiating => 3 case Joined => 2 case Done => 0)
    case Login(issue, open) => (if open then 1 else 0) + (if issue.None? then 1 else 0)
    case Logout(token, served, open) => (if open then 1 else 0) + (if token.Some? && !served then 1 else 0)
    case Reload(open) => if open then 1 else 0
  }

  function RefreshWork(f: Refresh): nat {
    (match f.stage case Fetching => 2 case Reading(_) => 1 case Settled(_) => 0)
    + (if f.token.Some? && f.reply.None? then 1 else 0)
  }

  /** The steps still ahead when no further call is started, at most. */
  function Work(w: World): nat {
    Sum(w.tasks, TaskWork) + Sum(w.refreshes, RefreshWork)
  }

  lemma AnswerShape(w: World, p: nat, unauthorized: bool)
    requires ApiIn(w, p, Waiting)
    ensures var v := Answered(w, p, unauthorized);
            && |v.tasks| == |w.tasks| && v.tasks == w.tasks[p := v.tasks[p]]
            && if |v.refreshes| == |w.refreshes|
               then v.refreshes == w.refreshes && TaskWork(v.tasks[p]) < TaskWork(w.tasks[p])
               else |v.refreshes| == |w.refreshes| + 1 && v.refreshes == w.refreshes + [v.refreshes[|w.refreshes|]]
                    && TaskWork(v.tasks[p]) + RefreshWork(v.refreshes[|w.refreshes|]) < TaskWork(w.tasks[p])
  {
  }

  lemma AnswerWorks(w: World, p: nat, unauthorized: bool)
    requires ApiIn(w, p, Waiting)
    ensures Work(Answered(w, p, unauthorized)) < Work(w)
  {
    var v := Answered(w, p, unauthorized);
    AnswerShape(w, p, unauthorized);
    SumUpdate(w.tasks, p, v.tasks[p], TaskWork);
    if |v.refreshes| > |w.refreshes| { SumAppend(w.refreshes, v.refreshes[|w.refreshes|], RefreshWork); }
  }

  lemma MoverWorks(w: World, e: Event, p: nat)
    requires Enabled(w, e) && Mover(e) == Some(p) && !e.Answer?
    requires e.Resume? ==> w.tasks[p].sends == 1
    ensures var v := Next(w, e);
            && p < |w.tasks| && p < |v.tasks| && v.tasks == w.tasks[p := v.tasks[p]]
            && TaskWork(v.tasks[p]) < TaskWork(w.tasks[p]) && v.refreshes == w.refreshes
  {
  }

  function RefreshOf(e: Event): nat {
    match e
    case ServerRefresh(r, _) => r
    case RefreshAnswer(r, _) => r
    case RefreshFails(r) => r
    case RefreshBody(r) => r
    case _ => 0
  }

  lemma OtherWorks(w: World, e: Event)
    requires Enabled(w, e) && Mover(e).None? && !e.ServerCleanup?
    ensures var v := Next(w, e); var r := RefreshOf(e);
            if Starts(e) then |v.tasks| == |w.tasks| + 1 && v.tasks == w.tasks + [v.tasks[|w.tasks|]]
                              && TaskWork(v.tasks[|w.tasks|]) <= 8 && v.refreshes == w.refreshes
            else r < |w.refreshes| && r < |v.refreshes| && v.refreshes == w.refreshes[r := v.refreshes[r]]
                 && RefreshWork(v.refreshes[r]) < RefreshWork(w.refreshes[r]) && v.tasks == w.tasks
  {
  }

  /** The start of a call adds at most eight to the remaining work, a clean-up adds none, and every other
    * step uses some of it up. */
  lemma StepWorks(w: World, e: Event)
    requires TasksOk(w) && Enabled(w, e)
    ensures if Starts(e) then Work(Next(w, e)) <= Work(w) + 8
            else if e.ServerCleanup? then Work(Next(w, e)) == Work(w)
            else Work(Next(w, e)) < Work(w)
  {
    var v := Next(w, e);
    if e.Answer? {
      AnswerWorks(w, e.task, e.unauthorized);
    } else if Mover(e).Some? {
      var p := Mover(e).value;
      if e.Resume? { assert TaskOk(w, p); }
      MoverWorks(w, e, p);
      SumUpdate(w.tasks, p, v.tasks[p], TaskWork);
    } else if !e.ServerCleanup? {
      OtherWorks(w, e);
      if Starts(e) { SumAppend(w.tasks, v.tasks[|w.tasks|], TaskWork); }
      else { SumUpdate(w.refreshes, RefreshOf(e), v.refreshes[RefreshOf(e)], RefreshWork); }
    }
  }

  predicate CleansUp(e: Event) { e.ServerCleanup? }

  /** A run with n calls has at most 9n steps besides the clean-ups: every interleaving ends. */
  lemma {:induction false} RunsEnd(es: seq<Event>)
    requires Run(es).Some?
    ensures |es| + Work(Run(es).value) <= 9 * Count(es, Starts) + Count(es, CleansUp)
  {
    if es != [] {
      RunsEnd(es[..|es| - 1]);
      RunKeepsInv(es[..|es| - 1]);
      StepWorks(Run(es[..|es| - 1]).value, es[|es| - 1]);
    }
  }

  // ---- No deadlock ---------------------------------------------------------------------------------

  predicate Over(t: Task) {
    match t
    case Api(_, _, _, _, _, phase, _, _) => phase == Done
    case Login(_, open) => !open
    case Logout(_, _, open) => !open
    case Reload(open) => !open
  }

  /** A step of the client that is possible while call p is unfinished: a ready continuation, or else, at
    * worst, a failure of what the call waits for. */
  lemma NextStep(w: World, p: nat) returns (e: Event)
    requires Inv(w) && p < |w.tasks| && !Over(w.tasks[p])
    ensures Enabled(w, e) && !Starts(e) && !e.ServerCleanup?
  {
    assert TaskOk(w, p);
    if Draining(w) {
      var q :| 0 <= q < |w.tasks| && Ready(w, q);
      e := if w.tasks[q].phase.Initiating? then Clear(q) else Resume(q);
    } else if w.tasks[p].Login? {
      e := LoginFails(p);
    } else if w.tasks[p].Logout? {
      e := LogoutEnds(p);
    } else if w.tasks[p].Reload? {
      e := ReloadEnds(p, false);
    } else if w.tasks[p].phase.Waiting? {
      e := FetchFails(p);
    } else {
      assert w.refreshes[w.tasks[p].joined.value].stage.Settled? ==> Ready(w, p);
      e := RefreshFails(w.tasks[p].joined.value);
    }
  }

  /** All calls are over. */
  predicate AllOver(w: World) {
    forall p :: 0 <= p < |w.tasks| ==> Over(w.tasks[p])
  }

  /** Once all calls are over the module variable is clear and no refresh is open. */
  lemma IdleIsClean(es: seq<Event>)
    requires Run(es).Some? && AllOver(Run(es).value)
    ensures Run(es).value.refreshing.None?
    ensures forall r :: 0 <= r < |Run(es).value.refreshes| ==> Run(es).value.refreshes[r].stage.Settled?
  {
    RunKeepsInv(es);
  }

  /** No outcome is excluded: while no continuation is ready, every request under way may be answered either
    * way or fail, every refresh under way may be refused, lost, or, once the server has granted it, answered
    * and then read, every login may fail, be kept or be refused, and every logout may end. New calls and
    * clean-ups may come at any time. */
  lemma EveryOutcomeIsOpen(w: World, p: nat, r: nat, yes: bool, now: int)
    ensures Enabled(w, StartApi(yes, !yes)) && Enabled(w, StartApi(yes, yes)) && Enabled(w, StartLogin)
            && Enabled(w, StartLogout) && Enabled(w, StartReload) && Enabled(w, ServerCleanup(now))
    ensures ApiIn(w, p, Waiting) && !Draining(w) ==> Enabled(w, Answer(p, yes)) && Enabled(w, FetchFails(p))
    ensures r < |w.refreshes| && !w.refreshes[r].stage.Settled? && !Draining(w) ==>
              && Enabled(w, RefreshFails(r))
              && (w.refreshes[r].stage.Fetching? ==> Enabled(w, RefreshAnswer(r, false)))
              && (w.refreshes[r].stage.Fetching? && w.refreshes[r].reply.Some? && w.refreshes[r].reply.value.Pair? ==>
                    Enabled(w, RefreshAnswer(r, true)))
              && (w.refreshes[r].stage.Reading? ==> Enabled(w, RefreshBody(r)))
    ensures p < |w.tasks| && w.tasks[p].Login? && w.tasks[p].open && !Draining(w) ==>
              && Enabled(w, LoginFails(p))
              && (w.tasks[p].issue.Some? ==> Enabled(w, LoginStores(p)) && Enabled(w, LoginRejected(p)))
    ensures p < |w.tasks| && w.tasks[p].Logout? && w.tasks[p].open && !Draining(w) ==> Enabled(w, LogoutEnds(p))
    ensures p < |w.tasks| && w.tasks[p] == Reload(true) && !Draining(w) ==> Enabled(w, ReloadEnds(p, yes))
  {
  }

  /** Nor does the server exclude any: it may process any call that has reached it and has not been processed,
    * whether the client still waits or not, at any time and with any answer about the user. */
  lemma EveryServerStepIsOpen(w: World, p: nat, r: nat, now: int, user: nat, active: bool)
    ensures r < |w.refreshes| && w.refreshes[r].token.Some? && w.refreshes[r].reply.None? ==>
              Enabled(w, ServerRefresh(r, Sessions.Draw(now, now, |w.rows|, |w.rows|, now, active)))
    ensures p < |w.tasks| && w.tasks[p].Login? && w.tasks[p].issue.None? ==> Enabled(w, ServerLogin(p, user, now))
    ensures p < |w.tasks| && w.tasks[p].Logout? && w.tasks[p].token.Some? && !w.tasks[p].served ==>
              Enabled(w, ServerLogout(p, now))
  {
  }

  /** While a call is unfinished the run can be continued by a step that starts none and uses up work. */
  lemma OneMoreStep(es: seq<Event>) returns (e: Event)
    requires Run(es).Some? && !AllOver(Run(es).value)
    ensures !Starts(e) && Run(es + [e]).Some?
    ensures Work(Run(es + [e]).value) < Work(Run(es).value) && |Run(es + [e]).value.tasks| == |Run(es).value.tasks|
  {
    var w := Run(es).value;
    RunKeepsInv(es);
    var p :| 0 <= p < |w.tasks| && !Over(w.tasks[p]);
    e := NextStep(w, p);
    RunExtends(es, e);
    StepWorks(w, e);
    StepSpends(w, e);
  }

  /** A longer run that starts no new call and ends with all calls over. */
  ghost predicate Finishes(es: seq<Event>, all: seq<Event>) {
    && es <= all && (forall i :: |es| <= i < |all| ==> !Starts(all[i]))
    && Run(all).Some? && AllOver(Run(all).value)
  }

  /** No deadlock: every run can be continued, without starting a new call, until all its calls are over. */
  lemma {:induction false} EveryRunCanFinish(es: seq<Event>) returns (all: seq<Event>)
    requires Run(es).Some?
    ensures Finishes(es, all)
    decreases Work(Run(es).value)
  {
    if AllOver(Run(es).value) {
      all := es;
    } else {
      var e := OneMoreStep(es);
      all := EveryRunCanFinish(es + [e]);
      assert all[|es|] == e;
    }
  }
}
