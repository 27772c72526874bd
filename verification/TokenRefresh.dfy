/** The admin dashboard's token refresh as a transition system: any number of requests, logins and
  * logouts that interleave at their await points, one token store, one shared refresh, and the server's
  * session table.
  *
  * The n-th session the server creates issues the n-th token pair, so a pair, its access token, its
  * refresh token and its session row all carry one issue number. The world remembers every row; those the
  * scheduled clean-up has deleted are marked as gone. */
module TokenRefresh {
  import opened Wrappers
  import opened Deletion
  import Sessions

  /** How the promise made by one refresh settled. */
  datatype Outcome = Renewed | NotRenewed | Threw

  /** Where the body of one refresh stands: awaiting the fetch, awaiting the body, or settled. */
  datatype Stage = Fetching | Reading(issue: nat) | Settled(outcome: Outcome)

  datatype Reply = Pair(issue: nat) | Refusal(why: Sessions.Reply)

  datatype Refresh = Refresh(
    initiator: nat,           // the request that started it
    token: Option<nat>,       // the refresh token it presented, if the store held one
    reply: Option<Reply>,     // what the server decided, once it has processed the call
    stage: Stage,
    storedAt: Option<nat>,    // which write to the store delivered its pair
    storedBefore: nat,        // how many writes to the store preceded it
    issuedBefore: nat,        // how many pairs the server had issued when it was sent
    revokedAtSend: bool,      // the presented session was already revoked when the call was sent
    duringLogout: bool        // a logout of that session was in flight, and processed, at that time
  )

  datatype Phase = Waiting | Initiating | Joined | Done

  /** One running client call. Headers name the store write whose access token they carry. */
  datatype Task =
    | Api(auth: bool, retry: bool, sends: nat, first: Option<nat>, header: Option<nat>,
          phase: Phase, joined: Option<nat>, got: Option<Outcome>)
    | Login(issue: Option<nat>, open: bool)
    | Logout(token: Option<nat>, served: bool, open: bool)
    | Reload(open: bool)

  /** The client call a pair was issued to. */
  datatype Owner = ByLogin(task: nat) | ByRefresh(refresh: nat)

  datatype World = World(
    store: Option<nat>,       // the write that is still in the store; None after a clear
    log: seq<nat>,            // the issue numbers written to the store, in order
    refreshing: Option<nat>,  // the module variable
    refreshes: seq<Refresh>,
    tasks: seq<Task>,
    rows: Sessions.Table,     // every session ever created, as it is or as it was when it was deleted
    gone: set<nat>,           // the sessions that have been deleted
    owner: seq<Owner>,
    fetches: nat              // fetch calls made so far
  )

  const START := World(None, [], None, [], [], [], {}, [], 0)

  datatype Event =
    | StartApi(auth: bool, retry: bool)
    | Answer(task: nat, unauthorized: bool)
    | FetchFails(task: nat)
    | ServerRefresh(refresh: nat, draw: Sessions.Draw)
    | RefreshAnswer(refresh: nat, ok: bool)
    | RefreshFails(refresh: nat)
    | RefreshBody(refresh: nat)
    | Clear(task: nat)
    | Resume(task: nat)
    | StartLogin
    | ServerLogin(task: nat, user: nat, expiresAt: int)
    | LoginStores(task: nat)
    | LoginRejected(task: nat)
    | LoginFails(task: nat)
    | StartLogout
    | ServerLogout(task: nat, now: int)
    | LogoutEnds(task: nat)
    | ServerCleanup(now: int)
    | StartReload
    | ReloadEnds(task: nat, failed: bool)

  // ---- Reading the state -------------------------------------------------------------------------

  /** The issue number of the pair in the store. */
  function Held(w: World): Option<nat> {
    if w.store.Some? && w.store.value < |w.log| then Some(w.log[w.store.value]) else None
  }

  /** The server's table. */
  function Present(w: World): Sessions.Table {
    Kept(w.rows, (s: Sessions.Session) => s.id !in w.gone)
  }

  /** The session has been revoked, whether or not its row has been deleted since. */
  predicate IsRevoked(rows: Sessions.Table, issue: nat) {
    issue < |rows| && rows[issue].revokedAt.Some?
  }

  /** A logout that presented this token has been processed by the server but has not cleared the store. */
  predicate LogoutUnderWay(tasks: seq<Task>, token: nat) {
    exists q :: 0 <= q < |tasks| && tasks[q] == Logout(Some(token), true, true)
  }

  predicate ApiIn(w: World, p: nat, phase: Phase) {
    p < |w.tasks| && w.tasks[p].Api? && w.tasks[p].phase == phase
  }

  predicate OpenLogin(w: World, p: nat) {
    p < |w.tasks| && w.tasks[p].Login? && w.tasks[p].open
  }

  predicate JoinedSettled(w: World, p: nat) {
    && p < |w.tasks| && w.tasks[p].Api? && w.tasks[p].joined.Some?
    && w.tasks[p].joined.value < |w.refreshes|
    && w.refreshes[w.tasks[p].joined.value].stage.Settled?
  }

  /** Request p waits for a refresh that has settled: its continuation is ready to run. */
  predicate Ready(w: World, p: nat) {
    (ApiIn(w, p, Initiating) || ApiIn(w, p, Joined)) && JoinedSettled(w, p)
  }

  /** Some continuation is ready. The event loop runs all of them before it delivers a network answer. */
  predicate Draining(w: World) {
    exists p :: 0 <= p < |w.tasks| && Ready(w, p)
  }

  /** Some ready continuation is about to retry. The failure of a profile request does not come at such a
    * moment: it takes a network answer, or a refresh that did not succeed. */
  predicate AboutToRetry(w: World) {
    exists p :: 0 <= p < |w.tasks| && Ready(w, p) && w.refreshes[w.tasks[p].joined.value].stage == Settled(Renewed)
  }

  /** Which events can happen next. Server events need no client, and may come after the client gave up. */
  predicate Enabled(w: World, e: Event) {
    match e
    case StartApi(_, _) => true
    case Answer(p, _) => ApiIn(w, p, Waiting) && !Draining(w)
    case FetchFails(p) => ApiIn(w, p, Waiting) && !Draining(w)
    case ServerRefresh(r, d) =>
      && r < |w.refreshes| && w.refreshes[r].token.Some? && w.refreshes[r].reply.None?
      && d.newId == |w.rows| && d.newHash == |w.rows|
    case RefreshAnswer(r, ok) =>
      && r < |w.refreshes| && w.refreshes[r].stage == Fetching && !Draining(w)
      && (ok ==> w.refreshes[r].reply.Some? && w.refreshes[r].reply.value.Pair?)
    case RefreshFails(r) => r < |w.refreshes| && !w.refreshes[r].stage.Settled? && !Draining(w)
    case RefreshBody(r) => r < |w.refreshes| && w.refreshes[r].stage.Reading? && !Draining(w)
    case Clear(p) => ApiIn(w, p, Initiating) && JoinedSettled(w, p)
    case Resume(p) => ApiIn(w, p, Joined) && JoinedSettled(w, p)
    case StartLogin => true
    case ServerLogin(p, _, _) => p < |w.tasks| && w.tasks[p].Login? && w.tasks[p].issue.None?
    case LoginStores(p) => OpenLogin(w, p) && w.tasks[p].issue.Some? && !Draining(w)
    case LoginRejected(p) => OpenLogin(w, p) && w.tasks[p].issue.Some? && !Draining(w)
    case LoginFails(p) => OpenLogin(w, p) && !Draining(w)
    case StartLogout => true
    case ServerLogout(p, _) => p < |w.tasks| && w.tasks[p].Logout? && w.tasks[p].token.Some? && !w.tasks[p].served
    case LogoutEnds(p) => p < |w.tasks| && w.tasks[p].Logout? && w.tasks[p].open && !Draining(w)
    case ServerCleanup(_) => true
    case StartReload => true
    case ReloadEnds(p, failed) => p < |w.tasks| && w.tasks[p] == Reload(true) && (failed ==> !AboutToRetry(w))
  }

  // ---- The steps ---------------------------------------------------------------------------------

  function WithTask(w: World, p: nat, t: Task): World
    requires p < |w.tasks|
  {
    w.(tasks := w.tasks[p := t])
  }

  /** `tokenStore.set`. */
  function Stored(w: World, issue: nat): World {
    w.(log := w.log + [issue], store := Some(|w.log|))
  }

  function Settle(w: World, r: nat, outcome: Outcome): World
    requires r < |w.refreshes|
  {
    w.(refreshes := w.refreshes[r := w.refreshes[r].(stage := Settled(outcome))])
  }

  /** The synchronous part of calling `refresh`: join the shared promise, or start one. Without a pair
    * in the store the new refresh has settled before anything else runs. */
  function CallRefresh(w: World, p: nat): World
    requires p < |w.tasks| && w.tasks[p].Api?
  {
    var t := w.tasks[p];
    if w.refreshing.Some? then
      WithTask(w, p, t.(phase := Joined, joined := w.refreshing))
    else
      var r := |w.refreshes|;
      var v := WithTask(w, p, t.(phase := Initiating, joined := Some(r))).(refreshing := Some(r));
      match Held(w)
      case None =>
        var f := Refresh(p, None, None, Settled(NotRenewed), None, |w.log|, |w.rows|, false, false);
        v.(refreshes := w.refreshes + [f])
      case Some(token) =>
        v.(refreshes := w.refreshes + [Refresh(p, Some(token), None, Fetching, None, |w.log|, |w.rows|,
                                               IsRevoked(w.rows, token), LogoutUnderWay(w.tasks, token))],
           fetches := w.fetches + 1)
  }

  function StartedApi(w: World, auth: bool, retry: bool): World {
    var header := if auth then w.store else None;
    w.(tasks := w.tasks + [Api(auth, retry, 1, header, header, Waiting, None, None)], fetches := w.fetches + 1)
  }

  function Finished(w: World, p: nat): World
    requires p < |w.tasks| && w.tasks[p].Api?
  {
    WithTask(w, p, w.tasks[p].(phase := Done))
  }

  function Answered(w: World, p: nat, unauthorized: bool): World
    requires p < |w.tasks| && w.tasks[p].Api?
  {
    var t := w.tasks[p];
    if unauthorized && t.auth && t.retry && t.sends == 1 then CallRefresh(w, p) else Finished(w, p)
  }

  /** What the server replies to a refresh token. A deleted session is unknown. */
  function ServerReply(w: World, token: nat, d: Sessions.Draw): Sessions.Reply {
    if token in w.gone then Sessions.Invalid else Sessions.ReplyTo(w.rows, token, d)
  }

  function ServedRefresh(w: World, r: nat, d: Sessions.Draw): World
    requires r < |w.refreshes| && w.refreshes[r].token.Some?
  {
    var f := w.refreshes[r];
    var token := f.token.value;
    var reply := ServerReply(w, token, d);
    var v := if token in w.gone then w else w.(rows := Sessions.AfterRefresh(w.rows, token, d));
    if reply.Rotated?
    then v.(refreshes := w.refreshes[r := f.(reply := Some(Pair(|w.rows|)))], owner := w.owner + [ByRefresh(r)])
    else v.(refreshes := w.refreshes[r := f.(reply := Some(Refusal(reply)))])
  }

  /** A good answer is read next; any other answer clears the store. */
  function RefreshAnswered(w: World, r: nat, ok: bool): World
    requires r < |w.refreshes|
    requires ok ==> w.refreshes[r].reply.Some? && w.refreshes[r].reply.value.Pair?
  {
    var f := w.refreshes[r];
    if ok then w.(refreshes := w.refreshes[r := f.(stage := Reading(f.reply.value.issue))])
    else Settle(w, r, NotRenewed).(store := None)
  }

  function RefreshRead(w: World, r: nat): World
    requires r < |w.refreshes| && w.refreshes[r].stage.Reading?
  {
    var f := w.refreshes[r];
    Stored(w, f.stage.issue).(refreshes := w.refreshes[r := f.(stage := Settled(Renewed), storedAt := Some(|w.log|))])
  }

  /** The initiator's `finally`. */
  function Cleared(w: World, p: nat): World
    requires p < |w.tasks| && w.tasks[p].Api?
  {
    WithTask(w, p, w.tasks[p].(phase := Joined)).(refreshing := None)
  }

  /** A request whose refresh has settled: retry once, report the 401, or fail. */
  function Resumed(w: World, p: nat): World
    requires JoinedSettled(w, p)
  {
    var outcome := w.refreshes[w.tasks[p].joined.value].stage.outcome;
    var t := w.tasks[p].(got := Some(outcome));
    if outcome == Renewed
    then WithTask(w, p, t.(phase := Waiting, sends := t.sends + 1, header := w.store)).(fetches := w.fetches + 1)
    else WithTask(w, p, t.(phase := Done))
  }

  function StartedLogin(w: World): World {
    w.(tasks := w.tasks + [Login(None, true)], fetches := w.fetches + 1)
  }

  function ServedLogin(w: World, p: nat, user: nat, expiresAt: int): World
    requires p < |w.tasks| && w.tasks[p].Login?
  {
    WithTask(w, p, w.tasks[p].(issue := Some(|w.rows|)))
      .(rows := Sessions.AfterLogin(w.rows, |w.rows|, user, |w.rows|, expiresAt), owner := w.owner + [ByLogin(p)])
  }

  function LoginStored(w: World, p: nat): World
    requires p < |w.tasks| && w.tasks[p].Login? && w.tasks[p].issue.Some?
  {
    Stored(WithTask(w, p, Login(w.tasks[p].issue, false)), w.tasks[p].issue.value)
  }

  /** A login that failed, or that was refused because the account is not an administrator. */
  function LoginEnded(w: World, p: nat, refused: bool): World
    requires p < |w.tasks| && w.tasks[p].Login?
  {
    WithTask(w, p, Login(w.tasks[p].issue, false)).(store := if refused then None else w.store)
  }

  function StartedLogout(w: World): World {
    if Held(w).None? then w.(tasks := w.tasks + [Logout(None, false, false)], store := None)
    else w.(tasks := w.tasks + [Logout(Held(w), false, true)], fetches := w.fetches + 1)
  }

  function ServedLogout(w: World, p: nat, now: int): World
    requires p < |w.tasks| && w.tasks[p].Logout? && w.tasks[p].token.Some?
  {
    var token := w.tasks[p].token.value;
    var v := WithTask(w, p, w.tasks[p].(served := true));
    if token in w.gone then v else v.(rows := Sessions.AfterLogout(w.rows, token, now))
  }

  /** The scheduled clean-up deletes expired sessions and those revoked long ago. */
  function CleanedUp(w: World, now: int): World {
    w.(gone := w.gone + set k: nat | k < |w.rows| && Sessions.Doomed(w.rows[k], now))
  }

  /** `reload` asks for the profile, which is one of the requests; when that fails it clears the store. */
  function ReloadEnded(w: World, p: nat, failed: bool): World
    requires p < |w.tasks|
  {
    WithTask(w, p, Reload(false)).(store := if failed then None else w.store)
  }

  function LogoutEnded(w: World, p: nat): World
    requires p < |w.tasks| && w.tasks[p].Logout?
  {
    WithTask(w, p, Logout(w.tasks[p].token, w.tasks[p].served, false)).(store := None)
  }

  function Next(w: World, e: Event): World
    requires Enabled(w, e)
  {
    match e
    case StartApi(auth, retry) => StartedApi(w, auth, retry)
    case Answer(p, unauthorized) => Answered(w, p, unauthorized)
    case FetchFails(p) => Finished(w, p)
    case ServerRefresh(r, d) => ServedRefresh(w, r, d)
    case RefreshAnswer(r, ok) => RefreshAnswered(w, r, ok)
    case RefreshFails(r) => Settle(w, r, Threw)
    case RefreshBody(r) => RefreshRead(w, r)
    case Clear(p) => Cleared(w, p)
    case Resume(p) => Resumed(w, p)
    case StartLogin => StartedLogin(w)
    case ServerLogin(p, user, expiresAt) => ServedLogin(w, p, user, expiresAt)
    case LoginStores(p) => LoginStored(w, p)
    case LoginRejected(p) => LoginEnded(w, p, true)
    case LoginFails(p) => LoginEnded(w, p, false)
    case StartLogout => StartedLogout(w)
    case ServerLogout(p, now) => ServedLogout(w, p, now)
    case LogoutEnds(p) => LogoutEnded(w, p)
    case ServerCleanup(now) => CleanedUp(w, now)
    case StartReload => w.(tasks := w.tasks + [Reload(true)])
    case ReloadEnds(p, failed) => ReloadEnded(w, p, failed)
  }

  // ---- Runs --------------------------------------------------------------------------------------

  /** The world a run of events leads to, or None when some event of it was not enabled. */
  function Run(es: seq<Event>): Option<World> {
    if es == [] then Some(START)
    else
      var before := Run(es[..|es| - 1]);
      if before.Some? && Enabled(before.value, es[|es| - 1]) then Some(Next(before.value, es[|es| - 1])) else None
  }

  lemma RunExtends(es: seq<Event>, e: Event)
    requires Run(es).Some? && Enabled(Run(es).value, e)
    ensures Run(es + [e]) == Some(Next(Run(es).value, e))
  {
    assert (es + [e])[..|es|] == es;
  }
}
