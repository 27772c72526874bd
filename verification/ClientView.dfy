/** What the dashboard's client holds of the protocol's world, and how each kind of step moves it. */
module ClientView {
  import opened Wrappers
  import T = TokenRefresh
  import Safety = TokenRefreshSafety

  /** A token pair, by its issue number. */
  type Pair = nat

  /** The promise made by one call of `refresh`: awaiting the fetch, awaiting the body, or settled. */
  datatype Promise = Asking | Reading | Settled(outcome: T.Outcome)

  /** The await at which a request stands. */
  datatype Await = Fetch | OwnRefresh(promise: nat) | SharedRefresh(promise: nat) | Over

  datatype Call =
    | Request(auth: bool, retry: bool, bearer: Option<Pair>, at: Await)
    | VerifyOtp(open: bool)
    | SignOut(token: Option<Pair>, open: bool)
    | Profile(open: bool)

  /** What a step hands to `fetch`. */
  datatype Sent = Plain(bearer: Option<Pair>) | RefreshWith(token: Pair) | LogoutWith(token: Pair)

  // ---- The client's view of a world ------------------------------------------------------------------

  function PairAt(log: seq<nat>, write: Option<nat>): Option<Pair> {
    if write.Some? && write.value < |log| then Some(log[write.value]) else None
  }

  function PromiseOf(f: T.Refresh): Promise {
    match f.stage
    case Fetching => Asking
    case Reading(_) => Reading
    case Settled(outcome) => Settled(outcome)
  }

  function AwaitOf(phase: T.Phase, joined: Option<nat>): Await {
    match phase
    case Waiting => Fetch
    case Initiating => if joined.Some? then OwnRefresh(joined.value) else Over
    case Joined => if joined.Some? then SharedRefresh(joined.value) else Over
    case Done => Over
  }

  function CallOf(log: seq<nat>, t: T.Task): Call {
    match t
    case Api(auth, retry, sends, _, header, phase, joined, _) =>
      Request(auth, retry && sends == 1, PairAt(log, header), AwaitOf(phase, joined))
    case Login(_, open) => VerifyOtp(open)
    case Logout(token, _, open) => SignOut(token, open)
    case Reload(open) => Profile(open)
  }

  /** The stored pair, the module variable, the promises made so far and the calls under way. */
  datatype State = State(stored: Option<Pair>, refreshing: Option<nat>, promises: seq<Promise>, calls: seq<Call>)

  ghost predicate Mirrors(s: State, w: T.World) {
    && s.stored == T.Held(w) && s.refreshing == w.refreshing
    && |s.promises| == |w.refreshes| && |s.calls| == |w.tasks|
    && (forall r {:trigger s.promises[r]} {:trigger w.refreshes[r]} ::
          0 <= r < |s.promises| ==> s.promises[r] == PromiseOf(w.refreshes[r]))
    && (forall p {:trigger s.calls[p]} {:trigger w.tasks[p]} ::
          0 <= p < |s.calls| ==> s.calls[p] == CallOf(w.log, w.tasks[p]))
  }

  /** What each event of the protocol sends. */
  function SentBy(w: T.World, e: T.Event): Option<Sent>
    requires T.Enabled(w, e)
  {
    match e
    case StartApi(auth, _) => Some(Plain(if auth then T.Held(w) else None))
    case Answer(p, unauthorized) =>
      var t := w.tasks[p];
      if unauthorized && t.auth && t.retry && t.sends == 1 && w.refreshing.None? && T.Held(w).Some?
      then Some(RefreshWith(T.Held(w).value)) else None
    case Resume(p) =>
      if w.refreshes[w.tasks[p].joined.value].stage.outcome == T.Renewed then Some(Plain(T.Held(w))) else None
    case StartLogin => Some(Plain(None))
    case StartLogout => if T.Held(w).Some? then Some(LogoutWith(T.Held(w).value)) else None
    case _ => None
  }

  /** What the client hands to `fetch` is what the protocol counts, and a refresh token is presented
    * exactly when the protocol records a refresh with it. */
  lemma EverySendIsCounted(w: T.World, e: T.Event, token: Pair)
    requires T.Enabled(w, e)
    ensures T.Next(w, e).fetches == w.fetches + (if SentBy(w, e).Some? then 1 else 0)
    ensures SentBy(w, e) == Some(RefreshWith(token)) <==>
              && |T.Next(w, e).refreshes| == |w.refreshes| + 1
              && T.Next(w, e).refreshes[|w.refreshes|].token == Some(token)
  {
  }

  /** The event sends request p, for the first time or once more. */
  predicate Sends(w: T.World, v: T.World, p: nat) {
    && p < |v.tasks| && v.tasks[p].Api?
    && (p < |w.tasks| ==> w.tasks[p].Api? && w.tasks[p].sends < v.tasks[p].sends)
  }

  /** Whenever a request is sent, the bearer it carries is the one that the protocol records as its header. */
  lemma BearerIsRecorded(w: T.World, e: T.Event, p: nat)
    requires T.Enabled(w, e) && Sends(w, T.Next(w, e), p)
    ensures SentBy(w, e) == Some(Plain(PairAt(T.Next(w, e).log, T.Next(w, e).tasks[p].header)))
  {
  }

  /** Nothing but the pair in the store is ever sent, and a bearer is left out only by a login, by a request
    * that takes none, and while the store is empty. */
  lemma OnlyTheHeldPairIsSent(w: T.World, e: T.Event, pair: Pair)
    requires T.Enabled(w, e)
    ensures SentBy(w, e) in {Some(Plain(Some(pair))), Some(RefreshWith(pair)), Some(LogoutWith(pair))} ==>
              T.Held(w) == Some(pair)
    ensures SentBy(w, e) == Some(Plain(None)) ==> e.StartLogin? || (e.StartApi? && !e.auth) || T.Held(w).None?
    ensures SentBy(w, e) == Some(LogoutWith(pair)) <==>
              && |T.Next(w, e).tasks| == |w.tasks| + 1
              && T.Next(w, e).tasks[|w.tasks|] == T.Logout(Some(pair), false, true)
  {
  }

  ghost predicate HeadersOk(w: T.World) {
    forall p {:trigger w.tasks[p]} :: 0 <= p < |w.tasks| && w.tasks[p].Api? && w.tasks[p].header.Some? ==>
      w.tasks[p].header.value < |w.log|
  }

  lemma HeadersAreOk(w: T.World)
    requires Safety.TasksOk(w)
    ensures HeadersOk(w)
  {
    forall p | 0 <= p < |w.tasks| && w.tasks[p].Api? && w.tasks[p].header.Some?
      ensures w.tasks[p].header.value < |w.log|
    {
      assert Safety.TaskOk(w, p);
    }
  }

  // ---- Kinds of steps ------------------------------------------------------------------------------------

  /** A new call. */
  lemma AddedMirrors(s: State, w: T.World, v: T.World, t: T.Task)
    requires Mirrors(s, w)
    requires v.store == w.store && v.log == w.log && v.refreshing == w.refreshing && v.refreshes == w.refreshes
    requires v.tasks == w.tasks + [t]
    ensures Mirrors(s.(calls := s.calls + [CallOf(w.log, t)]), v)
  {
  }

  /** A step of one call that stores nothing and leaves the promises alone. */
  lemma MovedMirrors(s: State, w: T.World, v: T.World, p: nat, t: T.Task)
    requires Mirrors(s, w) && p < |w.tasks|
    requires v.log == w.log && v.refreshes == w.refreshes && v.tasks == w.tasks[p := t]
    ensures Mirrors(State(T.Held(v), v.refreshing, s.promises, s.calls[p := CallOf(w.log, t)]), v)
  {
  }

  /** A call has started a refresh. */
  lemma StartedMirrors(s: State, w: T.World, v: T.World, p: nat, t: T.Task, f: T.Refresh)
    requires Mirrors(s, w) && p < |w.tasks|
    requires v.log == w.log && v.store == w.store && v.refreshes == w.refreshes + [f] && v.tasks == w.tasks[p := t]
    ensures Mirrors(State(s.stored, v.refreshing, s.promises + [PromiseOf(f)], s.calls[p := CallOf(w.log, t)]), v)
  {
  }

  /** A pair has reached the store; the bearers of all calls stay what they were. */
  lemma StoredMirrors(s: State, w: T.World, pair: Pair)
    requires Mirrors(s, w) && HeadersOk(w)
    ensures Mirrors(s.(stored := Some(pair)), T.Stored(w, pair))
  {
    forall p | 0 <= p < |s.calls| ensures CallOf(w.log + [pair], w.tasks[p]) == s.calls[p] {}
  }

  /** A step of one promise that leaves log and calls alone. */
  lemma SettledMirrors(s: State, w: T.World, v: T.World, r: nat, f: T.Refresh)
    requires Mirrors(s, w) && r < |w.refreshes|
    requires v.log == w.log && v.tasks == w.tasks && v.refreshing == w.refreshing
    requires v.refreshes == w.refreshes[r := f]
    ensures Mirrors(s.(stored := T.Held(v), promises := s.promises[r := PromiseOf(f)]), v)
  {
  }

  // ---- The steps with branches or with a pair --------------------------------------------------------------

  predicate MayRefresh(c: Call, unauthorized: bool) {
    c.Request? && unauthorized && c.auth && c.retry
  }

  lemma AnswerMirrors(s: State, w: T.World, p: nat, unauthorized: bool)
    requires Mirrors(s, w) && T.Enabled(w, T.Answer(p, unauthorized))
    ensures p < |s.calls| && s.calls[p].Request?
    ensures var v := T.Next(w, T.Answer(p, unauthorized)); var c := s.calls[p];
            if !MayRefresh(c, unauthorized) then Mirrors(s.(calls := s.calls[p := c.(at := Over)]), v)
            else if s.refreshing.Some?
            then Mirrors(s.(calls := s.calls[p := c.(at := SharedRefresh(s.refreshing.value))]), v)
            else Mirrors(State(s.stored, Some(|s.promises|),
                               s.promises + [if s.stored.Some? then Asking else Settled(T.NotRenewed)],
                               s.calls[p := c.(at := OwnRefresh(|s.promises|))]), v)
    ensures SentBy(w, T.Answer(p, unauthorized))
            == if MayRefresh(s.calls[p], unauthorized) && s.refreshing.None? && s.stored.Some?
               then Some(RefreshWith(s.stored.value)) else None
  {
    var v := T.Answered(w, p, unauthorized);
    if !MayRefresh(s.calls[p], unauthorized) || s.refreshing.Some? {
      MovedMirrors(s, w, v, p, v.tasks[p]);
    } else {
      StartedMirrors(s, w, v, p, v.tasks[p], v.refreshes[|w.refreshes|]);
    }
  }

  lemma BodyMirrors(s: State, w: T.World, r: nat, pair: Pair)
    requires Mirrors(s, w) && HeadersOk(w)
    requires T.Enabled(w, T.RefreshBody(r)) && w.refreshes[r].stage == T.Reading(pair)
    ensures r < |s.promises|
    ensures Mirrors(s.(stored := Some(pair), promises := s.promises[r := Settled(T.Renewed)]),
                    T.Next(w, T.RefreshBody(r)))
  {
    var v := T.RefreshRead(w, r);
    StoredMirrors(s, w, pair);
    SettledMirrors(s.(stored := Some(pair)), T.Stored(w, pair), v, r, v.refreshes[r]);
  }

  /** A retry finds a pair in the store, and never the one that was rejected. */
  lemma RetryIsDifferent(w: T.World, p: nat)
    requires Safety.Inv(w) && T.Enabled(w, T.Resume(p))
    requires w.refreshes[w.tasks[p].joined.value].stage.outcome == T.Renewed
    ensures T.Held(w).Some? && T.Held(w) != PairAt(w.log, w.tasks[p].header)
    ensures w.tasks[p].sends == 1
  {
    assert Safety.TaskOk(w, p);
    assert Safety.RefreshOk(w, w.tasks[p].joined.value);
  }

  ghost predicate Resumes(s: State, p: nat) {
    && p < |s.calls| && s.calls[p].Request? && s.calls[p].at.SharedRefresh?
    && s.calls[p].at.promise < |s.promises| && s.promises[s.calls[p].at.promise].Settled?
  }

  lemma ResumeSends(w: T.World, p: nat)
    requires T.Enabled(w, T.Resume(p))
    ensures Sends(w, T.Next(w, T.Resume(p)), p) <==> SentBy(w, T.Resume(p)).Some?
    ensures SentBy(w, T.Resume(p)).Some? ==>
              PairAt(T.Next(w, T.Resume(p)).log, T.Next(w, T.Resume(p)).tasks[p].header) == T.Held(w)
  {
  }

  lemma ResumeMirrors(s: State, w: T.World, p: nat)
    requires Mirrors(s, w) && Safety.Inv(w) && T.Enabled(w, T.Resume(p))
    ensures Resumes(s, p)
    ensures var v := T.Next(w, T.Resume(p)); var c := s.calls[p];
            if s.promises[c.at.promise] == Settled(T.Renewed)
            then && s.stored.Some? && s.stored != c.bearer && SentBy(w, T.Resume(p)) == Some(Plain(s.stored))
                 && Mirrors(s.(calls := s.calls[p := c.(retry := false, bearer := s.stored, at := Fetch)]), v)
            else SentBy(w, T.Resume(p)).None? && Mirrors(s.(calls := s.calls[p := c.(at := Over)]), v)
  {
    var v := T.Resumed(w, p);
    MovedMirrors(s, w, v, p, v.tasks[p]);
    if w.refreshes[w.tasks[p].joined.value].stage.outcome == T.Renewed { RetryIsDifferent(w, p); }
  }

  /** What becomes of a login answer. */
  function Verified(p: nat, isAdmin: bool): T.Event {
    if isAdmin then T.LoginStores(p) else T.LoginRejected(p)
  }

  /** The answer to login p has arrived and holds this pair. */
  predicate Answered(w: T.World, p: nat, pair: Pair, isAdmin: bool) {
    T.Enabled(w, Verified(p, isAdmin)) && p < |w.tasks| && w.tasks[p] == T.Login(Some(pair), true)
  }

  lemma LoginMirrors(s: State, w: T.World, p: nat, pair: Pair, isAdmin: bool)
    requires Mirrors(s, w) && HeadersOk(w)
    requires Answered(w, p, pair, isAdmin)
    ensures p < |s.calls|
    ensures Mirrors(s.(stored := if isAdmin then Some(pair) else None, calls := s.calls[p := VerifyOtp(false)]),
                    T.Next(w, Verified(p, isAdmin)))
  {
    var v := T.LoginEnded(w, p, true);
    if isAdmin {
      StoredMirrors(s, w, pair);
      MovedMirrors(s.(stored := Some(pair)), T.Stored(w, pair), T.LoginStored(w, p), p, v.tasks[p]);
    } else {
      MovedMirrors(s, w, v, p, v.tasks[p]);
    }
  }

  lemma FinallyMirrors(s: State, w: T.World, p: nat)
    requires Mirrors(s, w) && T.Enabled(w, T.Clear(p))
    ensures p < |s.calls| && s.calls[p].Request? && s.calls[p].at.OwnRefresh?
    ensures var c := s.calls[p];
            Mirrors(s.(refreshing := None, calls := s.calls[p := c.(at := SharedRefresh(c.at.promise))]),
                    T.Next(w, T.Clear(p)))
  {
    var v := T.Cleared(w, p);
    MovedMirrors(s, w, v, p, v.tasks[p]);
  }

  lemma SignOutMirrors(s: State, w: T.World)
    requires Mirrors(s, w)
    ensures Mirrors(if s.stored.None? then s.(stored := None, calls := s.calls + [SignOut(None, false)])
                    else s.(calls := s.calls + [SignOut(s.stored, true)]),
                    T.Next(w, T.StartLogout))
  {
    var v := T.StartedLogout(w);
    if s.stored.Some? {
      AddedMirrors(s, w, v, v.tasks[|w.tasks|]);
    }
  }

  lemma ReloadMirrors(s: State, w: T.World)
    requires Mirrors(s, w)
    ensures Mirrors(s.(calls := s.calls + [Profile(true)]), T.Next(w, T.StartReload))
  {
    AddedMirrors(s, w, T.Next(w, T.StartReload), T.Reload(true));
  }

  lemma LogoutMirrors(s: State, w: T.World, p: nat)
    requires Mirrors(s, w) && T.Enabled(w, T.LogoutEnds(p))
    ensures p < |s.calls| && s.calls[p].SignOut?
    ensures Mirrors(s.(stored := None, calls := s.calls[p := s.calls[p].(open := false)]), T.Next(w, T.LogoutEnds(p)))
  {
    var v := T.LogoutEnded(w, p);
    MovedMirrors(s, w, v, p, v.tasks[p]);
  }

  predicate ServerSide(e: T.Event) {
    e.ServerRefresh? || e.ServerLogin? || e.ServerLogout? || e.ServerCleanup?
  }

  /** What the server does is not seen by the client. */
  lemma ServerMirrors(s: State, w: T.World, e: T.Event)
    requires Mirrors(s, w) && T.Enabled(w, e) && ServerSide(e)
    ensures Mirrors(s, T.Next(w, e))
  {
    var v := T.Next(w, e);
    forall r | 0 <= r < |s.promises| ensures PromiseOf(v.refreshes[r]) == PromiseOf(w.refreshes[r]) {}
    forall p | 0 <= p < |s.calls| ensures CallOf(v.log, v.tasks[p]) == CallOf(w.log, w.tasks[p]) {}
  }

  // ---- Who owns the refresh ------------------------------------------------------------------------------------

  predicate AtOwnRefresh(c: Call) { c.Request? && c.at.OwnRefresh? }

  ghost predicate OwnedBy(s: State, p: nat) {
    p < |s.calls| && AtOwnRefresh(s.calls[p]) && s.refreshing == Some(s.calls[p].at.promise)
  }

  lemma OwnerMirrors(s: State, w: T.World)
    requires Mirrors(s, w) && Safety.Inv(w)
    ensures s.refreshing.Some? ==> exists p :: OwnedBy(s, p)
    ensures forall p :: 0 <= p < |s.calls| && AtOwnRefresh(s.calls[p]) ==> OwnedBy(s, p)
    ensures forall a, b :: 0 <= a < b < |s.promises| ==> s.promises[a].Settled? || s.promises[b].Settled?
  {
    forall p | 0 <= p < |s.calls| && AtOwnRefresh(s.calls[p]) ensures OwnedBy(s, p) {
      assert Safety.TaskOk(w, p);
    }
    if s.refreshing.Some? {
      var p := w.refreshes[s.refreshing.value].initiator;
      assert Safety.TaskOk(w, p);
      assert OwnedBy(s, p);
    }
  }
}
