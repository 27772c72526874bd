/** The dashboard's client code as it runs. Each method is what happens between two await points, on the
  * state the code really holds: the stored pair, the module variable, the promises it made, and the
  * local variables of each call. The ghost world is the one that the ghost history of protocol events
  * leads to; the class invariant says that the state is the client's view of it. */
module HttpClient {
  import opened Wrappers
  import opened ClientView
  import T = TokenRefresh
  import Safety = TokenRefreshSafety

  class Dashboard {
    // What `tokenStore` keeps: set, cleared and read by the methods below.
    var stored: Option<Pair>
    var refreshing: Option<nat>
    var promises: seq<Promise>
    var calls: seq<Call>
    ghost var history: seq<T.Event>
    ghost var world: T.World

    ghost function Now(): State
      reads this
    {
      State(stored, refreshing, promises, calls)
    }

    ghost predicate Valid()
      reads this
    {
      T.Run(history) == Some(world) && Safety.Inv(world) && Mirrors(Now(), world)
    }

    constructor ()
      ensures Valid() && world == T.START
    {
      stored, refreshing, promises, calls := None, None, [], [];
      history, world := [], T.START;
    }

    ghost method Advance(e: T.Event)
      requires T.Run(history) == Some(world) && Safety.Inv(world) && T.Enabled(world, e)
      requires Mirrors(Now(), T.Next(world, e))
      modifies this`world, this`history
      ensures Valid() && world == T.Next(old(world), e)
    {
      T.RunExtends(history, e);
      history := history + [e];
      Safety.StepKeepsInv(world, e);
      world := T.Next(world, e);
    }

    // ---- request and refresh -----------------------------------------------------------------------

    /** Up to the first await of `request`. A request that takes no bearer is sent without one, any other with
      * the stored pair, and what is sent is what the protocol records as its header. */
    method Begin(auth: bool, retry: bool) returns (sent: Option<Sent>)
      requires Valid()
      modifies this
      ensures Valid() && world == T.Next(old(world), T.StartApi(auth, retry))
      ensures sent == SentBy(old(world), T.StartApi(auth, retry))
      ensures sent.Some? && sent.value.Plain? && sent.value.bearer == if auth then old(stored) else None
      ensures Sends(old(world), world, |old(calls)|)
      ensures sent.value.bearer == PairAt(world.log, world.tasks[|old(calls)|].header)
    {
      var bearer: Option<Pair> := None;
      if auth {
        bearer := stored;
      }
      calls := calls + [Request(auth, retry, bearer, Fetch)];
      sent := Some(Plain(bearer));
      BearerIsRecorded(world, T.StartApi(auth, retry), |calls| - 1);
      Advance(T.StartApi(auth, retry));
    }

    /** The answer to a request arrives. A refresh token is sent exactly when a request that takes a bearer and
      * may retry was rejected and no refresh is under way, and it is the stored one. */
    method OnAnswer(p: nat, unauthorized: bool) returns (sent: Option<Sent>)
      requires Valid() && T.Enabled(world, T.Answer(p, unauthorized))
      modifies this
      ensures Valid() && world == T.Next(old(world), T.Answer(p, unauthorized))
      ensures sent == SentBy(old(world), T.Answer(p, unauthorized))
      ensures sent.Some? <==> unauthorized && old(calls)[p].auth && old(calls)[p].retry
                              && old(refreshing).None? && old(stored).Some?
      ensures sent.Some? ==> sent.value == RefreshWith(old(stored).value)
    {
      AnswerMirrors(Now(), world, p, unauthorized);
      sent := None;
      if unauthorized && calls[p].auth && calls[p].retry {
        sent := Refresh(p);
      } else {
        calls := calls[p := calls[p].(at := Over)];
      }
      Advance(T.Answer(p, unauthorized));
    }

    /** The synchronous part of `refresh`. */
    method Refresh(p: nat) returns (sent: Option<Sent>)
      requires p < |calls| && calls[p].Request?
      modifies this`refreshing, this`promises, this`calls
      ensures old(refreshing).Some? ==>
                && sent.None? && refreshing == old(refreshing) && promises == old(promises)
                && calls == old(calls)[p := old(calls)[p].(at := SharedRefresh(old(refreshing).value))]
      ensures old(refreshing).None? ==>
                && refreshing == Some(|old(promises)|)
                && promises == old(promises) + [if stored.Some? then Asking else Settled(T.NotRenewed)]
                && sent == (if stored.Some? then Some(RefreshWith(stored.value)) else None)
                && calls == old(calls)[p := old(calls)[p].(at := OwnRefresh(|old(promises)|))]
    {
      sent := None;
      if refreshing.Some? {
        calls := calls[p := calls[p].(at := SharedRefresh(refreshing.value))];
        return;
      }
      var promise := Asking;
      if stored.None? {
        promise := Settled(T.NotRenewed);
      } else {
        sent := Some(RefreshWith(stored.value));
      }
      refreshing := Some(|promises|);
      calls := calls[p := calls[p].(at := OwnRefresh(|promises|))];
      promises := promises + [promise];
    }

    /** The fetch of a request is rejected. */
    method OnFetchFailure(p: nat)
      requires Valid() && T.Enabled(world, T.FetchFails(p))
      modifies this
      ensures Valid() && world == T.Next(old(world), T.FetchFails(p))
      ensures stored == old(stored)
    {
      calls := calls[p := calls[p].(at := Over)];
      Advance(T.FetchFails(p));
    }

    /** The answer to the refresh fetch arrives. */
    method OnRefreshAnswer(r: nat, ok: bool)
      requires Valid() && T.Enabled(world, T.RefreshAnswer(r, ok))
      modifies this
      ensures Valid() && world == T.Next(old(world), T.RefreshAnswer(r, ok))
      ensures stored == if ok then old(stored) else None
    {
      if !ok {
        stored := None;
        promises := promises[r := Settled(T.NotRenewed)];
      } else {
        promises := promises[r := Reading];
      }
      Advance(T.RefreshAnswer(r, ok));
    }

    /** The body of the refresh answer has been read, and is the pair that the server issued. */
    method OnRefreshBody(r: nat, pair: Pair)
      requires Valid() && T.Enabled(world, T.RefreshBody(r)) && world.refreshes[r].stage == T.Reading(pair)
      modifies this
      ensures Valid() && world == T.Next(old(world), T.RefreshBody(r))
      ensures stored == Some(pair)
    {
      HeadersAreOk(world);
      BodyMirrors(Now(), world, r, pair);
      stored := Some(pair);
      promises := promises[r := Settled(T.Renewed)];
      Advance(T.RefreshBody(r));
    }

    /** The refresh fetch or its body failed: the stored pair stays, and may be presented again. */
    method OnRefreshFailure(r: nat)
      requires Valid() && T.Enabled(world, T.RefreshFails(r))
      modifies this
      ensures Valid() && world == T.Next(old(world), T.RefreshFails(r))
      ensures stored == old(stored)
    {
      promises := promises[r := Settled(T.Threw)];
      Advance(T.RefreshFails(r));
    }

    /** The `finally` of the initiator, which then awaits its own promise's outcome like everyone else. */
    method Finally(p: nat)
      requires Valid() && T.Enabled(world, T.Clear(p))
      modifies this
      ensures Valid() && world == T.Next(old(world), T.Clear(p))
    {
      FinallyMirrors(Now(), world, p);
      refreshing := None;
      calls := calls[p := calls[p].(at := SharedRefresh(calls[p].at.promise))];
      Advance(T.Clear(p));
    }

    /** A request continues after `await refresh()`. It is sent again exactly when the refresh delivered a pair.
      * A retry carries the stored pair, never the one that was rejected, and what is sent is what the
      * protocol records as its header. */
    method Continue(p: nat) returns (sent: Option<Sent>)
      requires Valid() && T.Enabled(world, T.Resume(p))
      modifies this
      ensures Valid() && world == T.Next(old(world), T.Resume(p))
      ensures sent == SentBy(old(world), T.Resume(p))
      ensures sent.Some? <==> Sends(old(world), world, p)
      ensures sent.Some? <==> old(promises[calls[p].at.promise]) == Settled(T.Renewed)
      ensures sent.Some? ==>
                && sent.value.Plain? && sent.value.bearer == old(stored) && sent.value.bearer.Some?
                && sent.value.bearer != old(calls[p].bearer)
                && sent.value.bearer == PairAt(world.log, world.tasks[p].header)
    {
      ResumeMirrors(Now(), world, p);
      ResumeSends(world, p);
      sent := None;
      if promises[calls[p].at.promise] == Settled(T.Renewed) {
        sent := Some(Plain(stored));
        calls := calls[p := calls[p].(retry := false, bearer := stored, at := Fetch)];
      } else {
        calls := calls[p := calls[p].(at := Over)];
      }
      Advance(T.Resume(p));
    }

    // ---- verifyOtp and logout ----------------------------------------------------------------------

    /** Up to the first await of `verifyOtp`. */
    method BeginLogin() returns (sent: Option<Sent>)
      requires Valid()
      modifies this
      ensures Valid() && world == T.Next(old(world), T.StartLogin)
      ensures sent == SentBy(old(world), T.StartLogin)
    {
      AddedMirrors(Now(), world, T.Next(world, T.StartLogin), T.Login(None, true));
      calls := calls + [VerifyOtp(true)];
      sent := Some(Plain(None));
      Advance(T.StartLogin);
    }

    /** The end of `verifyOtp`: only an administrator's pair is kept. */
    method OnLogin(p: nat, pair: Pair, isAdmin: bool)
      requires Valid() && Answered(world, p, pair, isAdmin)
      modifies this
      ensures Valid() && world == T.Next(old(world), Verified(p, isAdmin))
      ensures stored == if isAdmin then Some(pair) else None
    {
      HeadersAreOk(world);
      LoginMirrors(Now(), world, p, pair, isAdmin);
      calls := calls[p := VerifyOtp(false)];
      if !isAdmin {
        stored := None;
      } else {
        stored := Some(pair);
      }
      Advance(Verified(p, isAdmin));
    }

    method OnLoginFailure(p: nat)
      requires Valid() && T.Enabled(world, T.LoginFails(p))
      modifies this
      ensures Valid() && world == T.Next(old(world), T.LoginFails(p))
      ensures stored == old(stored)
    {
      calls := calls[p := VerifyOtp(false)];
      Advance(T.LoginFails(p));
    }

    /** Up to the first await of `logout`; without a pair there is none. */
    method BeginLogout() returns (sent: Option<Sent>)
      requires Valid()
      modifies this
      ensures Valid() && world == T.Next(old(world), T.StartLogout)
      ensures sent == SentBy(old(world), T.StartLogout)
      ensures sent == if old(stored).Some? then Some(LogoutWith(old(stored).value)) else None
    {
      SignOutMirrors(Now(), world);
      if stored.None? {
        calls := calls + [SignOut(None, false)];
        stored := None;
        sent := None;
      } else {
        calls := calls + [SignOut(stored, true)];
        sent := Some(LogoutWith(stored.value));
      }
      Advance(T.StartLogout);
    }

    /** The `finally` of `logout`, whatever became of its request. */
    method EndLogout(p: nat)
      requires Valid() && T.Enabled(world, T.LogoutEnds(p))
      modifies this
      ensures Valid() && world == T.Next(old(world), T.LogoutEnds(p))
      ensures stored.None?
    {
      LogoutMirrors(Now(), world, p);
      calls := calls[p := calls[p].(open := false)];
      stored := None;
      Advance(T.LogoutEnds(p));
    }

    // ---- The profile at start-up ---------------------------------------------------------------------

    /** `reload` up to its request, which is a request like any other. */
    method BeginReload()
      requires Valid()
      modifies this
      ensures Valid() && world == if old(stored).None? then old(world) else T.Next(old(world), T.StartReload)
    {
      if stored.None? {
        return;
      }
      ReloadMirrors(Now(), world);
      calls := calls + [Profile(true)];
      Advance(T.StartReload);
    }

    /** The end of `reload`: when the profile could not be had, the store is cleared. */
    method EndReload(p: nat, failed: bool)
      requires Valid() && T.Enabled(world, T.ReloadEnds(p, failed))
      modifies this
      ensures Valid() && world == T.Next(old(world), T.ReloadEnds(p, failed))
      ensures stored == if failed then None else old(stored)
    {
      ghost var v := T.ReloadEnded(world, p, failed);
      MovedMirrors(Now(), world, v, p, T.Reload(false));
      calls := calls[p := Profile(false)];
      if failed {
        stored := None;
      }
      Advance(T.ReloadEnds(p, failed));
    }

    // ---- What the client does not see --------------------------------------------------------------

    /** A transaction of the server leaves the client's view as it is. */
    ghost method OnServer(e: T.Event)
      requires Valid() && T.Enabled(world, e) && ServerSide(e)
      modifies this`world, this`history
      ensures Valid() && world == T.Next(old(world), e)
    {
      ServerMirrors(Now(), world, e);
      Advance(e);
    }

    /** In every state of the client the module variable is set exactly while one request stands at its
      * own refresh, which is the one in the variable; and at most one promise is unsettled. */
    lemma RefreshingIsOwned()
      requires Valid()
      ensures refreshing.Some? <==> exists p :: OwnedBy(Now(), p)
      ensures forall p :: 0 <= p < |calls| && AtOwnRefresh(calls[p]) ==> OwnedBy(Now(), p)
      ensures forall a, b :: 0 <= a < b < |promises| ==> promises[a].Settled? || promises[b].Settled?
    {
      OwnerMirrors(Now(), world);
    }
  }
}
