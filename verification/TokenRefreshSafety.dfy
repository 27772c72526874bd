/** What every reachable world of the token refresh satisfies. */
module TokenRefreshSafety {
  import opened Wrappers
  import opened TokenRefresh
  import Sessions

  // ---- The invariant, part by part ---------------------------------------------------------------

  ghost predicate NumberedRows(rows: Sessions.Table) {
    forall k :: 0 <= k < |rows| ==> rows[k].id == k && rows[k].hash == k
  }

  ghost predicate Numbered(w: World) {
    |w.owner| == |w.rows| && NumberedRows(w.rows)
  }

  /** The client call a pair was issued to has handed it to the store and is over. */
  ghost predicate Delivered(w: World, issue: nat) {
    && issue < |w.owner|
    && match w.owner[issue]
       case ByRefresh(r) => r < |w.refreshes| && w.refreshes[r].stage == Settled(Renewed)
       case ByLogin(p) => p < |w.tasks| && w.tasks[p].Login? && !w.tasks[p].open
  }

  /** Every pair is written to the store at most once, and the store holds the last write or nothing. */
  ghost predicate LogOk(w: World) {
    && (forall i {:trigger Delivered(w, w.log[i])} :: 0 <= i < |w.log| ==> Delivered(w, w.log[i]))
    && (forall i, j :: 0 <= i < j < |w.log| ==> w.log[i] != w.log[j])
    && (w.store.Some? ==> w.store.value + 1 == |w.log|)
  }

  ghost predicate RefreshOk(w: World, r: nat)
    requires r < |w.refreshes|
  {
    var f := w.refreshes[r];
    && f.initiator < |w.tasks| && w.tasks[f.initiator].Api? && w.tasks[f.initiator].joined == Some(r)
    && (f.token.None? ==> f.stage == Settled(NotRenewed) && f.reply.None?)
    && (f.token.Some? ==> f.token.value in w.log)
    && (f.reply.Some? && f.reply.value.Pair? ==>
          f.reply.value.issue < |w.owner| && w.owner[f.reply.value.issue] == ByRefresh(r))
    && (f.stage.Reading? ==> f.reply == Some(Pair(f.stage.issue)))
    && (f.storedAt.Some? <==> f.stage == Settled(Renewed))
    && (f.storedAt.Some? ==> f.storedAt.value < |w.log| && f.reply == Some(Pair(w.log[f.storedAt.value])))
    && f.storedBefore <= |w.log| && f.issuedBefore <= |w.owner|
    && (forall i :: 0 <= i < f.storedBefore ==> w.log[i] < f.issuedBefore)
    && (f.reply.Some? && f.reply.value.Pair? ==> f.issuedBefore <= f.reply.value.issue)
  }

  /** At most one refresh is unsettled, and it is the one in the module variable, which some initiator
    * still has to clear. */
  ghost predicate FlightOk(w: World) {
    && (w.refreshing.Some? ==>
          && w.refreshing.value < |w.refreshes|
          && ApiIn(w, w.refreshes[w.refreshing.value].initiator, Initiating))
    && (forall r :: 0 <= r < |w.refreshes| && !w.refreshes[r].stage.Settled? ==> w.refreshing == Some(r))
  }

  ghost predicate ApiOk(w: World, p: nat)
    requires p < |w.tasks| && w.tasks[p].Api?
  {
    var t := w.tasks[p];
    && 1 <= t.sends <= 2
    && (t.first.Some? ==> t.first.value < |w.log|)
    && (t.header.Some? ==> t.header.value < |w.log|)
    && (t.sends == 1 ==> t.header == t.first)
    && (t.sends == 2 <==> t.got == Some(Renewed))
    && (t.joined.Some? ==> t.joined.value < |w.refreshes| && t.auth && t.retry)
    && (t.phase == Waiting && t.sends == 1 ==> t.joined.None?)
    && (t.phase.Initiating? || t.phase.Joined? ==> t.joined.Some? && t.got.None?)
    && (t.phase.Initiating? ==> w.refreshing == t.joined && w.refreshes[t.joined.value].initiator == p)
    && (t.got.Some? ==> t.joined.Some? && w.refreshes[t.joined.value].stage == Settled(t.got.value))
    && (t.joined.Some? && t.first.Some? && w.refreshes[t.joined.value].storedAt.Some? ==>
          t.first.value < w.refreshes[t.joined.value].storedAt.value)
    && (t.sends == 2 ==> t.header == w.refreshes[t.joined.value].storedAt)
    && ((t.phase.Initiating? || t.phase.Joined?) && w.refreshes[t.joined.value].stage == Settled(Renewed) ==>
          w.store == w.refreshes[t.joined.value].storedAt)
  }

  ghost predicate TaskOk(w: World, p: nat)
    requires p < |w.tasks|
  {
    match w.tasks[p]
    case Api(_, _, _, _, _, _, _, _) => ApiOk(w, p)
    case Login(issue, _) => issue.Some? ==> issue.value < |w.owner| && w.owner[issue.value] == ByLogin(p)
    case Logout(token, _, open) =>
      && (token.Some? ==> token.value in w.log)
      && (token.Some? && !open ==> Held(w) != token)
    case Reload(_) => true
  }

  /** A token presented again was lost the first time. */
  ghost predicate PresentedOnce(w: World) {
    forall a, b :: 0 <= a < b < |w.refreshes| ==>
      w.refreshes[a].token.Some? && w.refreshes[a].token == w.refreshes[b].token ==>
      w.refreshes[a].stage == Settled(Threw)
  }

  /** A settled refresh of the token that is still held was lost. */
  ghost predicate HeldOk(w: World) {
    forall a :: 0 <= a < |w.refreshes| ==>
      w.refreshes[a].token.Some? && w.refreshes[a].token == Held(w) && w.refreshes[a].stage.Settled? ==>
      w.refreshes[a].stage == Settled(Threw)
  }

  /** What the refresh call that revoked this session was answered. */
  function RevokingReply(row: Sessions.Session): Reply {
    if row.replacedBy.Some? then Pair(row.replacedBy.value) else Refusal(Sessions.Expired)
  }

  /** One of the first refresh calls presented this token and was answered with the revocation. */
  ghost predicate Revoker(w: World, token: nat, before: nat)
    requires token < |w.rows|
  {
    exists a {:trigger w.refreshes[a]} :: 0 <= a < before && a < |w.refreshes| && w.refreshes[a].token == Some(token)
                && w.refreshes[a].reply == Some(RevokingReply(w.rows[token]))
  }

  /** As above, and the answer never reached the client. */
  ghost predicate LostRevoker(w: World, token: nat, before: nat)
    requires token < |w.rows|
  {
    exists a {:trigger w.refreshes[a]} :: 0 <= a < before && a < |w.refreshes| && w.refreshes[a].token == Some(token)
                && w.refreshes[a].reply == Some(RevokingReply(w.rows[token])) && w.refreshes[a].stage == Settled(Threw)
  }

  /** The server has processed a logout of this session. */
  ghost predicate LoggedOut(tasks: seq<Task>, token: nat) {
    exists q {:trigger tasks[q]} :: 0 <= q < |tasks| && tasks[q].Logout?
                && tasks[q].token == Some(token) && tasks[q].served
  }

  /** Why row k is revoked, if it is: a rotation or expiry answered to a refresh call, or a logout. */
  ghost predicate RowOk(w: World, k: nat)
    requires k < |w.rows|
  {
    w.rows[k].revokedAt.Some? ==>
      && k in w.log
      && (Revoker(w, k, |w.refreshes|) || (w.rows[k].replacedBy.None? && LoggedOut(w.tasks, k)))
  }

  /** What refresh b ran into when its session was revoked already. */
  ghost predicate SentOk(w: World, b: nat)
    requires b < |w.refreshes|
  {
    var f := w.refreshes[b];
    f.revokedAtSend ==>
      && f.token.Some? && IsRevoked(w.rows, f.token.value)
      && (LostRevoker(w, f.token.value, b) || (w.rows[f.token.value].replacedBy.None? && f.duringLogout))
  }

  ghost predicate RevokedOk(w: World) {
    && (forall k {:trigger RowOk(w, k)} :: 0 <= k < |w.rows| ==> RowOk(w, k))
    && (forall b {:trigger SentOk(w, b)} :: 0 <= b < |w.refreshes| ==> SentOk(w, b))
  }

  ghost predicate RefreshesOk(w: World) {
    forall r {:trigger w.refreshes[r]} :: 0 <= r < |w.refreshes| ==> RefreshOk(w, r)
  }

  ghost predicate TasksOk(w: World) {
    forall p {:trigger w.tasks[p]} :: 0 <= p < |w.tasks| ==> TaskOk(w, p)
  }

  ghost predicate Inv(w: World) {
    && Numbered(w)
    && LogOk(w)
    && RefreshesOk(w)
    && FlightOk(w)
    && TasksOk(w)
    && PresentedOnce(w)
    && HeldOk(w)
    && RevokedOk(w)
  }

  // ---- What no step ever undoes ------------------------------------------------------------------

  /** A refresh keeps its initiator and the token it presented; what the server decided and how the
    * promise settled are final. */
  ghost predicate RefreshEvolves(w: World, f: Refresh, g: Refresh) {
    && g.initiator == f.initiator && g.token == f.token
    && g.storedBefore == f.storedBefore && g.issuedBefore == f.issuedBefore
    && g.revokedAtSend == f.revokedAtSend && g.duringLogout == f.duringLogout
    && (f.reply.Some? ==> g.reply == f.reply)
    && (f.stage.Settled? ==> g.stage == f.stage && g.storedAt == f.storedAt)
    && (g.storedAt.Some? ==> g.storedAt == f.storedAt || g.storedAt.value == |w.log|)
  }

  ghost predicate TaskEvolves(t: Task, u: Task) {
    match t
    case Api(auth, retry, _, first, _, _, joined, got) =>
      && u.Api? && u.auth == auth && u.retry == retry && u.first == first
      && (joined.Some? ==> u.joined == joined) && (got.Some? ==> u.got == got)
    case Login(issue, open) => u.Login? && (issue.Some? ==> u.issue == issue) && (!open ==> !u.open)
    case Logout(token, served, open) => u.Logout? && u.token == token && (served ==> u.served) && (!open ==> !u.open)
    case Reload(open) => u.Reload? && (!open ==> !u.open)
  }

  /** A revoked session never changes again. */
  ghost predicate RowsStay(before: Sessions.Table, after: Sessions.Table) {
    && |before| <= |after|
    && forall k {:trigger after[k]} :: 0 <= k < |before| && before[k].revokedAt.Some? ==> after[k] == before[k]
  }

  ghost predicate Evolves(w: World, v: World) {
    && w.log <= v.log && w.owner <= v.owner && RowsStay(w.rows, v.rows)
    && |w.refreshes| <= |v.refreshes| && |w.tasks| <= |v.tasks|
    && (forall r {:trigger v.refreshes[r]} :: 0 <= r < |w.refreshes| ==>
          RefreshEvolves(w, w.refreshes[r], v.refreshes[r]))
    && (forall p {:trigger v.tasks[p]} :: 0 <= p < |w.tasks| ==> TaskEvolves(w.tasks[p], v.tasks[p]))
  }

  // ---- Carrying the invariant over unchanged parts ------------------------------------------------

  /** The store keeps its pair, loses it, or receives one that was never stored before. */
  ghost predicate StoreMoves(w: World, v: World) {
    Held(v).Some? ==> Held(v) == Held(w) || Held(v).value !in w.log
  }

  /** The store changes only while no continuation is about to retry, and a refresh that succeeds has just
    * filled it. */
  ghost predicate StoreIsQuiet(w: World, v: World) {
    && (v.store == w.store || !AboutToRetry(w))
    && forall r {:trigger v.refreshes[r]} :: 0 <= r < |w.refreshes| && r < |v.refreshes| ==>
         !w.refreshes[r].stage.Settled? && v.refreshes[r].stage == Settled(Renewed) ==>
             v.store == v.refreshes[r].storedAt
  }

  ghost predicate SameTask(w: World, v: World, p: nat)
    requires p < |v.tasks|
  {
    && p < |w.tasks| && v.tasks[p] == w.tasks[p]
    && (w.tasks[p].Api? && w.tasks[p].phase.Initiating? ==> v.refreshing == w.refreshing)
  }

  lemma TaskCarries(w: World, v: World, p: nat)
    requires Inv(w) && Evolves(w, v) && StoreMoves(w, v) && StoreIsQuiet(w, v)
    requires p < |v.tasks| && SameTask(w, v, p)
    ensures TaskOk(v, p)
  {
    assert TaskOk(w, p);
    match w.tasks[p]
    case Api(_, _, _, _, _, _, joined, _) =>
      if joined.Some? {
        assert RefreshEvolves(w, w.refreshes[joined.value], v.refreshes[joined.value]);
        if w.refreshes[joined.value].stage.Settled? && (w.tasks[p].phase.Initiating? || w.tasks[p].phase.Joined?) {
          assert Ready(w, p);
        }
      }
    case Login(_, _) =>
    case Logout(_, _, _) =>
    case Reload(_) =>
  }

  ghost predicate SameRefresh(w: World, v: World, r: nat)
    requires r < |v.refreshes|
  {
    r < |w.refreshes| && v.refreshes[r] == w.refreshes[r]
  }

  lemma RefreshCarries(w: World, v: World, r: nat)
    requires Inv(w) && Evolves(w, v)
    requires r < |v.refreshes| && SameRefresh(w, v, r)
    ensures RefreshOk(v, r)
  {
    assert RefreshOk(w, r);
    var p := w.refreshes[r].initiator;
    assert TaskEvolves(w.tasks[p], v.tasks[p]);
  }

  /** Only task p and refresh r may differ; the rest follows from the invariant before the step. */
  lemma Carries(w: World, v: World, p: nat, r: nat)
    requires Inv(w) && Evolves(w, v) && StoreMoves(w, v) && StoreIsQuiet(w, v)
    requires forall q :: 0 <= q < |v.tasks| && q != p ==> SameTask(w, v, q)
    requires p < |v.tasks| ==> TaskOk(v, p)
    requires forall k :: 0 <= k < |v.refreshes| && k != r ==> SameRefresh(w, v, k)
    requires r < |v.refreshes| ==> RefreshOk(v, r)
    ensures TasksOk(v) && RefreshesOk(v)
  {
    forall q | 0 <= q < |v.tasks| ensures TaskOk(v, q) {
      if q != p { TaskCarries(w, v, q); }
    }
    forall k | 0 <= k < |v.refreshes| ensures RefreshOk(v, k) {
      if k != r { RefreshCarries(w, v, k); }
    }
  }

  /** What has been stored stays delivered, and so does a pair whose holder has just finished. */
  lemma DeliveredCarries(w: World, v: World, issue: nat)
    requires Inv(w) && Evolves(w, v) && Delivered(w, issue)
    ensures Delivered(v, issue)
  {
    match w.owner[issue]
    case ByRefresh(r) => assert RefreshEvolves(w, w.refreshes[r], v.refreshes[r]);
    case ByLogin(p) => assert TaskEvolves(w.tasks[p], v.tasks[p]);
  }

  lemma LogCarries(w: World, v: World)
    requires Inv(w) && Evolves(w, v)
    requires v.log == w.log && (v.store == w.store || v.store.None?)
    ensures LogOk(v)
  {
    forall i | 0 <= i < |v.log| ensures Delivered(v, v.log[i]) { DeliveredCarries(w, v, w.log[i]); }
  }

  lemma LogGrows(w: World, v: World, issue: nat)
    requires Inv(w) && Evolves(w, v)
    requires v.log == w.log + [issue] && v.store == Some(|w.log|)
    requires !Delivered(w, issue) && Delivered(v, issue)
    ensures LogOk(v) && issue !in w.log
  {
    forall i | 0 <= i < |w.log|
      ensures Delivered(v, v.log[i]) && w.log[i] != issue
    {
      DeliveredCarries(w, v, w.log[i]);
    }
  }

  // ---- Carrying what is known about revoked sessions -----------------------------------------------

  lemma RevokerCarries(w: World, v: World, token: nat)
    requires Evolves(w, v) && IsRevoked(w.rows, token) && Revoker(w, token, |w.refreshes|)
    ensures Revoker(v, token, |v.refreshes|)
  {
    var a :| 0 <= a < |w.refreshes| && w.refreshes[a].token == Some(token)
             && w.refreshes[a].reply == Some(RevokingReply(w.rows[token]));
    assert RefreshEvolves(w, w.refreshes[a], v.refreshes[a]) && v.rows[token] == w.rows[token];
  }

  lemma LostCarries(w: World, v: World, token: nat, before: nat)
    requires Evolves(w, v) && IsRevoked(w.rows, token) && LostRevoker(w, token, before)
    ensures LostRevoker(v, token, before)
  {
    var a :| 0 <= a < before && a < |w.refreshes| && w.refreshes[a].token == Some(token)
             && w.refreshes[a].reply == Some(RevokingReply(w.rows[token])) && w.refreshes[a].stage == Settled(Threw);
    assert RefreshEvolves(w, w.refreshes[a], v.refreshes[a]) && v.rows[token] == w.rows[token];
  }

  lemma LoggedOutCarries(w: World, v: World, token: nat)
    requires Evolves(w, v) && LoggedOut(w.tasks, token)
    ensures LoggedOut(v.tasks, token)
  {
    var q :| 0 <= q < |w.tasks| && w.tasks[q].Logout? && w.tasks[q].token == Some(token) && w.tasks[q].served;
    assert TaskEvolves(w.tasks[q], v.tasks[q]);
  }

  lemma RowCarries(w: World, v: World, k: nat)
    requires Evolves(w, v) && IsRevoked(w.rows, k) && RowOk(w, k)
    ensures RowOk(v, k)
  {
    assert v.rows[k] == w.rows[k];
    if Revoker(w, k, |w.refreshes|) { RevokerCarries(w, v, k); } else { LoggedOutCarries(w, v, k); }
  }

  lemma SentCarries(w: World, v: World, b: nat)
    requires Evolves(w, v) && b < |w.refreshes| && SentOk(w, b)
    ensures SentOk(v, b)
  {
    assert RefreshEvolves(w, w.refreshes[b], v.refreshes[b]);
    if w.refreshes[b].revokedAtSend {
      var token := w.refreshes[b].token.value;
      assert v.rows[token] == w.rows[token];
      if LostRevoker(w, token, b) { LostCarries(w, v, token, b); }
    }
  }

  ghost predicate NewRowsOk(w: World, v: World) {
    forall k {:trigger v.rows[k]} :: 0 <= k < |v.rows| && v.rows[k].revokedAt.Some? ==>
        IsRevoked(w.rows, k) || RowOk(v, k)
  }

  /** Only newly revoked rows and newly sent refreshes have to be explained. */
  lemma RevokedCarries(w: World, v: World)
    requires RevokedOk(w) && Evolves(w, v)
    requires NewRowsOk(w, v)
    requires forall b {:trigger v.refreshes[b]} :: |w.refreshes| <= b < |v.refreshes| ==> SentOk(v, b)
    ensures RevokedOk(v)
  {
    forall k | 0 <= k < |v.rows| ensures RowOk(v, k) {
      if IsRevoked(w.rows, k) {
        assert RowOk(w, k);
        RowCarries(w, v, k);
      }
    }
    forall b | 0 <= b < |v.refreshes| ensures SentOk(v, b) {
      if b < |w.refreshes| {
        assert SentOk(w, b);
        SentCarries(w, v, b);
      }
    }
  }

  /** Only task p and refresh r differ, and no refresh is added. */
  ghost predicate Local(w: World, v: World, p: nat, r: nat) {
    && |v.tasks| == |w.tasks| && |v.refreshes| == |w.refreshes|
    && (forall q :: 0 <= q < |w.tasks| && q != p ==> v.tasks[q] == w.tasks[q])
    && (forall k :: 0 <= k < |w.refreshes| && k != r ==> v.refreshes[k] == w.refreshes[k])
    && (p < |w.tasks| ==> TaskEvolves(w.tasks[p], v.tasks[p]))
    && (r < |w.refreshes| ==> RefreshEvolves(w, w.refreshes[r], v.refreshes[r]))
    && w.log <= v.log && w.owner <= v.owner && RowsStay(w.rows, v.rows)
  }

  lemma LocalEvolves(w: World, v: World, p: nat, r: nat)
    requires Local(w, v, p, r) && RefreshesOk(w)
    ensures Evolves(w, v)
  {
    forall k | 0 <= k < |w.refreshes| ensures RefreshEvolves(w, w.refreshes[k], v.refreshes[k]) {
      if k != r { assert v.refreshes[k] == w.refreshes[k]; }
    }
    forall q | 0 <= q < |w.tasks| ensures TaskEvolves(w.tasks[q], v.tasks[q]) {
      if q != p { assert v.tasks[q] == w.tasks[q]; }
    }
  }

  lemma LocalPresented(w: World, v: World, p: nat, r: nat)
    requires Local(w, v, p, r) && PresentedOnce(w)
    ensures PresentedOnce(v)
  {
    forall a, b | 0 <= a < b < |v.refreshes|
                  && v.refreshes[a].token.Some? && v.refreshes[a].token == v.refreshes[b].token
      ensures v.refreshes[a].stage == Settled(Threw)
    {
      assert w.refreshes[a].token == v.refreshes[a].token && w.refreshes[b].token == v.refreshes[b].token;
      assert w.refreshes[a].stage == Settled(Threw);
    }
  }

  lemma LocalHeld(w: World, v: World, p: nat, r: nat)
    requires Local(w, v, p, r) && HeldOk(w) && RefreshesOk(w) && StoreMoves(w, v)
    requires Held(v).Some? && Held(v) == Held(w) && r < |w.refreshes| && v.refreshes[r].stage.Settled? ==>
               v.refreshes[r].stage.outcome == Threw || w.refreshes[r].stage.Settled?
    ensures HeldOk(v)
  {
    forall a | 0 <= a < |v.refreshes| && v.refreshes[a].token.Some? && v.refreshes[a].token == Held(v)
               && v.refreshes[a].stage.Settled?
      ensures v.refreshes[a].stage == Settled(Threw)
    {
      assert RefreshOk(w, a);
      assert v.refreshes[a].token == w.refreshes[a].token;
    }
  }

  /** What a local step has to establish itself. */
  lemma LocalKeeps(w: World, v: World, p: nat, r: nat)
    requires Inv(w) && Local(w, v, p, r) && StoreMoves(w, v) && StoreIsQuiet(w, v)
    requires Numbered(v) && LogOk(v) && FlightOk(v) && RevokedOk(v)
    requires v.refreshing == w.refreshing || (v.refreshing.None? && ApiIn(w, p, Initiating))
    requires p < |w.tasks| ==> TaskOk(v, p)
    requires r < |w.refreshes| ==> RefreshOk(v, r)
    requires Held(v).Some? && Held(v) == Held(w) && r < |w.refreshes| && v.refreshes[r].stage.Settled? ==>
               v.refreshes[r].stage.outcome == Threw || w.refreshes[r].stage.Settled?
    ensures Inv(v)
  {
    LocalEvolves(w, v, p, r);
    forall q | 0 <= q < |v.tasks| && q != p ensures SameTask(w, v, q) {
      assert TaskOk(w, q);
      if p < |w.tasks| { assert TaskOk(w, p); }
    }
    Carries(w, v, p, r);
    LocalPresented(w, v, p, r);
    LocalHeld(w, v, p, r);
  }

  // ---- Every step keeps the invariant ------------------------------------------------------------

  /** A step of one task that leaves the refreshes, the log and the server alone. */
  lemma TaskStepKeeps(w: World, v: World, p: nat)
    requires Inv(w) && p < |w.tasks|
    requires v.log == w.log && v.refreshes == w.refreshes && v.rows == w.rows && v.owner == w.owner
    requires |v.tasks| == |w.tasks| && forall q :: 0 <= q < |w.tasks| && q != p ==> v.tasks[q] == w.tasks[q]
    requires TaskEvolves(w.tasks[p], v.tasks[p]) && TaskOk(v, p) && FlightOk(v)
    requires v.store == w.store || v.store.None?
    requires v.store == w.store || !AboutToRetry(w)
    requires v.refreshing == w.refreshing || (v.refreshing.None? && ApiIn(w, p, Initiating))
    ensures Evolves(w, v) && Inv(v)
  {
    var none := |w.refreshes|;
    LocalEvolves(w, v, p, none);
    LogCarries(w, v);
    RevokedCarries(w, v);
    LocalKeeps(w, v, p, none);
  }

  /** A call has been added; nothing else has changed. */
  ghost predicate Added(w: World, v: World) {
    && v.log == w.log && v.refreshes == w.refreshes && v.rows == w.rows && v.owner == w.owner
    && |v.tasks| == |w.tasks| + 1 && (forall q :: 0 <= q < |w.tasks| ==> v.tasks[q] == w.tasks[q])
    && v.store == w.store
    && v.refreshing == w.refreshing
  }

  lemma AddedEvolves(w: World, v: World)
    requires Inv(w) && Added(w, v)
    ensures Evolves(w, v) && StoreMoves(w, v) && LogOk(v)
  {
    forall q | 0 <= q < |w.tasks| ensures TaskEvolves(w.tasks[q], v.tasks[q]) {
      assert v.tasks[q] == w.tasks[q];
    }
    LogCarries(w, v);
  }

  lemma AddedRevoked(w: World, v: World)
    requires Inv(w) && Added(w, v)
    ensures RevokedOk(v)
  {
    AddedEvolves(w, v);
    RevokedCarries(w, v);
  }

  /** A new task. */
  lemma NewTaskKeeps(w: World, v: World)
    requires Inv(w) && Added(w, v) && TaskOk(v, |w.tasks|)
    ensures Evolves(w, v) && Inv(v)
  {
    AddedEvolves(w, v);
    AddedRevoked(w, v);
    forall q | 0 <= q < |v.tasks| && q != |w.tasks| ensures SameTask(w, v, q) {
      assert v.tasks[q] == w.tasks[q];
    }
    Carries(w, v, |w.tasks|, |w.refreshes|);
  }

  /** A step of one refresh that stores nothing and leaves the tasks and the server alone. */
  lemma RefreshStepKeeps(w: World, v: World, r: nat)
    requires Inv(w) && r < |w.refreshes|
    requires v.log == w.log && v.tasks == w.tasks && v.rows == w.rows && v.owner == w.owner
    requires v.refreshing == w.refreshing
    requires |v.refreshes| == |w.refreshes|
    requires forall k :: 0 <= k < |w.refreshes| && k != r ==> v.refreshes[k] == w.refreshes[k]
    requires RefreshEvolves(w, w.refreshes[r], v.refreshes[r]) && RefreshOk(v, r)
    requires !w.refreshes[r].stage.Settled?
    requires || v.store.None?
             || (v.store == w.store && (v.refreshes[r].stage.Settled? ==> v.refreshes[r].stage.outcome == Threw))
    requires v.refreshes[r].stage != Settled(Renewed) && !Draining(w)
    ensures Evolves(w, v) && Inv(v)
  {
    LocalEvolves(w, v, |w.tasks|, r);
    LogCarries(w, v);
    RevokedCarries(w, v);
    LocalKeeps(w, v, |w.tasks|, r);
  }

  /** A step of the server: it answers one call and may change session rows. */
  lemma ServerStepKeeps(w: World, v: World, p: nat, r: nat)
    requires Inv(w) && Local(w, v, p, r)
    requires v.log == w.log && v.store == w.store && v.refreshing == w.refreshing && Numbered(v)
    requires p < |w.tasks| ==> !w.tasks[p].Api? && TaskOk(v, p)
    requires r < |w.refreshes| ==> v.refreshes[r].stage == w.refreshes[r].stage && RefreshOk(v, r)
    requires NewRowsOk(w, v)
    ensures Evolves(w, v) && Inv(v)
  {
    LocalEvolves(w, v, p, r);
    LogCarries(w, v);
    RevokedCarries(w, v);
    LocalKeeps(w, v, p, r);
  }

  /** A step that hands a pair to the store. */
  lemma StoreStepKeeps(w: World, v: World, p: nat, r: nat, issue: nat)
    requires Inv(w) && Local(w, v, p, r)
    requires v.log == w.log + [issue] && v.store == Some(|w.log|)
    requires v.refreshing == w.refreshing && v.owner == w.owner && v.rows == w.rows
    requires !Delivered(w, issue) && Delivered(v, issue)
    requires p < |w.tasks| ==> w.tasks[p].Login? && TaskOk(v, p)
    requires r < |w.refreshes| ==> v.refreshes[r].stage.Settled? && RefreshOk(v, r)
    requires r < |w.refreshes| ==> v.refreshes[r].storedAt == v.store
    requires !Draining(w)
    ensures Evolves(w, v) && Inv(v)
  {
    LocalEvolves(w, v, p, r);
    LogGrows(w, v, issue);
    RevokedCarries(w, v);
    LocalKeeps(w, v, p, r);
  }

  lemma FinishKeeps(w: World, p: nat)
    requires Inv(w) && ApiIn(w, p, Waiting)
    ensures Evolves(w, Finished(w, p)) && Inv(Finished(w, p))
  {
    assert TaskOk(w, p);
    TaskStepKeeps(w, Finished(w, p), p);
  }

  /** When no continuation is ready, the shared refresh is still under way. */
  lemma SharedIsUnderWay(w: World)
    requires TasksOk(w) && FlightOk(w) && w.refreshing.Some? && !Draining(w)
    ensures !w.refreshes[w.refreshing.value].stage.Settled?
  {
    var q := w.refreshes[w.refreshing.value].initiator;
    assert TaskOk(w, q);
    assert w.refreshes[w.refreshing.value].stage.Settled? ==> Ready(w, q);
  }

  lemma JoinedTask(w: World, p: nat)
    requires Inv(w) && ApiIn(w, p, Waiting) && !Draining(w)
    requires w.tasks[p].auth && w.tasks[p].retry && w.tasks[p].sends == 1 && w.refreshing.Some?
    ensures TaskOk(CallRefresh(w, p), p)
  {
    assert TaskOk(w, p);
    assert RefreshOk(w, w.refreshing.value);
    SharedIsUnderWay(w);
  }

  lemma JoinKeeps(w: World, p: nat)
    requires Inv(w) && ApiIn(w, p, Waiting) && !Draining(w)
    requires w.tasks[p].auth && w.tasks[p].retry && w.tasks[p].sends == 1 && w.refreshing.Some?
    ensures Evolves(w, CallRefresh(w, p)) && Inv(CallRefresh(w, p))
  {
    assert TaskOk(w, p);
    JoinedTask(w, p);
    TaskStepKeeps(w, CallRefresh(w, p), p);
  }

  /** Request p has started a new refresh with whatever token the store holds; nothing else has changed. */
  ghost predicate Initiated(w: World, v: World, p: nat) {
    && ApiIn(w, p, Waiting) && w.refreshing.None?
    && w.tasks[p].auth && w.tasks[p].retry && w.tasks[p].sends == 1
    && v.log == w.log && v.store == w.store && v.rows == w.rows && v.owner == w.owner
    && |v.tasks| == |w.tasks| && |v.refreshes| == |w.refreshes| + 1
    && (forall q :: 0 <= q < |w.tasks| && q != p ==> v.tasks[q] == w.tasks[q])
    && (forall k :: 0 <= k < |w.refreshes| ==> v.refreshes[k] == w.refreshes[k])
    && v.refreshing == Some(|w.refreshes|)
    && v.tasks[p] == w.tasks[p].(phase := Initiating, joined := Some(|w.refreshes|))
    && v.refreshes[|w.refreshes|].initiator == p
    && v.refreshes[|w.refreshes|].token == Held(w)
    && v.refreshes[|w.refreshes|].reply.None? && v.refreshes[|w.refreshes|].storedAt.None?
    && v.refreshes[|w.refreshes|].storedBefore == |w.log|
    && v.refreshes[|w.refreshes|].issuedBefore == |w.rows|
    && v.refreshes[|w.refreshes|].revokedAtSend == (Held(w).Some? && IsRevoked(w.rows, Held(w).value))
    && v.refreshes[|w.refreshes|].duringLogout == (Held(w).Some? && LogoutUnderWay(w.tasks, Held(w).value))
    && v.refreshes[|w.refreshes|].stage == if Held(w).None? then Settled(NotRenewed) else Fetching
  }

  lemma InitiatedEvolves(w: World, v: World, p: nat)
    requires Inv(w) && Initiated(w, v, p)
    ensures Evolves(w, v)
  {
    assert TaskOk(w, p);
    forall r | 0 <= r < |w.refreshes| ensures RefreshEvolves(w, w.refreshes[r], v.refreshes[r]) {
      assert v.refreshes[r] == w.refreshes[r];
    }
    forall q | 0 <= q < |w.tasks| ensures TaskEvolves(w.tasks[q], v.tasks[q]) {
      if q != p { assert v.tasks[q] == w.tasks[q]; }
    }
  }

  lemma InitiatedTask(w: World, v: World, p: nat)
    requires Inv(w) && Initiated(w, v, p)
    ensures TaskOk(v, p)
  {
    assert TaskOk(w, p);
  }

  lemma InitiatedRefresh(w: World, v: World, p: nat)
    requires Inv(w) && Initiated(w, v, p)
    ensures RefreshOk(v, |w.refreshes|)
  {
    forall i | 0 <= i < |w.log| ensures w.log[i] < |w.owner| { assert Delivered(w, w.log[i]); }
  }

  lemma InitiatedFlight(w: World, v: World, p: nat)
    requires FlightOk(w) && Initiated(w, v, p)
    ensures FlightOk(v)
  {
    assert forall r :: 0 <= r < |w.refreshes| ==> v.refreshes[r] == w.refreshes[r] && w.refreshes[r].stage.Settled?;
  }

  lemma InitiatedOnce(w: World, v: World, p: nat)
    requires FlightOk(w) && PresentedOnce(w) && HeldOk(w) && Initiated(w, v, p)
    ensures PresentedOnce(v)
  {
    forall a, b | 0 <= a < b < |v.refreshes|
                  && v.refreshes[a].token.Some? && v.refreshes[a].token == v.refreshes[b].token
      ensures v.refreshes[a].stage == Settled(Threw)
    {
      assert v.refreshes[a] == w.refreshes[a];
      if b < |w.refreshes| {
        assert v.refreshes[b] == w.refreshes[b];
      } else {
        assert w.refreshes[a].stage.Settled?;
      }
    }
  }

  lemma InitiatedHeld(w: World, v: World, p: nat)
    requires HeldOk(w) && Initiated(w, v, p)
    ensures HeldOk(v)
  {
    forall a | 0 <= a < |v.refreshes| && v.refreshes[a].token.Some?
               && v.refreshes[a].token == Held(v) && v.refreshes[a].stage.Settled?
      ensures v.refreshes[a].stage == Settled(Threw)
    {
      if a < |w.refreshes| { assert v.refreshes[a] == w.refreshes[a]; }
    }
  }

  /** With no refresh under way, an earlier presentation of the held token is a lost one. */
  lemma LostWhenIdle(w: World, token: nat)
    requires Inv(w) && w.refreshing.None? && Held(w) == Some(token)
    requires token < |w.rows| && Revoker(w, token, |w.refreshes|)
    ensures LostRevoker(w, token, |w.refreshes|)
  {
    var a :| 0 <= a < |w.refreshes| && w.refreshes[a].token == Some(token)
             && w.refreshes[a].reply == Some(RevokingReply(w.rows[token]));
    assert w.refreshes[a].stage == Settled(Threw);
  }

  /** A logout of the held session that the server has processed is still under way in the client. */
  lemma HeldLogoutIsOpen(w: World, token: nat)
    requires TasksOk(w) && Held(w) == Some(token) && LoggedOut(w.tasks, token)
    ensures LogoutUnderWay(w.tasks, token)
  {
    var q :| 0 <= q < |w.tasks| && w.tasks[q].Logout? && w.tasks[q].token == Some(token) && w.tasks[q].served;
    assert TaskOk(w, q);
    assert w.tasks[q] == Logout(Some(token), true, true);
  }

  lemma InitiatedSent(w: World, v: World, p: nat)
    requires Inv(w) && Initiated(w, v, p) && Evolves(w, v)
    ensures SentOk(v, |w.refreshes|)
  {
    if Held(w).Some? && IsRevoked(w.rows, Held(w).value) {
      var token := Held(w).value;
      assert RowOk(w, token);
      if Revoker(w, token, |w.refreshes|) {
        LostWhenIdle(w, token);
        LostCarries(w, v, token, |w.refreshes|);
      } else {
        HeldLogoutIsOpen(w, token);
      }
    }
  }

  lemma InitiatedKeeps(w: World, v: World, p: nat)
    requires Inv(w) && Initiated(w, v, p)
    ensures Evolves(w, v) && Inv(v)
  {
    InitiatedEvolves(w, v, p);
    InitiatedTask(w, v, p);
    InitiatedRefresh(w, v, p);
    InitiatedFlight(w, v, p);
    InitiatedOnce(w, v, p);
    InitiatedHeld(w, v, p);
    LogCarries(w, v);
    InitiatedSent(w, v, p);
    RevokedCarries(w, v);
    forall q | 0 <= q < |v.tasks| && q != p ensures SameTask(w, v, q) {
      assert TaskOk(w, q);
    }
    Carries(w, v, p, |w.refreshes|);
  }

  lemma InitiateKeeps(w: World, p: nat)
    requires Inv(w) && ApiIn(w, p, Waiting)
    requires w.tasks[p].auth && w.tasks[p].retry && w.tasks[p].sends == 1 && w.refreshing.None?
    ensures Evolves(w, CallRefresh(w, p)) && Inv(CallRefresh(w, p))
  {
    InitiatedKeeps(w, CallRefresh(w, p), p);
  }

  /** One refresh call changes only the presented session, and adds at most the next one. */
  lemma RefreshedRows(rows: Sessions.Table, token: nat, d: Sessions.Draw)
    requires NumberedRows(rows) && token < |rows| && d.newId == d.newHash == |rows|
    ensures var after := Sessions.AfterRefresh(rows, token, d);
            && NumberedRows(after)
            && |after| == |rows| + (if Sessions.ReplyTo(rows, token, d).Rotated? then 1 else 0)
            && RowsStay(rows, after)
            && (forall k {:trigger after[k]} :: 0 <= k < |after| && after[k].revokedAt.Some? && !IsRevoked(rows, k) ==>
                  && k == token
                  && (after[k].replacedBy.Some? ==>
                        Sessions.ReplyTo(rows, token, d) == Sessions.Rotated(|rows|, |rows|))
                  && (after[k].replacedBy.None? ==> Sessions.ReplyTo(rows, token, d) == Sessions.Expired)
                  && (after[k].replacedBy.Some? ==> after[k].replacedBy == Some(|rows|)))
  {
  }

  lemma TokenIsIssued(w: World, r: nat)
    requires Inv(w) && r < |w.refreshes| && w.refreshes[r].token.Some?
    ensures w.refreshes[r].token.value < |w.rows|
  {
    assert RefreshOk(w, r);
    var i :| 0 <= i < |w.log| && w.log[i] == w.refreshes[r].token.value;
    assert Delivered(w, w.log[i]);
  }

  /** A deleted session is unknown, so its token is refused. */
  lemma UnknownRefreshKeeps(w: World, r: nat, d: Sessions.Draw)
    requires Inv(w) && Enabled(w, ServerRefresh(r, d)) && w.refreshes[r].token.value in w.gone
    ensures Evolves(w, ServedRefresh(w, r, d)) && Inv(ServedRefresh(w, r, d))
  {
    assert RefreshOk(w, r);
    ServerStepKeeps(w, ServedRefresh(w, r, d), |w.tasks|, r);
  }

  lemma KnownRefreshKeeps(w: World, r: nat, d: Sessions.Draw)
    requires Inv(w) && Enabled(w, ServerRefresh(r, d)) && w.refreshes[r].token.value !in w.gone
    ensures Evolves(w, ServedRefresh(w, r, d)) && Inv(ServedRefresh(w, r, d))
  {
    var v := ServedRefresh(w, r, d);
    assert RefreshOk(w, r);
    TokenIsIssued(w, r);
    RefreshedRows(w.rows, w.refreshes[r].token.value, d);
    forall k | 0 <= k < |v.rows| && v.rows[k].revokedAt.Some? ensures IsRevoked(w.rows, k) || RowOk(v, k) {
      if !IsRevoked(w.rows, k) {
        assert v.refreshes[r].token == Some(k) && v.refreshes[r].reply == Some(RevokingReply(v.rows[k]));
      }
    }
    ServerStepKeeps(w, v, |w.tasks|, r);
  }

  lemma ServedRefreshKeeps(w: World, r: nat, d: Sessions.Draw)
    requires Inv(w) && Enabled(w, ServerRefresh(r, d))
    ensures Evolves(w, ServedRefresh(w, r, d)) && Inv(ServedRefresh(w, r, d))
  {
    if w.refreshes[r].token.value in w.gone { UnknownRefreshKeeps(w, r, d); } else { KnownRefreshKeeps(w, r, d); }
  }

  lemma RefreshAnsweredKeeps(w: World, r: nat, ok: bool)
    requires Inv(w) && Enabled(w, RefreshAnswer(r, ok))
    ensures Evolves(w, RefreshAnswered(w, r, ok)) && Inv(RefreshAnswered(w, r, ok))
  {
    assert RefreshOk(w, r);
    RefreshStepKeeps(w, RefreshAnswered(w, r, ok), r);
  }

  lemma RefreshFailsKeeps(w: World, r: nat)
    requires Inv(w) && Enabled(w, RefreshFails(r))
    ensures Evolves(w, Settle(w, r, Threw)) && Inv(Settle(w, r, Threw))
  {
    assert RefreshOk(w, r);
    RefreshStepKeeps(w, Settle(w, r, Threw), r);
  }

  lemma RefreshReadKeeps(w: World, r: nat)
    requires Inv(w) && Enabled(w, RefreshBody(r))
    ensures Evolves(w, RefreshRead(w, r)) && Inv(RefreshRead(w, r))
  {
    assert RefreshOk(w, r);
    StoreStepKeeps(w, RefreshRead(w, r), |w.tasks|, r, w.refreshes[r].stage.issue);
  }

  lemma ClearKeeps(w: World, p: nat)
    requires Inv(w) && Enabled(w, Clear(p))
    ensures Evolves(w, Cleared(w, p)) && Inv(Cleared(w, p))
  {
    assert TaskOk(w, p);
    TaskStepKeeps(w, Cleared(w, p), p);
  }

  lemma ResumeKeeps(w: World, p: nat)
    requires Inv(w) && Enabled(w, Resume(p))
    ensures Evolves(w, Resumed(w, p)) && Inv(Resumed(w, p))
  {
    assert TaskOk(w, p);
    assert RefreshOk(w, w.tasks[p].joined.value);
    TaskStepKeeps(w, Resumed(w, p), p);
  }

  lemma ServedLoginKeeps(w: World, p: nat, user: nat, expiresAt: int)
    requires Inv(w) && Enabled(w, ServerLogin(p, user, expiresAt))
    ensures Evolves(w, ServedLogin(w, p, user, expiresAt)) && Inv(ServedLogin(w, p, user, expiresAt))
  {
    assert TaskOk(w, p);
    ServerStepKeeps(w, ServedLogin(w, p, user, expiresAt), p, |w.refreshes|);
  }

  lemma LoginStoredKeeps(w: World, p: nat)
    requires Inv(w) && Enabled(w, LoginStores(p))
    ensures Evolves(w, LoginStored(w, p)) && Inv(LoginStored(w, p))
  {
    assert TaskOk(w, p);
    StoreStepKeeps(w, LoginStored(w, p), p, |w.refreshes|, w.tasks[p].issue.value);
  }

  lemma LoginEndedKeeps(w: World, p: nat, refused: bool)
    requires Inv(w) && OpenLogin(w, p) && !Draining(w)
    ensures Evolves(w, LoginEnded(w, p, refused)) && Inv(LoginEnded(w, p, refused))
  {
    assert TaskOk(w, p);
    TaskStepKeeps(w, LoginEnded(w, p, refused), p);
  }

  lemma ServedLogoutKeeps(w: World, p: nat, now: int)
    requires Inv(w) && Enabled(w, ServerLogout(p, now))
    ensures Evolves(w, ServedLogout(w, p, now)) && Inv(ServedLogout(w, p, now))
  {
    var v := ServedLogout(w, p, now);
    assert TaskOk(w, p);
    forall k | 0 <= k < |v.rows| && v.rows[k].revokedAt.Some? ensures IsRevoked(w.rows, k) || RowOk(v, k) {
      if !IsRevoked(w.rows, k) {
        assert v.tasks[p].Logout? && v.tasks[p].token == Some(k) && v.tasks[p].served;
      }
    }
    ServerStepKeeps(w, v, p, |w.refreshes|);
  }

  lemma LogoutEndedKeeps(w: World, p: nat)
    requires Inv(w) && Enabled(w, LogoutEnds(p))
    ensures Evolves(w, LogoutEnded(w, p)) && Inv(LogoutEnded(w, p))
  {
    assert TaskOk(w, p);
    TaskStepKeeps(w, LogoutEnded(w, p), p);
  }

  lemma StartApiKeeps(w: World, auth: bool, retry: bool)
    requires Inv(w)
    ensures Evolves(w, StartedApi(w, auth, retry)) && Inv(StartedApi(w, auth, retry))
  {
    NewTaskKeeps(w, StartedApi(w, auth, retry));
  }

  lemma StartLoginKeeps(w: World)
    requires Inv(w)
    ensures Evolves(w, StartedLogin(w)) && Inv(StartedLogin(w))
  {
    NewTaskKeeps(w, StartedLogin(w));
  }

  lemma StartLogoutKeeps(w: World)
    requires Inv(w)
    ensures Evolves(w, StartedLogout(w)) && Inv(StartedLogout(w))
  {
    NewTaskKeeps(w, StartedLogout(w));
  }

  lemma StartReloadKeeps(w: World)
    requires Inv(w)
    ensures Evolves(w, Next(w, StartReload)) && Inv(Next(w, StartReload))
  {
    NewTaskKeeps(w, Next(w, StartReload));
  }

  lemma ReloadEndedKeeps(w: World, p: nat, failed: bool)
    requires Inv(w) && Enabled(w, ReloadEnds(p, failed))
    ensures Evolves(w, ReloadEnded(w, p, failed)) && Inv(ReloadEnded(w, p, failed))
  {
    TaskStepKeeps(w, ReloadEnded(w, p, failed), p);
  }

  /** Deleting rows touches nothing that the client or the history knows. */
  lemma CleanupKeeps(w: World, now: int)
    requires Inv(w)
    ensures Evolves(w, CleanedUp(w, now)) && Inv(CleanedUp(w, now))
  {
    var none, last := |w.tasks|, |w.refreshes|;
    ServerStepKeeps(w, CleanedUp(w, now), none, last);
  }

  lemma AnsweredKeeps(w: World, p: nat, unauthorized: bool)
    requires Inv(w) && Enabled(w, Answer(p, unauthorized))
    ensures Evolves(w, Answered(w, p, unauthorized)) && Inv(Answered(w, p, unauthorized))
  {
    var t := w.tasks[p];
    if !(unauthorized && t.auth && t.retry && t.sends == 1) { FinishKeeps(w, p); }
    else if w.refreshing.Some? { JoinKeeps(w, p); }
    else { InitiateKeeps(w, p); }
  }

  lemma ServerEventKeeps(w: World, e: Event)
    requires Inv(w) && Enabled(w, e)
    requires e.ServerRefresh? || e.ServerLogin? || e.ServerLogout? || e.ServerCleanup?
    ensures Evolves(w, Next(w, e)) && Inv(Next(w, e))
  {
    match e
    case ServerRefresh(r, d) => ServedRefreshKeeps(w, r, d);
    case ServerLogin(p, user, expiresAt) => ServedLoginKeeps(w, p, user, expiresAt);
    case ServerLogout(p, now) => ServedLogoutKeeps(w, p, now);
    case ServerCleanup(now) => CleanupKeeps(w, now);
  }

  lemma SignInEventKeeps(w: World, e: Event)
    requires Inv(w) && Enabled(w, e)
    requires
      || e.StartLogin? || e.LoginStores? || e.LoginRejected? || e.LoginFails?
      || e.StartLogout? || e.LogoutEnds? || e.StartReload? || e.ReloadEnds?
    ensures Evolves(w, Next(w, e)) && Inv(Next(w, e))
  {
    match e
    case StartLogin => StartLoginKeeps(w);
    case LoginStores(p) => LoginStoredKeeps(w, p);
    case LoginRejected(p) => LoginEndedKeeps(w, p, true);
    case LoginFails(p) => LoginEndedKeeps(w, p, false);
    case StartLogout => StartLogoutKeeps(w);
    case LogoutEnds(p) => LogoutEndedKeeps(w, p);
    case StartReload => StartReloadKeeps(w);
    case ReloadEnds(p, failed) => ReloadEndedKeeps(w, p, failed);
  }

  lemma StepKeepsInv(w: World, e: Event)
    requires Inv(w) && Enabled(w, e)
    ensures Evolves(w, Next(w, e)) && Inv(Next(w, e))
  {
    match e
    case StartApi(auth, retry) => StartApiKeeps(w, auth, retry);
    case Answer(p, unauthorized) => AnsweredKeeps(w, p, unauthorized);
    case FetchFails(p) => FinishKeeps(w, p);
    case RefreshAnswer(r, ok) => RefreshAnsweredKeeps(w, r, ok);
    case RefreshFails(r) => RefreshFailsKeeps(w, r);
    case RefreshBody(r) => RefreshReadKeeps(w, r);
    case Clear(p) => ClearKeeps(w, p);
    case Resume(p) => ResumeKeeps(w, p);
    case ServerRefresh(_, _) => ServerEventKeeps(w, e);
    case ServerLogin(_, _, _) => ServerEventKeeps(w, e);
    case ServerLogout(_, _) => ServerEventKeeps(w, e);
    case ServerCleanup(_) => ServerEventKeeps(w, e);
    case _ => SignInEventKeeps(w, e);
  }

  lemma {:induction false} RunKeepsInv(es: seq<Event>)
    ensures Run(es).Some? ==> Inv(Run(es).value)
  {
    if es != [] {
      var shorter := es[..|es| - 1];
      RunKeepsInv(shorter);
      if Run(es).Some? { StepKeepsInv(Run(shorter).value, es[|es| - 1]); }
    }
  }
}
