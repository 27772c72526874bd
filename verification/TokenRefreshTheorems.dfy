/** The promises of the token refresh, for every run of any number of requests, logins and logouts. */
module TokenRefreshTheorems {
  import opened Wrappers
  import opened TokenRefresh
  import opened TokenRefreshSafety
  import Sessions

  // ---- One refresh at a time ---------------------------------------------------------------------

  /** At most one refresh is unsettled; the module variable is set exactly while one request stands
    * between assigning and clearing it, and that request is the initiator of the refresh it names. */
  lemma SingleFlight(es: seq<Event>)
    requires Run(es).Some?
    ensures var w := Run(es).value;
            && (forall a, b :: 0 <= a < b < |w.refreshes| ==>
                  w.refreshes[a].stage.Settled? || w.refreshes[b].stage.Settled?)
            && (w.refreshing.Some? <==> exists p :: ApiIn(w, p, Initiating))
            && (forall p :: ApiIn(w, p, Initiating) ==>
                  && w.refreshing.Some? && w.refreshing.value < |w.refreshes|
                  && w.refreshes[w.refreshing.value].initiator == p)
  {
    RunKeepsInv(es);
    var w := Run(es).value;
    forall p | ApiIn(w, p, Initiating)
      ensures w.refreshing.Some? && w.refreshing.value < |w.refreshes| && w.refreshes[w.refreshing.value].initiator == p
    {
      assert TaskOk(w, p);
    }
  }

  lemma VariableStep(w: World, e: Event)
    requires Enabled(w, e)
    requires e.Clear? ==> w.refreshing == w.tasks[e.task].joined && w.refreshes[w.refreshing.value].initiator == e.task
    ensures var v := Next(w, e);
            && (w.refreshing.Some? && v.refreshing != w.refreshing ==>
                  && w.refreshing.value < |w.refreshes| && w.refreshes[w.refreshing.value].stage.Settled?
                  && e == Clear(w.refreshes[w.refreshing.value].initiator) && v.refreshing.None?)
            && (w.refreshing.None? && v.refreshing.Some? ==> e.Answer? && v.refreshing.value == |w.refreshes|)
  {
  }

  /** The module variable is assigned only when it was empty, and cleared only by its initiator, after
    * the shared refresh has settled. */
  lemma OnlyTheInitiatorClears(es: seq<Event>, e: Event)
    requires Run(es).Some? && Enabled(Run(es).value, e)
    ensures var w := Run(es).value; var v := Next(w, e);
            && (w.refreshing.Some? && v.refreshing != w.refreshing ==>
                  && w.refreshing.value < |w.refreshes| && w.refreshes[w.refreshing.value].stage.Settled?
                  && e == Clear(w.refreshes[w.refreshing.value].initiator) && v.refreshing.None?)
            && (w.refreshing.None? && v.refreshing.Some? ==> e.Answer? && v.refreshing.value == |w.refreshes|)
  {
    var w := Run(es).value;
    if e.Clear? {
      assert w.refreshing == w.tasks[e.task].joined && w.refreshes[w.refreshing.value].initiator == e.task by {
        RunKeepsInv(es);
        assert TaskOk(w, e.task);
      }
    }
    VariableStep(w, e);
  }

  /** Everyone who waited for one refresh resumes with the same outcome, the one it settled with. */
  lemma SharedOutcome(es: seq<Event>, p: nat, q: nat)
    requires Run(es).Some?
    requires var w := Run(es).value;
             && p < |w.tasks| && q < |w.tasks| && w.tasks[p].Api? && w.tasks[q].Api?
             && w.tasks[p].joined == w.tasks[q].joined && w.tasks[p].got.Some? && w.tasks[q].got.Some?
    ensures var w := Run(es).value;
            && w.tasks[p].got == w.tasks[q].got && w.tasks[p].joined.Some?
            && w.tasks[p].joined.value < |w.refreshes|
            && w.refreshes[w.tasks[p].joined.value].stage == Settled(w.tasks[p].got.value)
  {
    RunKeepsInv(es);
    assert TaskOk(Run(es).value, p);
    assert TaskOk(Run(es).value, q);
  }

  lemma {:induction false} RunSplits(es: seq<Event>, more: seq<Event>)
    requires Run(es + more).Some?
    ensures Run(es).Some?
  {
    if more == [] {
      assert es + more == es;
    } else {
      assert (es + more)[..|es + more| - 1] == es + more[..|more| - 1];
      RunSplits(es, more[..|more| - 1]);
    }
  }

  /** How a refresh settled, what the server decided about it and which token it presented never change
    * for the rest of the run. */
  lemma {:induction false} SettledForGood(es: seq<Event>, more: seq<Event>, r: nat)
    requires Run(es + more).Some? && Run(es).Some? && r < |Run(es).value.refreshes|
    ensures var w := Run(es).value; var v := Run(es + more).value;
            && r < |v.refreshes| && v.refreshes[r].token == w.refreshes[r].token
            && (w.refreshes[r].reply.Some? ==> v.refreshes[r].reply == w.refreshes[r].reply)
            && (w.refreshes[r].stage.Settled? ==> v.refreshes[r].stage == w.refreshes[r].stage)
  {
    if more == [] {
      assert es + more == es;
    } else {
      var shorter := more[..|more| - 1];
      assert (es + more)[..|es + more| - 1] == es + shorter;
      SettledForGood(es, shorter, r);
      RunKeepsInv(es + shorter);
      var w := Run(es + shorter).value;
      StepKeepsInv(w, more[|more| - 1]);
      assert RefreshEvolves(w, w.refreshes[r], Run(es + more).value.refreshes[r]);
    }
  }

  // ---- Tokens ------------------------------------------------------------------------------------

  /** Every pair the server issues reaches the store at most once. */
  lemma StoredAtMostOnce(es: seq<Event>, i: nat, j: nat)
    requires Run(es).Some? && i < j < |Run(es).value.log|
    ensures Run(es).value.log[i] != Run(es).value.log[j]
  {
    RunKeepsInv(es);
  }

  /** A retried request never resends the access token that was rejected. Its header is the very pair its
    * refresh delivered, a different pair, written to the store after the rejected one. */
  lemma RetryNeverResends(es: seq<Event>, p: nat)
    requires Run(es).Some? && p < |Run(es).value.tasks|
    requires Run(es).value.tasks[p].Api? && Run(es).value.tasks[p].sends > 1
    ensures var w := Run(es).value; var t := w.tasks[p];
            && t.sends == 2 && t.got == Some(Renewed)
            && t.joined.Some? && t.joined.value < |w.refreshes|
            && t.header.Some? && t.header == w.refreshes[t.joined.value].storedAt && t.header.value < |w.log|
            && (t.first.Some? ==> t.first.value < t.header.value && w.log[t.first.value] != w.log[t.header.value])
  {
    RunKeepsInv(es);
    assert TaskOk(Run(es).value, p);
    assert RefreshOk(Run(es).value, Run(es).value.tasks[p].joined.value);
  }

  // ---- The store -------------------------------------------------------------------------------------

  /** The client writes a pair to the store. */
  predicate Writes(e: Event) { e.RefreshBody? || e.LoginStores? }

  /** The client empties the store: the server refused to refresh, the account is not an administrator's,
    * a logout is over, or the profile could not be had. */
  predicate Empties(e: Event) {
    (e.RefreshAnswer? && !e.ok) || e.LoginRejected? || e.LogoutEnds? || (e.ReloadEnds? && e.failed)
  }

  /** The pair this event takes from the server's answer to the store. */
  predicate Brings(w: World, e: Event, pair: nat) {
    match e
    case RefreshBody(r) => r < |w.refreshes| && w.refreshes[r].reply == Some(Pair(pair))
    case LoginStores(p) => p < |w.tasks| && w.tasks[p].Login? && w.tasks[p].issue == Some(pair)
    case _ => false
  }

  lemma StoreStep(w: World, e: Event)
    requires Enabled(w, e) && (w.store.Some? ==> w.store.value < |w.log|)
    requires e.RefreshBody? ==> w.refreshes[e.refresh].reply == Some(Pair(w.refreshes[e.refresh].stage.issue))
    ensures var v := Next(w, e);
            && (Writes(e) ==> Held(v).Some? && Brings(w, e, Held(v).value) && v.log == w.log + [Held(v).value])
            && (Empties(e) ==> Held(v).None? && v.log == w.log)
            && (!Writes(e) && !Empties(e) ==> Held(v) == Held(w) && v.log == w.log)
  {
  }

  /** What every step of a run does to the stored pair: a refresh whose body has been read and an
    * administrator's login replace it by the pair they were issued, the four events above remove it, and
    * nothing else touches it. */
  lemma WhoChangesTheStore(es: seq<Event>, e: Event)
    requires Run(es).Some? && Enabled(Run(es).value, e)
    ensures var w := Run(es).value; var v := Next(w, e);
            && (Writes(e) ==> Held(v).Some? && Brings(w, e, Held(v).value) && v.log == w.log + [Held(v).value])
            && (Empties(e) ==> Held(v).None? && v.log == w.log)
            && (!Writes(e) && !Empties(e) ==> Held(v) == Held(w) && v.log == w.log)
  {
    var w := Run(es).value;
    assert (w.store.Some? ==> w.store.value < |w.log|)
           && (e.RefreshBody? ==> w.refreshes[e.refresh].reply == Some(Pair(w.refreshes[e.refresh].stage.issue))) by {
      RunKeepsInv(es);
      if e.RefreshBody? { assert RefreshOk(w, e.refresh); }
    }
    StoreStep(w, e);
  }

  /** The stored pair outlives everything else that can happen, failing requests, refreshes and logins
    * included. */
  lemma {:induction false} PairStays(es: seq<Event>, more: seq<Event>)
    requires Run(es + more).Some? && Run(es).Some?
    requires forall i :: 0 <= i < |more| ==> !Writes(more[i]) && !Empties(more[i])
    ensures Held(Run(es + more).value) == Held(Run(es).value)
  {
    if more == [] {
      assert es + more == es;
    } else {
      var shorter := more[..|more| - 1];
      assert (es + more)[..|es + more| - 1] == es + shorter;
      PairStays(es, shorter);
      WhoChangesTheStore(es + shorter, more[|more| - 1]);
    }
  }

  // ---- When a request refreshes and retries ------------------------------------------------------------

  /** A rejected request waits for a refresh exactly when it is an authorized one that may still retry;
    * it joins the refresh under way, if there is one, and starts one otherwise. Any other answer is final. */
  lemma RefreshesExactlyWhen(es: seq<Event>, p: nat, unauthorized: bool)
    requires Run(es).Some? && Enabled(Run(es).value, Answer(p, unauthorized))
    ensures var w := Run(es).value; var v := Next(w, Answer(p, unauthorized));
            && |v.tasks| == |w.tasks| && v.tasks[p].Api?
            && (v.tasks[p].joined.Some? && v.tasks[p].got.None? <==>
                  unauthorized && w.tasks[p].auth && w.tasks[p].retry && w.tasks[p].got.None?)
            && (v.tasks[p].joined.Some? && v.tasks[p].got.None? ==>
                  v.tasks[p].joined == if w.refreshing.Some? then w.refreshing else Some(|w.refreshes|))
            && (v.refreshes != w.refreshes ==> v.refreshing == Some(|w.refreshes|))
  {
    RunKeepsInv(es);
    assert TaskOk(Run(es).value, p);
  }

  /** A refresh that starts presents the pair in the store, if there is one, and remembers how many pairs had
    * been stored by then, and whether the session was revoked, or its logout under way, at that moment. */
  lemma WhatARefreshRemembers(w: World, e: Event)
    requires Enabled(w, e) && |Next(w, e).refreshes| > |w.refreshes|
    ensures e.Answer? && |Next(w, e).refreshes| == |w.refreshes| + 1
    ensures var f := Next(w, e).refreshes[|w.refreshes|];
            && f.initiator == e.task && f.token == Held(w) && f.reply.None?
            && f.storedBefore == |w.log| && f.issuedBefore == |w.rows|
            && (f.revokedAtSend <==>
                  f.token.Some? && f.token.value < |w.rows| && w.rows[f.token.value].revokedAt.Some?)
            && (f.duringLogout <==>
                  && f.token.Some?
                  && exists q :: 0 <= q < |w.tasks| && w.tasks[q] == Logout(f.token, true, true))
  {
  }

  /** A request is sent a second time exactly when the refresh it waited for delivered a pair. */
  lemma RetriesExactlyWhen(es: seq<Event>, p: nat)
    requires Run(es).Some? && p < |Run(es).value.tasks| && Run(es).value.tasks[p].Api?
    ensures var w := Run(es).value; var t := w.tasks[p];
            && (t.sends == 2 <==> t.got == Some(Renewed)) && (t.sends == 1 <==> t.got != Some(Renewed))
            && (t.got.Some? ==> t.joined.Some? && t.joined.value < |w.refreshes| && t.auth && t.retry
                                && w.refreshes[t.joined.value].stage == Settled(t.got.value))
  {
    RunKeepsInv(es);
    assert TaskOk(Run(es).value, p);
  }

  // ---- The order in which the server issued the pairs ------------------------------------------------

  predicate Unanswered(w: World, r: nat) {
    r < |w.refreshes| ==> w.refreshes[r].reply.None?
  }

  /** At some point of the run the server had issued this pair and had not answered refresh r. */
  ghost predicate IssuedBeforeAnswer(es: seq<Event>, issue: nat, r: nat) {
    exists n {:trigger es[..n]} :: 0 <= n <= |es| && Run(es[..n]).Some?
              && issue < |Run(es[..n]).value.rows| && Unanswered(Run(es[..n]).value, r)
  }

  lemma StepAnswers(w: World, e: Event, r: nat)
    requires Enabled(w, e) && Unanswered(w, r)
    ensures var v := Next(w, e);
            r < |v.refreshes| && v.refreshes[r].reply.Some? && v.refreshes[r].reply.value.Pair? ==>
              v.refreshes[r].reply.value.issue == |w.rows|
  {
  }

  /** The pair of an answer is the next one after those issued by then. */
  lemma {:induction false} AnswerMoment(es: seq<Event>, r: nat, issue: nat)
    requires Run(es).Some? && r < |Run(es).value.refreshes| && Run(es).value.refreshes[r].reply == Some(Pair(issue))
    ensures exists n {:trigger es[..n]} :: 0 <= n <= |es| && Run(es[..n]).Some?
              && |Run(es[..n]).value.rows| == issue && Unanswered(Run(es[..n]).value, r)
  {
    var n := |es| - 1;
    var w := Run(es[..n]).value;
    RunKeepsInv(es[..n]);
    if Unanswered(w, r) {
      StepAnswers(w, es[n], r);
    } else {
      StepKeepsInv(w, es[n]);
      assert RefreshEvolves(w, w.refreshes[r], Run(es).value.refreshes[r]);
      AnswerMoment(es[..n], r, issue);
      var m :| 0 <= m <= n && Run(es[..n][..m]).Some? && |Run(es[..n][..m]).value.rows| == issue
               && Unanswered(Run(es[..n][..m]).value, r);
      assert es[..n][..m] == es[..m];
    }
  }

  lemma {:induction false} AnsweredLater(es: seq<Event>, n: nat, r: nat, issue: nat)
    requires n <= |es| && Run(es).Some? && Run(es[..n]).Some? && Unanswered(Run(es[..n]).value, r)
    ensures |Run(es[..n]).value.rows| <= |Run(es).value.rows|
    ensures r < |Run(es).value.refreshes| && Run(es).value.refreshes[r].reply == Some(Pair(issue)) ==>
              |Run(es[..n]).value.rows| <= issue
  {
    if n == |es| {
      assert es[..n] == es;
    } else {
      var shorter := es[..|es| - 1];
      assert shorter[..n] == es[..n];
      AnsweredLater(shorter, n, r, issue);
      var w := Run(shorter).value;
      RunKeepsInv(shorter);
      StepKeepsInv(w, es[|es| - 1]);
      if Unanswered(w, r) {
        StepAnswers(w, es[|es| - 1], r);
      } else {
        assert RefreshEvolves(w, w.refreshes[r], Run(es).value.refreshes[r]);
      }
    }
  }

  /** A pair is older than the one a refresh was answered with exactly when the server issued it before
    * it answered that refresh. */
  lemma OlderExactlyWhen(es: seq<Event>, r: nat, issue: nat, other: nat)
    requires Run(es).Some? && r < |Run(es).value.refreshes| && Run(es).value.refreshes[r].reply == Some(Pair(issue))
    ensures other < issue <==> IssuedBeforeAnswer(es, other, r)
  {
    if other < issue {
      AnswerMoment(es, r, issue);
      var n :| 0 <= n <= |es| && Run(es[..n]).Some? && |Run(es[..n]).value.rows| == issue
               && Unanswered(Run(es[..n]).value, r);
      assert other < |Run(es[..n]).value.rows|;
    }
    if IssuedBeforeAnswer(es, other, r) {
      var n :| 0 <= n <= |es| && Run(es[..n]).Some? && other < |Run(es[..n]).value.rows|
               && Unanswered(Run(es[..n]).value, r);
      AnsweredLater(es, n, r, issue);
    }
  }

  /** A retry carries a pair the server issued after the rejected one exactly when the rejected one was
    * issued before the server answered the refresh; so always when the request was sent before the
    * refresh began, and always when no login stored a pair while the refresh was open. */
  lemma RetryIsNewerExactlyWhen(es: seq<Event>, p: nat)
    requires Run(es).Some? && p < |Run(es).value.tasks|
    requires Run(es).value.tasks[p].Api? && Run(es).value.tasks[p].sends > 1 && Run(es).value.tasks[p].first.Some?
    ensures var w := Run(es).value; var t := w.tasks[p];
            && t.joined.Some? && t.joined.value < |w.refreshes|
            && t.header.Some? && t.header.value < |w.log| && t.first.value < |w.log|
            && var f := w.refreshes[t.joined.value];
            && (w.log[t.first.value] < w.log[t.header.value] <==>
                  IssuedBeforeAnswer(es, w.log[t.first.value], t.joined.value))
            && (t.first.value < f.storedBefore ==> w.log[t.first.value] < w.log[t.header.value])
            && (f.storedAt == Some(f.storedBefore) ==> w.log[t.first.value] < w.log[t.header.value])
  {
    RetryNeverResends(es, p);
    RunKeepsInv(es);
    var w := Run(es).value;
    var t := w.tasks[p];
    assert TaskOk(w, p);
    assert RefreshOk(w, t.joined.value);
    OlderExactlyWhen(es, t.joined.value, w.log[t.header.value], w.log[t.first.value]);
  }

  /** A refresh token is presented a second time only when the first presentation was lost: its fetch
    * or the reading of its body failed. */
  lemma PresentedTwiceOnlyIfLost(es: seq<Event>, a: nat, b: nat)
    requires Run(es).Some? && a < b < |Run(es).value.refreshes|
    requires Run(es).value.refreshes[a].token.Some?
    requires Run(es).value.refreshes[a].token == Run(es).value.refreshes[b].token
    ensures Run(es).value.refreshes[a].stage == Settled(Threw)
  {
    RunKeepsInv(es);
  }

  predicate Fails(e: Event) { e.RefreshFails? }

  lemma OnlyFailuresThrow(w: World, e: Event, r: nat)
    requires Enabled(w, e) && !Fails(e) && r < |Next(w, e).refreshes|
    requires r < |w.refreshes| ==> w.refreshes[r].stage != Settled(Threw)
    ensures Next(w, e).refreshes[r].stage != Settled(Threw)
  {
  }

  /** Without a failing refresh fetch or body, no refresh ends by throwing. */
  lemma {:induction false} NoFailureNoThrow(es: seq<Event>, r: nat)
    requires Run(es).Some? && r < |Run(es).value.refreshes|
    requires forall i :: 0 <= i < |es| ==> !Fails(es[i])
    ensures Run(es).value.refreshes[r].stage != Settled(Threw)
  {
    if es != [] {
      var shorter := es[..|es| - 1];
      assert !Fails(es[|es| - 1]);
      if r < |Run(shorter).value.refreshes| { NoFailureNoThrow(shorter, r); }
      OnlyFailuresThrow(Run(shorter).value, es[|es| - 1], r);
    }
  }

  /** Without a failing refresh fetch or body, no refresh token is ever presented twice, whatever logins
    * and logouts do. */
  lemma NeverPresentedTwice(es: seq<Event>, a: nat, b: nat)
    requires Run(es).Some? && a < b < |Run(es).value.refreshes|
    requires forall i :: 0 <= i < |es| ==> !Fails(es[i])
    requires Run(es).value.refreshes[a].token.Some?
    ensures Run(es).value.refreshes[a].token != Run(es).value.refreshes[b].token
  {
    if Run(es).value.refreshes[a].token == Run(es).value.refreshes[b].token {
      PresentedTwiceOnlyIfLost(es, a, b);
      NoFailureNoThrow(es, a);
    }
  }

  /** The client presents the token of a session that was rotated away only after an earlier call of its
    * own that rotated it, whose answer was lost; logins and logouts may overlap. */
  lemma RotatedTokenWasLost(es: seq<Event>, b: nat)
    requires Run(es).Some? && b < |Run(es).value.refreshes| && Run(es).value.refreshes[b].revokedAtSend
    ensures var w := Run(es).value; var f := w.refreshes[b];
            && f.token.Some? && f.token.value < |w.rows| && w.rows[f.token.value].revokedAt.Some?
            && (w.rows[f.token.value].replacedBy.Some? ==>
                  exists a :: 0 <= a < b && w.refreshes[a].token == f.token
                              && w.refreshes[a].reply == Some(Pair(w.rows[f.token.value].replacedBy.value))
                              && w.refreshes[a].stage == Settled(Threw))
  {
    RunKeepsInv(es);
    var w := Run(es).value;
    assert SentOk(w, b);
    var token := w.refreshes[b].token.value;
    if w.rows[token].replacedBy.Some? {
      var a :| 0 <= a < b && a < |w.refreshes| && w.refreshes[a].token == Some(token)
               && w.refreshes[a].reply == Some(RevokingReply(w.rows[token])) && w.refreshes[a].stage == Settled(Threw);
    }
  }

  /** Unless a logout that the server has processed is in flight, the client presents a revoked session's
    * token only after an earlier call of its own that revoked it and whose answer was lost: one that
    * rotated the session, or else the one that found it expired. */
  lemma RevokedTokenWasLost(es: seq<Event>, b: nat)
    requires Run(es).Some? && b < |Run(es).value.refreshes|
    requires Run(es).value.refreshes[b].revokedAtSend && !Run(es).value.refreshes[b].duringLogout
    ensures var w := Run(es).value; var f := w.refreshes[b];
            && f.token.Some? && f.token.value < |w.rows|
            && exists a :: 0 <= a < b && w.refreshes[a].token == f.token && w.refreshes[a].stage == Settled(Threw)
                           && w.refreshes[a].reply == Some(if w.rows[f.token.value].replacedBy.Some?
                                                           then Pair(w.rows[f.token.value].replacedBy.value)
                                                           else Refusal(Sessions.Expired))
  {
    RunKeepsInv(es);
    var w := Run(es).value;
    assert SentOk(w, b);
    var token := w.refreshes[b].token.value;
    var a :| 0 <= a < b && a < |w.refreshes| && w.refreshes[a].token == Some(token)
             && w.refreshes[a].reply == Some(RevokingReply(w.rows[token])) && w.refreshes[a].stage == Settled(Threw);
  }
}
