/** What the dashboard really hands to `fetch`, over whole runs: which requests carry a bearer, which one,
  * and how the bearer of a retry differs from the first. */
module TokenRefreshSends {
  import opened Wrappers
  import opened TokenRefresh
  import C = ClientView
  import Safety = TokenRefreshSafety

  /** The parts of a request that never change. */
  predicate SameRequest(t: Task, u: Task) {
    t.Api? && u.Api? && u.auth == t.auth && u.retry == t.retry && u.first == t.first
  }

  lemma RequestStep(w: World, e: Event, p: nat)
    requires Safety.Inv(w) && Enabled(w, e) && p < |w.tasks| && w.tasks[p].Api?
    ensures p < |Next(w, e).tasks| && SameRequest(w.tasks[p], Next(w, e).tasks[p]) && w.log <= Next(w, e).log
  {
    Safety.StepKeepsInv(w, e);
    assert Safety.TaskEvolves(w.tasks[p], Next(w, e).tasks[p]);
  }

  lemma {:induction false} RequestStays(es: seq<Event>, more: seq<Event>, p: nat)
    requires Run(es + more).Some? && Run(es).Some? && p < |Run(es).value.tasks| && Run(es).value.tasks[p].Api?
    ensures var w := Run(es).value; var v := Run(es + more).value;
            p < |v.tasks| && SameRequest(w.tasks[p], v.tasks[p]) && w.log <= v.log
  {
    if more == [] {
      assert es + more == es;
    } else {
      var shorter := more[..|more| - 1];
      assert (es + more)[..|es + more| - 1] == es + shorter;
      RequestStays(es, shorter, p);
      Safety.RunKeepsInv(es + shorter);
      RequestStep(Run(es + shorter).value, more[|more| - 1], p);
    }
  }

  /** The world after one more event of a run, and the number of the request it starts. */
  lemma RequestStarts(es: seq<Event>, auth: bool, retry: bool)
    requires Run(es).Some?
    ensures var w := Run(es).value; var p := |w.tasks|; var v := Run(es + [StartApi(auth, retry)]);
            && v.Some? && |v.value.tasks| == p + 1 && v.value.log == w.log
            && v.value.tasks[p] == Api(auth, retry, 1, if auth then w.store else None, if auth then w.store else None,
                                       Waiting, None, None)
  {
    RunExtends(es, StartApi(auth, retry));
  }

  /** In every run a request that takes a bearer is first sent with the pair that the store holds at that
    * moment, if any, and one that takes none is sent without. That is what the protocol remembers as its
    * first header for the rest of the run. */
  lemma FirstSend(es: seq<Event>, auth: bool, retry: bool, more: seq<Event>)
    requires Run(es).Some? && Run(es + [StartApi(auth, retry)] + more).Some?
    ensures var w := Run(es).value; var v := Run(es + [StartApi(auth, retry)] + more).value; var p := |w.tasks|;
            && C.SentBy(w, StartApi(auth, retry)) == Some(C.Plain(if auth then Held(w) else None))
            && p < |v.tasks| && v.tasks[p].Api? && v.tasks[p].auth == auth
            && (v.tasks[p].first.Some? <==> auth && Held(w).Some?)
            && C.PairAt(v.log, v.tasks[p].first) == (if auth then Held(w) else None)
  {
    Safety.RunKeepsInv(es);
    RequestStarts(es, auth, retry);
    RequestStays(es + [StartApi(auth, retry)], more, |Run(es).value.tasks|);
  }

  lemma SecondSend(w: World, p: nat)
    requires Safety.Inv(w) && Enabled(w, Resume(p)) && C.SentBy(w, Resume(p)).Some?
    ensures w.tasks[p].auth && w.tasks[p].retry && w.tasks[p].sends == 1
    ensures exists pair: nat :: C.SentBy(w, Resume(p)) == Some(C.Plain(Some(pair)))
                           && C.PairAt(w.log, w.tasks[p].first) != Some(pair)
  {
    assert Safety.TaskOk(w, p);
    C.RetryIsDifferent(w, p);
    assert C.SentBy(w, Resume(p)) == Some(C.Plain(Some(Held(w).value)));
  }

  /** In every run, when a request is sent a second time it is one that takes a bearer and may retry, it
    * carries one, and not the one it carried the first time. */
  lemma RetrySendsAnotherPair(es: seq<Event>, auth: bool, retry: bool, more: seq<Event>)
    requires Run(es).Some? && Run(es + [StartApi(auth, retry)] + more).Some?
    requires var v := Run(es + [StartApi(auth, retry)] + more).value; var p := |Run(es).value.tasks|;
             Enabled(v, Resume(p)) && C.SentBy(v, Resume(p)).Some?
    ensures auth && retry
    ensures var v := Run(es + [StartApi(auth, retry)] + more).value; var p := |Run(es).value.tasks|;
            && (exists pair: nat :: C.SentBy(v, Resume(p)) == Some(C.Plain(Some(pair))))
            && C.SentBy(v, Resume(p)) != C.SentBy(Run(es).value, StartApi(auth, retry))
  {
    FirstSend(es, auth, retry, more);
    RequestStarts(es, auth, retry);
    RequestStays(es + [StartApi(auth, retry)], more, |Run(es).value.tasks|);
    var v := Run(es + [StartApi(auth, retry)] + more).value;
    Safety.RunKeepsInv(es + [StartApi(auth, retry)] + more);
    SecondSend(v, |Run(es).value.tasks|);
  }
}
