/** The server's side of the protocol: its table goes through a run of the session operations, so what is
  * proved about those runs holds in every interleaving. */
module TokenRefreshServer {
  import opened Wrappers
  import opened Deletion
  import opened TokenRefresh
  import opened TokenRefreshSafety
  import Sessions

  ghost predicate GoneOk(w: World) {
    forall k :: k in w.gone ==> k < |w.rows|
  }

  /** Where the row of a session that has not been deleted stands in the server's table. */
  lemma RowIsPresent(w: World, k: nat) returns (i: nat)
    requires NumberedRows(w.rows) && k < |w.rows| && k !in w.gone
    ensures i < |Present(w)| && Present(w)[i] == w.rows[k] && Sessions.RowByHash(Present(w), k) == Some(i)
    ensures var keep := (s: Sessions.Session) => s.id !in w.gone;
            i < |Positions(w.rows, keep)| && Positions(w.rows, keep)[i] == k && Present(w) == Kept(w.rows, keep)
  {
    var keep := (s: Sessions.Session) => s.id !in w.gone;
    var at := Positions(w.rows, keep);
    KeptRows(w.rows, keep);
    assert Present(w) == Kept(w.rows, keep);
    assert w.rows[k].id == k;
    assert keep(w.rows[k]);
    i :| 0 <= i < |at| && at[i] == k;
    assert Present(w)[i].hash == k;
    var j := Sessions.RowByHash(Present(w), k).value;
    assert at[j] == k;
  }

  lemma RowIsAbsent(w: World, k: nat)
    requires NumberedRows(w.rows) && (k in w.gone || k >= |w.rows|)
    ensures Sessions.RowByHash(Present(w), k).None? && Sessions.RowById(Present(w), k).None?
  {
    var t := Present(w);
    KeptMembers(w.rows, (s: Sessions.Session) => s.id !in w.gone);
    forall j | 0 <= j < |t| ensures t[j].hash != k && t[j].id != k {
      assert t[j] in t;
      var n :| 0 <= n < |w.rows| && w.rows[n] == t[j];
    }
  }

  // ---- One step --------------------------------------------------------------------------------------

  /** What a step does to the server's table, if anything. */
  function TableOp(w: World, e: Event): Option<Sessions.Op>
    requires Enabled(w, e)
  {
    match e
    case ServerRefresh(r, d) => Some(Sessions.Refresh(w.refreshes[r].token.value, d))
    case ServerLogin(_, user, expiresAt) => Some(Sessions.Login(|w.rows|, user, |w.rows|, expiresAt))
    case ServerLogout(p, now) => Some(Sessions.Logout(w.tasks[p].token.value, now))
    case ServerCleanup(now) => Some(Sessions.Cleanup(now))
    case _ => None
  }

  /** Revoking one session that is there. */
  lemma RevokedIsPresent(w: World, v: World, k: nat, i: nat, now: int, replacedBy: Option<nat>)
    requires NumberedRows(w.rows) && k < |w.rows| && k !in w.gone
    requires v.gone == w.gone && v.rows == Sessions.WithRevoked(w.rows, k, now, replacedBy)
    requires Sessions.RowByHash(Present(w), k) == Some(i)
    ensures Present(v) == Sessions.WithRevoked(Present(w), i, now, replacedBy)
  {
    var j := RowIsPresent(w, k);
    var keep := (s: Sessions.Session) => s.id !in w.gone;
    assert w.rows[k].id == k;
    KeptUpdate(w.rows, k, v.rows[k], keep, i);
    assert Present(v) == Kept(v.rows, keep);
  }

  lemma AddedIsPresent(w: World, v: World, user: nat, expiresAt: int)
    requires NumberedRows(w.rows) && GoneOk(w)
    requires v.gone == w.gone && v.rows == Sessions.WithSession(w.rows, |w.rows|, user, |w.rows|, expiresAt)
    ensures Sessions.Unused(Present(w), |w.rows|, |w.rows|)
    ensures Present(v) == Sessions.WithSession(Present(w), |w.rows|, user, |w.rows|, expiresAt)
  {
    RowIsAbsent(w, |w.rows|);
    var keep := (s: Sessions.Session) => s.id !in w.gone;
    KeptAppend(w.rows, v.rows[|w.rows|], keep);
    assert Present(v) == Kept(v.rows, keep) && Present(w) == Kept(w.rows, keep);
  }

  lemma NumberedLookup(rows: Sessions.Table, k: nat)
    requires NumberedRows(rows)
    ensures Sessions.RowByHash(rows, k) == if k < |rows| then Some(k) else None
    ensures Sessions.RowById(rows, k) == if k < |rows| then Some(k) else None
  {
    var r, q := Sessions.RowByHash(rows, k), Sessions.RowById(rows, k);
    if k < |rows| { assert rows[k].hash == k && rows[k].id == k; }
  }

  lemma RotationIsPresent(w: World, v: World, k: nat, d: Sessions.Draw)
    requires NumberedRows(w.rows) && GoneOk(w) && k < |w.rows| && k !in w.gone && d.newId == d.newHash == |w.rows|
    requires v.gone == w.gone && v.rows == Sessions.AfterRefresh(w.rows, k, d)
    requires Sessions.ReplyTo(w.rows, k, d).Rotated?
    ensures Present(v) == Sessions.AfterRefresh(Present(w), k, d)
    ensures Sessions.ReplyTo(Present(w), k, d) == Sessions.ReplyTo(w.rows, k, d)
  {
    NumberedLookup(w.rows, k);
    var i := RowIsPresent(w, k);
    var u := w.(rows := Sessions.WithSession(w.rows, |w.rows|, w.rows[k].user, |w.rows|, d.newExpiresAt));
    AddedIsPresent(w, u, w.rows[k].user, d.newExpiresAt);
    assert NumberedRows(u.rows);
    var j := RowIsPresent(u, k);
    assert Present(u)[i] == w.rows[k] && Present(u)[j] == w.rows[k];
    SamePlace(u, k, i);
    RevokedIsPresent(u, v, k, i, d.revokedAt, Some(d.newId));
  }

  lemma SamePlace(w: World, k: nat, i: nat)
    requires NumberedRows(w.rows) && k < |w.rows| && k !in w.gone
    requires i < |Present(w)| && Present(w)[i] == w.rows[k]
    ensures Sessions.RowByHash(Present(w), k) == Some(i)
  {
    var j := RowIsPresent(w, k);
    var keep := (s: Sessions.Session) => s.id !in w.gone;
    KeptRows(w.rows, keep);
    var at := Positions(w.rows, keep);
    assert Present(w) == Kept(w.rows, keep);
    assert w.rows[at[i]].id == at[i] && w.rows[k].id == k;
  }

  lemma RefreshIsPresent(w: World, r: nat, d: Sessions.Draw)
    requires Inv(w) && GoneOk(w) && Enabled(w, ServerRefresh(r, d))
    ensures var k := w.refreshes[r].token.value;
            && Present(ServedRefresh(w, r, d)) == Sessions.AfterRefresh(Present(w), k, d)
            && ServerReply(w, k, d) == Sessions.ReplyTo(Present(w), k, d)
  {
    var k := w.refreshes[r].token.value;
    var v := ServedRefresh(w, r, d);
    TokenIsIssued(w, r);
    if k in w.gone {
      RowIsAbsent(w, k);
    } else {
      NumberedLookup(w.rows, k);
      NumberedLookup(w.rows, |w.rows|);
      RowIsAbsent(w, |w.rows|);
      var i := RowIsPresent(w, k);
      if Sessions.ReplyTo(w.rows, k, d).Rotated? {
        RotationIsPresent(w, v, k, d);
      } else if Sessions.ReplyTo(w.rows, k, d) == Sessions.Expired {
        RevokedIsPresent(w, v, k, i, d.revokedAt, None);
      }
    }
  }

  lemma LogoutIsPresent(w: World, p: nat, now: int)
    requires Inv(w) && GoneOk(w) && Enabled(w, ServerLogout(p, now))
    ensures Present(ServedLogout(w, p, now)) == Sessions.AfterLogout(Present(w), w.tasks[p].token.value, now)
  {
    var k := w.tasks[p].token.value;
    assert TaskOk(w, p);
    var n :| 0 <= n < |w.log| && w.log[n] == k;
    assert Delivered(w, w.log[n]);
    if k in w.gone {
      RowIsAbsent(w, k);
    } else {
      NumberedLookup(w.rows, k);
      var i := RowIsPresent(w, k);
      if w.rows[k].Live() { RevokedIsPresent(w, ServedLogout(w, p, now), k, i, now, None); }
    }
  }

  lemma CleanupIsPresent(w: World, now: int)
    requires NumberedRows(w.rows)
    ensures Present(CleanedUp(w, now)) == Sessions.AfterCleanup(Present(w), now)
  {
    var v := CleanedUp(w, now);
    var first := (s: Sessions.Session) => s.id !in w.gone;
    var second := (s: Sessions.Session) => !Sessions.Doomed(s, now);
    var after := (s: Sessions.Session) => s.id !in v.gone;
    var both := (s: Sessions.Session) => first(s) && second(s);
    KeptTwice(w.rows, first, second, both);
    forall s | s in w.rows ensures both(s) <==> after(s) {
      var k :| 0 <= k < |w.rows| && w.rows[k] == s;
    }
    KeptSame(w.rows, both, after);
    assert Present(w) == Kept(w.rows, first) && Present(v) == Kept(w.rows, after);
  }

  lemma LoginIsPresent(w: World, p: nat, user: nat, expiresAt: int)
    requires NumberedRows(w.rows) && GoneOk(w) && Enabled(w, ServerLogin(p, user, expiresAt))
    ensures Present(ServedLogin(w, p, user, expiresAt))
            == Sessions.AfterLogin(Present(w), |w.rows|, user, |w.rows|, expiresAt)
  {
    NumberedLookup(w.rows, |w.rows|);
    AddedIsPresent(w, ServedLogin(w, p, user, expiresAt), user, expiresAt);
  }

  lemma StepKeepsGone(w: World, e: Event)
    requires GoneOk(w) && Enabled(w, e)
    ensures GoneOk(Next(w, e))
  {
  }

  lemma OtherStepsAreSilent(w: World, e: Event)
    requires Enabled(w, e) && TableOp(w, e).None?
    ensures Present(Next(w, e)) == Present(w)
  {
    assert Next(w, e).rows == w.rows && Next(w, e).gone == w.gone;
  }

  /** What the protocol does to the server's table is what the session operation does to it. */
  lemma StepAppliesTableOp(w: World, e: Event)
    requires Inv(w) && GoneOk(w) && Enabled(w, e)
    ensures Present(Next(w, e))
            == (match TableOp(w, e) case None => Present(w) case Some(op) => Sessions.Apply(Present(w), op))
  {
    if e.ServerRefresh? {
      RefreshIsPresent(w, e.refresh, e.draw);
    } else if e.ServerLogin? {
      LoginIsPresent(w, e.task, e.user, e.expiresAt);
    } else if e.ServerLogout? {
      LogoutIsPresent(w, e.task, e.now);
    } else if e.ServerCleanup? {
      CleanupIsPresent(w, e.now);
    } else {
      OtherStepsAreSilent(w, e);
    }
  }

  // ---- Runs ------------------------------------------------------------------------------------------

  /** The operations the server's table has seen in a run. */
  function ServerOps(es: seq<Event>): seq<Sessions.Op>
    requires Run(es).Some?
  {
    if es == [] then []
    else
      var earlier := ServerOps(es[..|es| - 1]);
      match TableOp(Run(es[..|es| - 1]).value, es[|es| - 1])
      case None => earlier
      case Some(op) => earlier + [op]
  }

  /** The server's table inside the protocol is what the session operations make of it, clean-ups
    * included, so everything proved about those runs holds here. */
  lemma {:induction false} ServerTableIsARun(es: seq<Event>)
    requires Run(es).Some?
    ensures GoneOk(Run(es).value) && Present(Run(es).value) == Sessions.Run(ServerOps(es))
  {
    if es != [] {
      var shorter := es[..|es| - 1];
      ServerTableIsARun(shorter);
      RunKeepsInv(shorter);
      StepKeepsGone(Run(shorter).value, es[|es| - 1]);
      StepAppliesTableOp(Run(shorter).value, es[|es| - 1]);
      var op := TableOp(Run(shorter).value, es[|es| - 1]);
      if op.Some? { Sessions.RunNext(ServerOps(shorter), op.value); }
    }
  }

  /** However requests, logins, logouts and clean-ups interleave, each login leaves at most one live
    * session in the server's table. */
  lemma OneLiveSessionPerLogin(es: seq<Event>, a: nat, b: nat)
    requires Run(es).Some? && a < |Present(Run(es).value)| && b < |Present(Run(es).value)|
    requires Present(Run(es).value)[a].Live() && Present(Run(es).value)[b].Live()
    ensures var logins := Sessions.Logins(ServerOps(es));
            |logins| == |Present(Run(es).value)| && (logins[a] == logins[b] ==> a == b)
  {
    ServerTableIsARun(es);
    Sessions.OneLiveSessionPerLogin(ServerOps(es), a, b);
  }
}
