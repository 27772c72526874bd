/** A login that overlaps a refresh. The server issues the refreshed pair before the login's pair, but
  * the client stores them in the opposite order, so a retried request ends up with the older one. */
module TokenRefreshScenario {
  import opened Wrappers
  import opened TokenRefresh
  import Sessions

  lemma Extend(es: seq<Event>, w: World, e: Event, v: World)
    requires Run(es) == Some(w) && Enabled(w, e) && Next(w, e) == v
    ensures Run(es + [e]) == Some(v)
  {
    RunExtends(es, e);
  }

  const DRAW := Sessions.Draw(10, 10, 1, 1, 100, true)

  const ROW := Sessions.Session(0, 7, 0, 100, None, None)
  const ROTATED := ROW.(revokedAt := Some(10), replacedBy := Some(1))
  const INITIATOR := Api(true, true, 1, Some(0), Some(0), Initiating, Some(0), None)
  const CALL := Refresh(1, Some(0), None, Fetching, None, 1, 1, false, false)

  const SIGNING_IN := World(None, [], None, [], [Login(Some(0), true)], [ROW], {}, [ByLogin(0)], 1)

  const SIGNED_IN := World(Some(0), [0], None, [], [Login(Some(0), false)], [ROW], {}, [ByLogin(0)], 1)

  /** Request 1 was rejected and started refresh 0. */
  const REFRESHING := World(
    Some(0), [0], Some(0), [CALL], [Login(Some(0), false), INITIATOR], [ROW], {}, [ByLogin(0)], 3)

  /** The server has issued pair 1 to the refresh. */
  const ROTATION := World(
    Some(0), [0], Some(0), [CALL.(reply := Some(Pair(1)))], [Login(Some(0), false), INITIATOR],
    [ROTATED, Sessions.Session(1, 7, 1, 100, None, None)], {}, [ByLogin(0), ByRefresh(0)], 3)

  /** The server has issued pair 2 to a second login, whose pair is stored first. */
  const OVERTAKEN := World(
    Some(1), [0, 2], Some(0), [CALL.(reply := Some(Pair(1)))],
    [Login(Some(0), false), INITIATOR, Login(Some(2), false)],
    [ROTATED, Sessions.Session(1, 7, 1, 100, None, None), Sessions.Session(2, 7, 2, 100, None, None)], {},
    [ByLogin(0), ByRefresh(0), ByLogin(2)], 4)

  lemma ReachSigningIn() returns (es: seq<Event>)
    ensures Run(es) == Some(SIGNING_IN)
  {
    var asked := World(None, [], None, [], [Login(None, true)], [], {}, [], 1);
    Extend([], START, StartLogin, asked);
    es := [] + [StartLogin];
    Extend(es, asked, ServerLogin(0, 7, 100), SIGNING_IN);
    es := es + [ServerLogin(0, 7, 100)];
  }

  lemma ReachSignedIn() returns (es: seq<Event>)
    ensures Run(es) == Some(SIGNED_IN)
  {
    es := ReachSigningIn();
    Extend(es, SIGNING_IN, LoginStores(0), SIGNED_IN);
    es := es + [LoginStores(0)];
  }

  lemma ReachRefreshing() returns (es: seq<Event>)
    ensures Run(es) == Some(REFRESHING)
  {
    es := ReachSignedIn();
    var sent := StartedApi(SIGNED_IN, true, true);
    Extend(es, SIGNED_IN, StartApi(true, true), sent);
    es := es + [StartApi(true, true)];
    Extend(es, sent, Answer(1, true), REFRESHING);
    es := es + [Answer(1, true)];
  }

  lemma ReachRotation() returns (es: seq<Event>)
    ensures Run(es) == Some(ROTATION)
  {
    es := ReachRefreshing();
    assert Sessions.AfterRefresh(REFRESHING.rows, 0, DRAW) == ROTATION.rows;
    Extend(es, REFRESHING, ServerRefresh(0, DRAW), ROTATION);
    es := es + [ServerRefresh(0, DRAW)];
  }

  lemma ReachOvertaken() returns (es: seq<Event>)
    ensures Run(es) == Some(OVERTAKEN)
  {
    es := ReachRotation();
    var asked := StartedLogin(ROTATION);
    Extend(es, ROTATION, StartLogin, asked);
    es := es + [StartLogin];
    var served := ServedLogin(asked, 2, 7, 100);
    assert served.rows == OVERTAKEN.rows;
    Extend(es, asked, ServerLogin(2, 7, 100), served);
    es := es + [ServerLogin(2, 7, 100)];
    Extend(es, served, LoginStores(2), OVERTAKEN);
    es := es + [LoginStores(2)];
  }

  /** A request sent with pair 2 is rejected and joins the refresh. */
  lemma ReachJoined() returns (es: seq<Event>, w: World)
    ensures Run(es) == Some(w) && w.log == [0, 2] && w.store == Some(1) && w.refreshes == OVERTAKEN.refreshes
    ensures w.tasks == OVERTAKEN.tasks + [Api(true, true, 1, Some(1), Some(1), Joined, Some(0), None)]
  {
    es := ReachOvertaken();
    var sent := StartedApi(OVERTAKEN, true, true);
    Extend(es, OVERTAKEN, StartApi(true, true), sent);
    es := es + [StartApi(true, true)];
    w := CallRefresh(sent, 3);
    Extend(es, sent, Answer(3, true), w);
    es := es + [Answer(3, true)];
  }

  lemma ReachRenewed() returns (es: seq<Event>, w: World)
    ensures Run(es) == Some(w) && w.log == [0, 2, 1] && w.store == Some(2)
    ensures |w.tasks| == 4 && w.tasks[3] == Api(true, true, 1, Some(1), Some(1), Joined, Some(0), None)
    ensures |w.refreshes| == 1 && w.refreshes[0].stage == Settled(Renewed) && w.refreshes[0].storedBefore == 1
  {
    var joined;
    es, joined := ReachJoined();
    var read := RefreshAnswered(joined, 0, true);
    Extend(es, joined, RefreshAnswer(0, true), read);
    es := es + [RefreshAnswer(0, true)];
    w := RefreshRead(read, 0);
    Extend(es, read, RefreshBody(0), w);
    es := es + [RefreshBody(0)];
  }

  /** The retry is not always younger in the server's order: here a request is rejected with pair 2 and
    * retried with pair 1. */
  lemma RetryMayCarryOlderPair() returns (es: seq<Event>, p: nat)
    ensures Run(es).Some? && p < |Run(es).value.tasks|
    ensures var w := Run(es).value; var t := w.tasks[p];
            && t.Api? && t.sends == 2
            && t.first.Some? && t.header.Some? && t.first.value < |w.log| && t.header.value < |w.log|
            && t.joined.Some? && t.joined.value < |w.refreshes|
            && w.refreshes[t.joined.value].storedBefore <= t.first.value
            && w.log[t.header.value] < w.log[t.first.value]
  {
    var w;
    es, w := ReachRenewed();
    Extend(es, w, Resume(3), Resumed(w, 3));
    es := es + [Resume(3)];
    p := 3;
  }

  // ---- The other way round -----------------------------------------------------------------------------

  const SECOND_DRAW := Sessions.Draw(10, 10, 2, 2, 100, true)

  /** While refresh 0 is under way and not yet answered, a second login has stored pair 1, and a request
    * sent with it has been rejected and has joined the refresh. */
  const JOINED_EARLY := World(
    Some(1), [0, 1], Some(0), [CALL],
    [Login(Some(0), false), INITIATOR, Login(Some(1), false),
     Api(true, true, 1, Some(1), Some(1), Joined, Some(0), None)],
    [ROW, Sessions.Session(1, 7, 1, 100, None, None)], {}, [ByLogin(0), ByLogin(2)], 5)

  lemma ReachJoinedEarly() returns (es: seq<Event>)
    ensures Run(es) == Some(JOINED_EARLY)
  {
    es := ReachRefreshing();
    var asked := StartedLogin(REFRESHING);
    Extend(es, REFRESHING, StartLogin, asked);
    es := es + [StartLogin];
    var served := ServedLogin(asked, 2, 7, 100);
    assert served.rows == JOINED_EARLY.rows;
    Extend(es, asked, ServerLogin(2, 7, 100), served);
    es := es + [ServerLogin(2, 7, 100)];
    var stored := LoginStored(served, 2);
    Extend(es, served, LoginStores(2), stored);
    es := es + [LoginStores(2)];
    var sent := StartedApi(stored, true, true);
    Extend(es, stored, StartApi(true, true), sent);
    es := es + [StartApi(true, true)];
    Extend(es, sent, Answer(3, true), JOINED_EARLY);
    es := es + [Answer(3, true)];
  }

  lemma RotatesToTwo()
    ensures Sessions.ReplyTo(JOINED_EARLY.rows, 0, SECOND_DRAW) == Sessions.Rotated(2, 2)
  {
    var rows := JOINED_EARLY.rows;
    assert rows[..1] == [ROW] && [ROW][..0] == [];
    assert Sessions.RowByHash([ROW], 0) == Some(0);
    assert Sessions.RowByHash([ROW], 2).None? && Sessions.RowById([ROW], 2).None?;
  }

  lemma ReachAnsweredEarly() returns (es: seq<Event>, w: World)
    ensures Run(es) == Some(w) && w.log == [0, 1] && w.store == Some(1) && w.tasks == JOINED_EARLY.tasks
    ensures w.refreshes == [CALL.(reply := Some(Pair(2)))]
  {
    es := ReachJoinedEarly();
    RotatesToTwo();
    w := ServedRefresh(JOINED_EARLY, 0, SECOND_DRAW);
    Extend(es, JOINED_EARLY, ServerRefresh(0, SECOND_DRAW), w);
    es := es + [ServerRefresh(0, SECOND_DRAW)];
  }

  lemma ReachRenewedEarly() returns (es: seq<Event>, w: World)
    ensures Run(es) == Some(w) && w.log == [0, 1, 2] && w.store == Some(2)
    ensures |w.tasks| == 4 && w.tasks[3] == Api(true, true, 1, Some(1), Some(1), Joined, Some(0), None)
    ensures |w.refreshes| == 1 && w.refreshes[0].stage == Settled(Renewed) && w.refreshes[0].storedBefore == 1
  {
    var answered;
    es, answered := ReachAnsweredEarly();
    var read := RefreshAnswered(answered, 0, true);
    Extend(es, answered, RefreshAnswer(0, true), read);
    es := es + [RefreshAnswer(0, true)];
    w := RefreshRead(read, 0);
    Extend(es, read, RefreshBody(0), w);
    es := es + [RefreshBody(0)];
  }

  /** A request sent after the refresh began can be retried with a younger pair as well as, above, with an
    * older one. So what the client itself can see, the order of its own sends and writes, decides the
    * order of issue only for requests sent before the refresh began. */
  lemma RetryMayCarryYoungerPair() returns (es: seq<Event>, p: nat)
    ensures Run(es).Some? && p < |Run(es).value.tasks|
    ensures var w := Run(es).value; var t := w.tasks[p];
            && t.Api? && t.sends == 2 && t.joined.Some? && t.joined.value < |w.refreshes|
            && t.first.Some? && t.header.Some? && t.first.value < |w.log| && t.header.value < |w.log|
            && w.refreshes[t.joined.value].storedBefore <= t.first.value
            && w.log[t.first.value] < w.log[t.header.value]
  {
    var w;
    es, w := ReachRenewedEarly();
    Extend(es, w, Resume(3), Resumed(w, 3));
    es := es + [Resume(3)];
    p := 3;
  }

  // ---- A lost answer -------------------------------------------------------------------------------------

  /** The answer to refresh 0, which rotated the session, was lost on its way to the client. */
  const LOST := ROTATION.(refreshes := [CALL.(reply := Some(Pair(1)), stage := Settled(Threw))])

  lemma ReachLost() returns (es: seq<Event>, w: World)
    ensures Run(es) == Some(w) && w.store == Some(0) && w.log == [0] && w.refreshing.None?
    ensures w.refreshes == LOST.refreshes && w.rows == ROTATION.rows && w.gone == {}
    ensures w.tasks == [Login(Some(0), false), Api(true, true, 1, Some(0), Some(0), Done, Some(0), Some(Threw))]
  {
    es := ReachRotation();
    Extend(es, ROTATION, RefreshFails(0), LOST);
    es := es + [RefreshFails(0)];
    var cleared := Cleared(LOST, 1);
    Extend(es, LOST, Clear(1), cleared);
    es := es + [Clear(1)];
    w := Resumed(cleared, 1);
    Extend(es, cleared, Resume(1), w);
    es := es + [Resume(1)];
  }

  /** The lost token can be presented again, and is then refused as revoked: this is the one way in which a
    * token is ever presented twice. */
  lemma LostTokenIsPresentedAgain() returns (es: seq<Event>)
    ensures Run(es).Some?
    ensures var f := Run(es).value.refreshes;
            && |f| == 2 && f[0].token == f[1].token == Some(0) && f[1].revokedAtSend && !f[1].duringLogout
            && f[0].reply == Some(Pair(1)) && f[0].stage == Settled(Threw)
            && f[1].reply == Some(Refusal(Sessions.Revoked))
  {
    var w;
    es, w := ReachLost();
    var sent := StartedApi(w, true, true);
    Extend(es, w, StartApi(true, true), sent);
    es := es + [StartApi(true, true)];
    var asking := CallRefresh(sent, 2);
    Extend(es, sent, Answer(2, true), asking);
    es := es + [Answer(2, true)];
    Sessions.FoundByHash(asking.rows, 0);
    Extend(es, asking, ServerRefresh(1, SECOND_DRAW), ServedRefresh(asking, 1, SECOND_DRAW));
    es := es + [ServerRefresh(1, SECOND_DRAW)];
  }
}
