/** Login sessions: the `auth_sessions` table, the repository calls that change it, the service operations
  * built from them, and the scheduled clean-up. Instants are whole microseconds. Tokens are compared
  * through their keyed hash, so a token and its hash are one identifier here. */
module Sessions {
  import opened Wrappers
  import opened Deletion

  datatype Session = Session(
    id: nat,
    user: nat,
    hash: nat,
    expiresAt: int,
    revokedAt: Option<int>,
    replacedBy: Option<nat>
  ) {
    predicate Live() { revokedAt.None? }
  }

  /** Rows in insertion order. */
  type Table = seq<Session>

  datatype Reply =
    | Rotated(id: nat, hash: nat)
    | Invalid
    | Revoked
    | Expired
    | UserUnavailable
    | Conflict

  /** What one refresh call draws from outside: clock readings, the new random identifiers, and whether
    * the owner of the session still exists and is active. */
  datatype Draw = Draw(now: int, revokedAt: int, newId: nat, newHash: nat, newExpiresAt: int, userActive: bool)

  datatype Op =
    | Login(id: nat, user: nat, hash: nat, expiresAt: int)
    | Refresh(presented: nat, draw: Draw)
    | Logout(token: nat, now: int)
    | Cleanup(now: int)

  // ---- Queries -----------------------------------------------------------------------------------

  /** Row number of the session holding this hash. */
  function RowByHash(t: Table, hash: nat): (r: Option<nat>)
    ensures r.Some? ==> r.value < |t| && t[r.value].hash == hash
    ensures r.None? ==> forall k :: 0 <= k < |t| ==> t[k].hash != hash
  {
    if t == [] then None
    else if t[|t| - 1].hash == hash then Some(|t| - 1)
    else RowByHash(t[..|t| - 1], hash)
  }

  /** Row number of the session with this primary key. */
  function RowById(t: Table, id: nat): (r: Option<nat>)
    ensures r.Some? ==> r.value < |t| && t[r.value].id == id
    ensures r.None? ==> forall k :: 0 <= k < |t| ==> t[k].id != id
  {
    if t == [] then None
    else if t[|t| - 1].id == id then Some(|t| - 1)
    else RowById(t[..|t| - 1], id)
  }

  predicate Unused(t: Table, id: nat, hash: nat) {
    RowById(t, id).None? && RowByHash(t, hash).None?
  }

  // ---- Changes -----------------------------------------------------------------------------------

  function WithSession(t: Table, id: nat, user: nat, hash: nat, expiresAt: int): Table {
    t + [Session(id, user, hash, expiresAt, None, None)]
  }

  function WithRevoked(t: Table, i: nat, now: int, replacedBy: Option<nat>): Table
    requires i < |t|
  {
    t[i := t[i].(revokedAt := Some(now), replacedBy := replacedBy)]
  }

  /** A successful login stores one new session. A clash on a unique column aborts the transaction. */
  function AfterLogin(t: Table, id: nat, user: nat, hash: nat, expiresAt: int): Table {
    if Unused(t, id, hash) then WithSession(t, id, user, hash, expiresAt) else t
  }

  function ReplyTo(t: Table, presented: nat, d: Draw): Reply {
    var row := RowByHash(t, presented);
    if row.None? then Invalid
    else if t[row.value].revokedAt.Some? then Revoked
    else if t[row.value].expiresAt <= d.now then Expired
    else if !d.userActive then UserUnavailable
    else if !Unused(t, d.newId, d.newHash) then Conflict
    else Rotated(d.newId, d.newHash)
  }

  function AfterRefresh(t: Table, presented: nat, d: Draw): Table {
    var row := RowByHash(t, presented);
    match ReplyTo(t, presented, d)
    case Expired => WithRevoked(t, row.value, d.revokedAt, None)
    case Rotated(_, _) =>
      WithRevoked(WithSession(t, d.newId, t[row.value].user, d.newHash, d.newExpiresAt),
                  row.value, d.revokedAt, Some(d.newId))
    case _ => t
  }

  function AfterLogout(t: Table, token: nat, now: int): Table {
    var row := RowByHash(t, token);
    if row.Some? && t[row.value].Live() then WithRevoked(t, row.value, now, None) else t
  }

  /** How long a revoked session is kept: seven days. */
  const REVOKED_KEPT := 7 * 24 * 60 * 60 * 1_000_000

  /** The rows that a clean-up at this time deletes. */
  predicate Doomed(r: Session, now: int) {
    r.expiresAt <= now || (r.revokedAt.Some? && r.revokedAt.value <= now - REVOKED_KEPT)
  }

  function AfterCleanup(t: Table, now: int): Table {
    Kept(t, (r: Session) => !Doomed(r, now))
  }

  function Apply(t: Table, op: Op): Table {
    match op
    case Cleanup(now) => AfterCleanup(t, now)
    case Login(id, user, hash, expiresAt) => AfterLogin(t, id, user, hash, expiresAt)
    case Refresh(presented, d) => AfterRefresh(t, presented, d)
    case Logout(token, now) => AfterLogout(t, token, now)
  }

  function Run(ops: seq<Op>): Table {
    if ops == [] then [] else Apply(Run(ops[..|ops| - 1]), ops[|ops| - 1])
  }

  // ---- The invariant of every run ----------------------------------------------------------------

  ghost predicate UniqueKeys(t: Table) {
    && (forall i, j :: 0 <= i < j < |t| ==> t[i].id != t[j].id)
    && (forall i, j :: 0 <= i < j < |t| ==> t[i].hash != t[j].hash)
  }

  /** A replaced session is revoked, and its replacement is a younger row, unless it has been deleted. */
  ghost predicate LinksForward(t: Table) {
    && (forall i :: 0 <= i < |t| && t[i].replacedBy.Some? ==> t[i].revokedAt.Some?)
    && (forall i, k {:trigger t[i], t[k]} :: 0 <= i < |t| && 0 <= k < |t| && t[i].replacedBy == Some(t[k].id) ==> i < k)
  }

  ghost predicate Inv(t: Table) {
    UniqueKeys(t) && LinksForward(t)
  }

  lemma AppendKeepsInv(t: Table, id: nat, user: nat, hash: nat, expiresAt: int)
    requires Inv(t) && Unused(t, id, hash)
    ensures Inv(WithSession(t, id, user, hash, expiresAt))
  {
  }

  /** Revoking a live row, in favour of the youngest row or of none. */
  lemma RevokeKeepsInv(t: Table, i: nat, now: int, replacedBy: Option<nat>)
    requires Inv(t) && i < |t| && t[i].Live()
    requires replacedBy.Some? ==> i < |t| - 1 && t[|t| - 1].id == replacedBy.value
    ensures Inv(WithRevoked(t, i, now, replacedBy))
  {
    var u := WithRevoked(t, i, now, replacedBy);
    assert forall k :: 0 <= k < |t| ==> u[k].id == t[k].id && u[k].hash == t[k].hash;
  }

  lemma CleanupKeepsInv(t: Table, now: int)
    requires Inv(t)
    ensures Inv(AfterCleanup(t, now))
  {
    KeptRows(t, (r: Session) => !Doomed(r, now));
  }

  lemma ApplyKeepsInv(t: Table, op: Op)
    requires Inv(t)
    ensures Inv(Apply(t, op))
  {
    match op
    case Login(id, user, hash, expiresAt) =>
      if Unused(t, id, hash) { AppendKeepsInv(t, id, user, hash, expiresAt); }
    case Refresh(presented, d) =>
      var row := RowByHash(t, presented);
      if ReplyTo(t, presented, d) == Expired {
        RevokeKeepsInv(t, row.value, d.revokedAt, None);
      } else if ReplyTo(t, presented, d).Rotated? {
        AppendKeepsInv(t, d.newId, t[row.value].user, d.newHash, d.newExpiresAt);
        var grown := WithSession(t, d.newId, t[row.value].user, d.newHash, d.newExpiresAt);
        RevokeKeepsInv(grown, row.value, d.revokedAt, Some(d.newId));
      }
    case Logout(token, now) =>
      var row := RowByHash(t, token);
      if row.Some? && t[row.value].Live() { RevokeKeepsInv(t, row.value, now, None); }
    case Cleanup(now) => CleanupKeepsInv(t, now);
  }

  lemma {:induction false} RunKeepsInv(ops: seq<Op>)
    ensures Inv(Run(ops))
  {
    if ops != [] {
      RunKeepsInv(ops[..|ops| - 1]);
      ApplyKeepsInv(Run(ops[..|ops| - 1]), ops[|ops| - 1]);
    }
  }

  // ---- Revocation is final -----------------------------------------------------------------------

  /** Some clean-up among these operations deletes this row. */
  ghost predicate DoomedBy(ops: seq<Op>, r: Session) {
    exists i :: 0 <= i < |ops| && ops[i].Cleanup? && Doomed(r, ops[i].now)
  }

  /** The operation draws this token for a new session. */
  predicate DrawsHash(op: Op, hash: nat) {
    (op.Login? && op.hash == hash) || (op.Refresh? && op.draw.newHash == hash)
  }

  ghost predicate HasHash(t: Table, hash: nat) {
    exists k :: 0 <= k < |t| && t[k].hash == hash
  }

  /** A revoked row is left alone by everything but the clean-up that deletes it. */
  lemma RevokedStepwise(t: Table, op: Op, r: Session)
    requires Inv(t) && r in t && r.revokedAt.Some?
    ensures r in Apply(t, op) <==> !(op.Cleanup? && Doomed(r, op.now))
    ensures r !in Apply(t, op) ==> !HasHash(Apply(t, op), r.hash)
  {
    var i :| 0 <= i < |t| && t[i] == r;
    if op.Cleanup? {
      var keep := (s: Session) => !Doomed(s, op.now);
      KeptMembers(t, keep);
      assert Apply(t, op) == Kept(t, keep);
      if k :| 0 <= k < |Kept(t, keep)| && Kept(t, keep)[k].hash == r.hash {
        assert Kept(t, keep)[k] in t;
      }
    } else {
      assert i < |Apply(t, op)| && Apply(t, op)[i] == r;
    }
  }

  lemma HashStaysAway(t: Table, op: Op, hash: nat)
    requires !HasHash(t, hash) && !DrawsHash(op, hash)
    ensures !HasHash(Apply(t, op), hash)
  {
    var u := Apply(t, op);
    if op.Cleanup? {
      KeptMembers(t, (s: Session) => !Doomed(s, op.now));
      assert forall k :: 0 <= k < |u| ==> u[k] in u && u[k] in t;
    }
  }

  lemma RunNext(ops: seq<Op>, op: Op)
    ensures Run(ops + [op]) == Apply(Run(ops), op)
  {
    assert (ops + [op])[..|ops|] == ops;
  }

  lemma DoomedNext(ops: seq<Op>, r: Session)
    requires ops != []
    ensures DoomedBy(ops, r) <==>
              DoomedBy(ops[..|ops| - 1], r) || (ops[|ops| - 1].Cleanup? && Doomed(r, ops[|ops| - 1].now))
  {
  }

  /** In every continuation of a run a revoked row stays exactly as it was, replacement link included,
    * until a clean-up deletes it; from then on no row holds its token, unless the token is drawn again. */
  lemma {:induction false} RevokedUntilDeleted(ops: seq<Op>, more: seq<Op>, r: Session)
    requires r in Run(ops) && r.revokedAt.Some?
    requires forall i :: 0 <= i < |more| ==> !DrawsHash(more[i], r.hash)
    ensures r in Run(ops + more) <==> !DoomedBy(more, r)
    ensures HasHash(Run(ops + more), r.hash) <==> !DoomedBy(more, r)
  {
    if more == [] {
      assert ops + more == ops;
    } else {
      var n := |more| - 1;
      RevokedUntilDeleted(ops, more[..n], r);
      assert ops + more == ops + more[..n] + [more[n]];
      RunNext(ops + more[..n], more[n]);
      var t := Run(ops + more[..n]);
      RunKeepsInv(ops + more[..n]);
      DoomedNext(more, r);
      if DoomedBy(more[..n], r) { HashStaysAway(t, more[n], r.hash); } else { RevokedStepwise(t, more[n], r); }
    }
  }

  /** The row that a rotation leaves behind. */
  function RotatedRow(t: Table, presented: nat, d: Draw): Session
    requires ReplyTo(t, presented, d).Rotated?
  {
    t[RowByHash(t, presented).value].(revokedAt := Some(d.revokedAt), replacedBy := Some(d.newId))
  }

  lemma RotationRevokes(t: Table, presented: nat, d: Draw)
    requires ReplyTo(t, presented, d).Rotated?
    ensures RotatedRow(t, presented, d) in AfterRefresh(t, presented, d)
  {
    var i := RowByHash(t, presented).value;
    assert AfterRefresh(t, presented, d)[i] == RotatedRow(t, presented, d);
  }

  lemma ReplyToRevoked(t: Table, r: Session, d: Draw)
    requires Inv(t) && r.revokedAt.Some? && (r in t <==> HasHash(t, r.hash))
    ensures ReplyTo(t, r.hash, d) == if r in t then Revoked else Invalid
  {
  }

  /** Replay: a token that was rotated once is never rotated again. At every later point of the run it is
    * answered "revoked" until a clean-up has deleted its row, and "invalid" afterwards, as long as the
    * random token is not drawn a second time. */
  lemma RotatesAtMostOnce(ops: seq<Op>, presented: nat, first: Draw, more: seq<Op>, again: Draw)
    requires ReplyTo(Run(ops), presented, first).Rotated?
    requires forall i :: 0 <= i < |more| ==> !DrawsHash(more[i], presented)
    ensures ReplyTo(Run(ops + [Refresh(presented, first)] + more), presented, again)
            == if DoomedBy(more, RotatedRow(Run(ops), presented, first)) then Invalid else Revoked
  {
    var once := ops + [Refresh(presented, first)];
    assert once[..|once| - 1] == ops;
    var r := RotatedRow(Run(ops), presented, first);
    RotationRevokes(Run(ops), presented, first);
    RevokedUntilDeleted(once, more, r);
    RunKeepsInv(once + more);
    ReplyToRevoked(Run(once + more), r, again);
  }

  // ---- What each operation does to each row ------------------------------------------------------

  ghost predicate HasId(t: Table, id: nat) {
    exists k :: 0 <= k < |t| && t[k].id == id
  }

  /** What a refresh is answered in every run: "invalid" exactly when no session has the token, and
    * otherwise by the first of these that applies to its session: revoked, expired, the user gone or
    * inactive, a drawn identifier taken, and with a new session when none does. */
  lemma ReplyExactlyWhen(ops: seq<Op>, token: nat, d: Draw, k: nat)
    ensures ReplyTo(Run(ops), token, d) == Invalid <==> !HasHash(Run(ops), token)
    ensures k < |Run(ops)| && Run(ops)[k].hash == token ==>
              var s, reply := Run(ops)[k], ReplyTo(Run(ops), token, d);
              var taken := HasId(Run(ops), d.newId) || HasHash(Run(ops), d.newHash);
              && (reply == Revoked <==> !s.Live())
              && (reply == Expired <==> s.Live() && s.expiresAt <= d.now)
              && (reply == UserUnavailable <==> s.Live() && d.now < s.expiresAt && !d.userActive)
              && (reply == Conflict <==> s.Live() && d.now < s.expiresAt && d.userActive && taken)
              && (reply == Rotated(d.newId, d.newHash) <==>
                    s.Live() && d.now < s.expiresAt && d.userActive && !taken)
  {
    RunKeepsInv(ops);
    var t := Run(ops);
    if k < |t| && t[k].hash == token { FoundByHash(t, k); }
    assert Unused(t, d.newId, d.newHash) <==> !HasId(t, d.newId) && !HasHash(t, d.newHash);
  }

  lemma FoundByHash(t: Table, k: nat)
    requires UniqueKeys(t) && k < |t|
    ensures RowByHash(t, t[k].hash) == Some(k)
  {
  }

  lemma RefreshedRow(t: Table, token: nat, d: Draw, k: nat)
    requires Inv(t) && k < |t|
    ensures |AfterRefresh(t, token, d)| == (if ReplyTo(t, token, d).Rotated? then |t| + 1 else |t|)
    ensures t[k].hash != token ==> AfterRefresh(t, token, d)[k] == t[k]
    ensures t[k].hash == token && ReplyTo(t, token, d).Rotated? ==>
              && AfterRefresh(t, token, d)[|t|] == Session(d.newId, t[k].user, d.newHash, d.newExpiresAt, None, None)
              && AfterRefresh(t, token, d)[k] == t[k].(revokedAt := Some(d.revokedAt), replacedBy := Some(d.newId))
    ensures t[k].hash == token && !ReplyTo(t, token, d).Rotated? ==>
              AfterRefresh(t, token, d)[k]
              == if t[k].Live() && t[k].expiresAt <= d.now then t[k].(revokedAt := Some(d.revokedAt)) else t[k]
  {
    assert RowByHash(t, token).Some? ==> t[RowByHash(t, token).value].hash == token;
  }

  /** In every run a rotation adds one session of the same user and revokes the presented row in its
    * favour, a refresh of an expired session revokes its row, and any other refresh changes nothing. */
  lemma RefreshChangesOneRow(ops: seq<Op>, token: nat, d: Draw, k: nat)
    requires k < |Run(ops)|
    ensures var t, u := Run(ops), Run(ops + [Refresh(token, d)]); var reply := ReplyTo(t, token, d);
            && |u| == (if reply.Rotated? then |t| + 1 else |t|)
            && (t[k].hash != token ==> u[k] == t[k])
            && (t[k].hash == token && reply.Rotated? ==>
                  && u[|t|] == Session(d.newId, t[k].user, d.newHash, d.newExpiresAt, None, None)
                  && u[k] == t[k].(revokedAt := Some(d.revokedAt), replacedBy := Some(d.newId)))
            && (t[k].hash == token && !reply.Rotated? ==>
                  u[k] == if t[k].Live() && t[k].expiresAt <= d.now
                          then t[k].(revokedAt := Some(d.revokedAt)) else t[k])
  {
    RunKeepsInv(ops);
    RunNext(ops, Refresh(token, d));
    RefreshedRow(Run(ops), token, d, k);
  }

  lemma LoggedOutRow(t: Table, token: nat, now: int, k: nat)
    requires UniqueKeys(t) && k < |t| && (t[k].replacedBy.Some? ==> t[k].revokedAt.Some?)
    ensures |AfterLogout(t, token, now)| == |t|
    ensures AfterLogout(t, token, now)[k]
            == if t[k].hash == token && t[k].Live() then t[k].(revokedAt := Some(now)) else t[k]
  {
  }

  /** In every run a logout revokes the live row of its token and changes no other row and no other column. */
  lemma LogoutChangesOneRow(ops: seq<Op>, token: nat, now: int, k: nat)
    requires k < |Run(ops)|
    ensures var t, u := Run(ops), Run(ops + [Logout(token, now)]);
            && |u| == |t|
            && u[k] == if t[k].hash == token && t[k].Live() then t[k].(revokedAt := Some(now)) else t[k]
  {
    RunKeepsInv(ops);
    RunNext(ops, Logout(token, now));
    LoggedOutRow(Run(ops), token, now, k);
  }

  lemma {:induction false} HashStaysAwayInRuns(ops: seq<Op>, more: seq<Op>, hash: nat)
    requires !HasHash(Run(ops), hash)
    requires forall i :: 0 <= i < |more| ==> !DrawsHash(more[i], hash)
    ensures !HasHash(Run(ops + more), hash)
  {
    if more == [] {
      assert ops + more == ops;
    } else {
      var n := |more| - 1;
      HashStaysAwayInRuns(ops, more[..n], hash);
      assert ops + more == ops + more[..n] + [more[n]];
      RunNext(ops + more[..n], more[n]);
      HashStaysAway(Run(ops + more[..n]), more[n], hash);
    }
  }

  /** A logout is final. In every continuation of a run in which the logged-out token is not drawn again,
    * presenting it is answered "invalid" when no session had it or a clean-up has deleted the session
    * since, and "revoked" otherwise. */
  lemma LogoutIsFinal(ops: seq<Op>, token: nat, now: int, more: seq<Op>, d: Draw)
    requires forall i :: 0 <= i < |more| ==> !DrawsHash(more[i], token)
    ensures var t := Run(ops); var reply := ReplyTo(Run(ops + [Logout(token, now)] + more), token, d);
            && (!HasHash(t, token) ==> reply == Invalid)
            && (forall k :: 0 <= k < |t| && t[k].hash == token ==>
                  var r := if t[k].Live() then t[k].(revokedAt := Some(now)) else t[k];
                  reply == if DoomedBy(more, r) then Invalid else Revoked)
  {
    var t, once := Run(ops), ops + [Logout(token, now)];
    RunKeepsInv(once + more);
    if !HasHash(t, token) {
      RunNext(ops, Logout(token, now));
      HashStaysAwayInRuns(once, more, token);
    }
    forall k | 0 <= k < |t| && t[k].hash == token
      ensures var r := if t[k].Live() then t[k].(revokedAt := Some(now)) else t[k];
              ReplyTo(Run(once + more), token, d) == if DoomedBy(more, r) then Invalid else Revoked
    {
      LogoutChangesOneRow(ops, token, now, k);
      var r := Run(once)[k];
      RevokedUntilDeleted(once, more, r);
      ReplyToRevoked(Run(once + more), r, d);
    }
  }

  // ---- How a live session ends -------------------------------------------------------------------

  /** This operation, on this table, ends this live session. */
  ghost predicate Ends(t: Table, op: Op, r: Session) {
    match op
    case Login(_, _, _, _) => false
    case Refresh(presented, d) =>
      && presented == r.hash
      && (r.expiresAt <= d.now || (d.userActive && !HasId(t, d.newId) && !HasHash(t, d.newHash)))
    case Logout(token, _) => token == r.hash
    case Cleanup(now) => r.expiresAt <= now
  }

  /** Some operation of this continuation of a run ends the session. */
  ghost predicate EndedBy(ops: seq<Op>, more: seq<Op>, r: Session) {
    && more != []
    && (EndedBy(ops, more[..|more| - 1], r) || Ends(Run(ops + more[..|more| - 1]), more[|more| - 1], r))
  }

  /** Every row with this token has been revoked. */
  ghost predicate Ended(t: Table, hash: nat) {
    forall k :: 0 <= k < |t| && t[k].hash == hash ==> !t[k].Live()
  }

  lemma LiveRow(t: Table, op: Op, i: nat)
    requires Inv(t) && i < |t| && t[i].Live() && !op.Cleanup?
    ensures i < |Apply(t, op)| && Apply(t, op)[i].hash == t[i].hash
    ensures if Ends(t, op, t[i]) then !Apply(t, op)[i].Live() else Apply(t, op)[i] == t[i]
  {
    if op.Refresh? {
      RefreshedRow(t, op.presented, op.draw, i);
    }
  }

  lemma OnlyRow(t: Table, i: nat, r: Session)
    requires UniqueKeys(t) && i < |t| && t[i].hash == r.hash
    ensures r in t <==> t[i] == r
    ensures Ended(t, r.hash) <==> !t[i].Live()
  {
  }

  lemma CleanedRow(t: Table, now: int, r: Session)
    requires UniqueKeys(t) && r in t && r.Live()
    ensures r in AfterCleanup(t, now) <==> now < r.expiresAt
    ensures Ended(AfterCleanup(t, now), r.hash) <==> r.expiresAt <= now
  {
    KeptMembers(t, (s: Session) => !Doomed(s, now));
    var u := AfterCleanup(t, now);
    assert forall k :: 0 <= k < |u| ==> u[k] in t;
  }

  lemma LiveStepwise(t: Table, op: Op, r: Session)
    requires Inv(t) && r in t && r.Live()
    ensures r in Apply(t, op) <==> !Ends(t, op, r)
    ensures Ends(t, op, r) <==> Ended(Apply(t, op), r.hash)
  {
    ApplyKeepsInv(t, op);
    if op.Cleanup? {
      CleanedRow(t, op.now, r);
    } else {
      var i :| 0 <= i < |t| && t[i] == r;
      LiveRow(t, op, i);
      OnlyRow(Apply(t, op), i, r);
    }
  }

  lemma EndedStepwise(t: Table, op: Op, hash: nat)
    requires Ended(t, hash) && !DrawsHash(op, hash)
    ensures Ended(Apply(t, op), hash)
  {
    if op.Cleanup? {
      KeptMembers(t, (s: Session) => !Doomed(s, op.now));
      assert forall k :: 0 <= k < |Apply(t, op)| ==> Apply(t, op)[k] in t;
    }
  }

  lemma LiveOrEndedNext(ops: seq<Op>, op: Op, r: Session, ended: bool)
    requires r.Live() && !DrawsHash(op, r.hash)
    requires (r in Run(ops) <==> !ended) && (ended <==> Ended(Run(ops), r.hash))
    ensures r in Run(ops + [op]) <==> !(ended || Ends(Run(ops), op, r))
    ensures ended || Ends(Run(ops), op, r) <==> Ended(Run(ops + [op]), r.hash)
  {
    RunNext(ops, op);
    RunKeepsInv(ops);
    if ended {
      EndedStepwise(Run(ops), op, r.hash);
      assert Ended(Apply(Run(ops), op), r.hash);
    } else {
      LiveStepwise(Run(ops), op, r);
    }
  }

  /** In every continuation of a run a live session stays in the table, unchanged, until the first
    * operation that ends it: a logout with its token, a refresh with its token that rotates it or comes
    * too late, or a clean-up after its expiry. After that its token never belongs to a live session,
    * unless it is drawn again. */
  lemma {:induction false} LiveUntilEnded(ops: seq<Op>, more: seq<Op>, r: Session)
    requires r in Run(ops) && r.Live()
    requires forall i :: 0 <= i < |more| ==> !DrawsHash(more[i], r.hash)
    ensures r in Run(ops + more) <==> !EndedBy(ops, more, r)
    ensures EndedBy(ops, more, r) <==> Ended(Run(ops + more), r.hash)
  {
    if more == [] {
      assert ops + more == ops;
    } else {
      var n := |more| - 1;
      LiveUntilEnded(ops, more[..n], r);
      assert ops + more == ops + more[..n] + [more[n]];
      LiveOrEndedNext(ops + more[..n], more[n], r, EndedBy(ops, more[..n], r));
    }
  }

  const FIRST := Session(1, 7, 1, 100, Some(5), Some(2))
  const SECOND := Session(2, 7, 2, 6, None, None)
  const LOGIN := Login(1, 7, 1, 100)
  const ROTATION := Refresh(1, Draw(5, 5, 2, 2, 6, true))

  lemma RotatedTable()
    ensures Run([LOGIN] + [ROTATION]) == [FIRST] + [SECOND]
  {
    RunNext([], LOGIN);
    assert [] + [LOGIN] == [LOGIN];
    var t := [Session(1, 7, 1, 100, None, None)];
    assert Run([LOGIN]) == t;
    RunNext([LOGIN], ROTATION);
    FoundByHash(t, 0);
    assert forall k :: 0 <= k < |t| ==> t[k] == t[0];
    RefreshedRow(t, 1, ROTATION.draw, 0);
    assert AfterRefresh(t, 1, ROTATION.draw) == [FIRST] + [SECOND];
  }

  /** Deletion shows: a rotated token is answered "revoked" after a clean-up that deletes only its shorter
    * lived replacement, to which its link then leads nowhere, and "invalid" once its own row is deleted. */
  lemma DeletionShows(d: Draw)
    ensures var run := Run([LOGIN] + [ROTATION] + [Cleanup(10)]); run == [FIRST] && ReplyTo(run, 1, d) == Revoked
    ensures ReplyTo(Run([LOGIN] + [ROTATION] + [Cleanup(10)] + [Cleanup(200)]), 1, d) == Invalid
  {
    RotatedTable();
    RunNext([LOGIN] + [ROTATION], Cleanup(10));
    KeptAppend([FIRST], SECOND, (s: Session) => !Doomed(s, 10));
    KeptAppend([], FIRST, (s: Session) => !Doomed(s, 10));
    assert [] + [FIRST] == [FIRST];
    RunNext([LOGIN] + [ROTATION] + [Cleanup(10)], Cleanup(200));
    KeptAppend([], FIRST, (s: Session) => !Doomed(s, 200));
  }

  // ---- Replacement chains ------------------------------------------------------------------------

  /** The row that row i was replaced by, if it was, and if that row is still there. */
  function Successor(t: Table, i: nat): (r: Option<nat>)
    requires Inv(t) && i < |t|
    ensures r.Some? ==> i < r.value < |t| && t[i].replacedBy == Some(t[r.value].id)
    ensures r.None? ==> forall k :: 0 <= k < |t| ==> t[i].replacedBy != Some(t[k].id)
  {
    if t[i].replacedBy.None? then None else RowById(t, t[i].replacedBy.value)
  }

  /** The session at the end of the replacement chain that starts at row i. The recursion is well
    * founded because every link leads to a younger row, so links never form a cycle. */
  function End(t: Table, i: nat): (e: nat)
    requires Inv(t) && i < |t|
    ensures i <= e < |t| && Successor(t, e).None?
    decreases |t| - i
  {
    var next := Successor(t, i);
    if next.None? then i else End(t, next.value)
  }

  /** The row that row k replaced, if any. */
  function Replaced(t: Table, k: nat, upTo: nat): (r: Option<nat>)
    requires k < |t| && upTo <= |t|
    ensures r.Some? ==> r.value < upTo && t[r.value].replacedBy == Some(t[k].id)
    ensures r.None? ==> forall i :: 0 <= i < upTo ==> t[i].replacedBy != Some(t[k].id)
  {
    if upTo == 0 then None
    else if t[upTo - 1].replacedBy == Some(t[k].id) then Some(upTo - 1)
    else Replaced(t, k, upTo - 1)
  }

  /** The oldest session still in the table that row k descends from. */
  function Origin(t: Table, k: nat): (o: nat)
    requires Inv(t) && k < |t|
    ensures o <= k
  {
    var r := Replaced(t, k, |t|);
    if r.None? then k else Origin(t, r.value)
  }

  lemma {:induction false} OriginSharesEnd(t: Table, k: nat)
    requires Inv(t) && k < |t|
    ensures Replaced(t, Origin(t, k), |t|).None?
    ensures End(t, Origin(t, k)) == End(t, k)
    decreases k
  {
    var r := Replaced(t, k, |t|);
    if r.Some? {
      assert Successor(t, r.value) == Some(k);
      OriginSharesEnd(t, r.value);
    }
  }

  // ---- Logins ------------------------------------------------------------------------------------

  /** Which login each row descends from, after one more operation, the n-th. */
  function LoginsAfter(t: Table, logins: seq<nat>, op: Op, n: nat): (r: seq<nat>)
    requires |logins| == |t|
    ensures |r| == |Apply(t, op)|
  {
    match op
    case Login(id, _, hash, _) => if Unused(t, id, hash) then logins + [n] else logins
    case Refresh(presented, d) =>
      if ReplyTo(t, presented, d).Rotated? then logins + [logins[RowByHash(t, presented).value]] else logins
    case Logout(_, _) => logins
    case Cleanup(now) =>
      var keep := (s: Session) => !Doomed(s, now);
      KeptRows(t, keep);
      var at := Positions(t, keep);
      seq(|at|, i requires 0 <= i < |at| => logins[at[i]])
  }

  /** For each row that a run leaves, the number of the login it descends from, through sessions that may
    * have been deleted since. */
  function Logins(ops: seq<Op>): (r: seq<nat>)
    ensures |r| == |Run(ops)|
  {
    if ops == [] then []
    else LoginsAfter(Run(ops[..|ops| - 1]), Logins(ops[..|ops| - 1]), ops[|ops| - 1], |ops| - 1)
  }

  /** Live sessions descend from different logins, all of them among the first n operations. */
  ghost predicate OneLive(t: Table, logins: seq<nat>, n: nat) {
    && |logins| == |t|
    && (forall i :: 0 <= i < |t| ==> logins[i] < n)
    && (forall i, j :: 0 <= i < j < |t| && t[i].Live() && t[j].Live() ==> logins[i] != logins[j])
  }

  lemma CleanupKeepsOneLive(t: Table, logins: seq<nat>, now: int, n: nat)
    requires OneLive(t, logins, n)
    ensures OneLive(AfterCleanup(t, now), LoginsAfter(t, logins, Cleanup(now), n), n)
  {
    KeptRows(t, (s: Session) => !Doomed(s, now));
  }

  lemma RotationKeepsOneLive(t: Table, logins: seq<nat>, presented: nat, d: Draw, n: nat)
    requires OneLive(t, logins, n) && ReplyTo(t, presented, d).Rotated?
    ensures OneLive(AfterRefresh(t, presented, d), logins + [logins[RowByHash(t, presented).value]], n)
  {
    var u := AfterRefresh(t, presented, d);
    var i := RowByHash(t, presented).value;
    assert |u| == |t| + 1 && !u[i].Live();
    assert forall k :: 0 <= k < |t| && k != i ==> u[k] == t[k];
  }

  lemma ApplyKeepsOneLive(t: Table, logins: seq<nat>, op: Op, n: nat)
    requires OneLive(t, logins, n)
    ensures OneLive(Apply(t, op), LoginsAfter(t, logins, op, n), n + 1)
  {
    if op.Cleanup? {
      CleanupKeepsOneLive(t, logins, op.now, n);
    } else if op.Refresh? && ReplyTo(t, op.presented, op.draw).Rotated? {
      RotationKeepsOneLive(t, logins, op.presented, op.draw, n);
    }
  }

  lemma {:induction false} RunKeepsOneLive(ops: seq<Op>)
    ensures OneLive(Run(ops), Logins(ops), |ops|)
  {
    if ops != [] {
      RunKeepsOneLive(ops[..|ops| - 1]);
      ApplyKeepsOneLive(Run(ops[..|ops| - 1]), Logins(ops[..|ops| - 1]), ops[|ops| - 1], |ops| - 1);
    }
  }

  /** In every run, the sessions descending from one login contain at most one live session. */
  lemma OneLiveSessionPerLogin(ops: seq<Op>, a: nat, b: nat)
    requires a < |Run(ops)| && b < |Run(ops)|
    requires Run(ops)[a].Live() && Run(ops)[b].Live()
    ensures Logins(ops)[a] == Logins(ops)[b] ==> a == b
  {
    RunKeepsOneLive(ops);
  }

  // ---- Links follow logins -----------------------------------------------------------------------

  /** The identifiers drawn for new sessions. */
  function Drawn(ops: seq<Op>): set<nat> {
    if ops == [] then {} else Drawn(ops[..|ops| - 1]) + DrawnBy(ops[|ops| - 1])
  }

  function DrawnBy(op: Op): set<nat> {
    if op.Login? then {op.id} else if op.Refresh? then {op.draw.newId} else {}
  }

  /** No random identifier is drawn twice. */
  predicate DrawsAreFresh(ops: seq<Op>) {
    ops == [] || (DrawsAreFresh(ops[..|ops| - 1]) && Drawn(ops[..|ops| - 1]) !! DrawnBy(ops[|ops| - 1]))
  }

  /** A link leads to a session of the same user and the same login, and no session replaces two. */
  ghost predicate LinksAreLineage(t: Table, logins: seq<nat>) {
    && |logins| == |t|
    && (forall i, k {:trigger t[i], t[k]} :: 0 <= i < |t| && 0 <= k < |t| && t[i].replacedBy == Some(t[k].id) ==>
          t[k].user == t[i].user && logins[k] == logins[i])
    && (forall i, j :: 0 <= i < j < |t| && t[i].replacedBy.Some? ==> t[i].replacedBy != t[j].replacedBy)
  }

  ghost predicate KeysAmong(t: Table, ids: set<nat>) {
    forall i :: 0 <= i < |t| ==> t[i].id in ids && (t[i].replacedBy.Some? ==> t[i].replacedBy.value in ids)
  }

  lemma CleanupKeepsLineage(t: Table, logins: seq<nat>, now: int, ids: set<nat>, n: nat)
    requires LinksAreLineage(t, logins) && KeysAmong(t, ids)
    ensures LinksAreLineage(AfterCleanup(t, now), LoginsAfter(t, logins, Cleanup(now), n))
    ensures KeysAmong(AfterCleanup(t, now), ids)
  {
    KeptRows(t, (s: Session) => !Doomed(s, now));
  }

  lemma RotationKeepsLineage(t: Table, logins: seq<nat>, presented: nat, d: Draw, ids: set<nat>)
    requires LinksAreLineage(t, logins) && KeysAmong(t, ids)
    requires ReplyTo(t, presented, d).Rotated? && d.newId !in ids
    ensures LinksAreLineage(AfterRefresh(t, presented, d), logins + [logins[RowByHash(t, presented).value]])
    ensures KeysAmong(AfterRefresh(t, presented, d), ids + {d.newId})
  {
    var u := AfterRefresh(t, presented, d);
    var i := RowByHash(t, presented).value;
    assert |u| == |t| + 1 && u[|t|].id == d.newId && u[|t|].user == t[i].user && u[|t|].replacedBy.None?;
    assert u[i].replacedBy == Some(d.newId) && u[i].id == t[i].id && u[i].user == t[i].user;
    assert forall k :: 0 <= k < |t| && k != i ==> u[k] == t[k];
  }

  lemma ApplyKeepsLineage(t: Table, logins: seq<nat>, op: Op, ids: set<nat>, n: nat)
    requires LinksAreLineage(t, logins) && KeysAmong(t, ids) && ids !! DrawnBy(op)
    ensures LinksAreLineage(Apply(t, op), LoginsAfter(t, logins, op, n)) && KeysAmong(Apply(t, op), ids + DrawnBy(op))
  {
    if op.Cleanup? {
      CleanupKeepsLineage(t, logins, op.now, ids, n);
    } else if op.Refresh? && ReplyTo(t, op.presented, op.draw).Rotated? {
      assert op.draw.newId in DrawnBy(op);
      RotationKeepsLineage(t, logins, op.presented, op.draw, ids);
    } else if op.Login? {
      assert op.id in DrawnBy(op);
    }
  }

  /** In every run that draws no identifier twice, a link leads to a younger session of the same user and
    * the same login or to a deleted one, and no session replaces two others. */
  lemma {:induction false} LinksFollowLogins(ops: seq<Op>)
    requires DrawsAreFresh(ops)
    ensures LinksForward(Run(ops)) && LinksAreLineage(Run(ops), Logins(ops)) && KeysAmong(Run(ops), Drawn(ops))
  {
    RunKeepsInv(ops);
    if ops != [] {
      var shorter := ops[..|ops| - 1];
      LinksFollowLogins(shorter);
      ApplyKeepsLineage(Run(shorter), Logins(shorter), ops[|ops| - 1], Drawn(shorter), |ops| - 1);
    }
  }

  // ---- The repository and the service, as the code changes them ----------------------------------

  class AuthRepository {
    var sessions: Table

    constructor ()
      ensures sessions == []
    {
      sessions := [];
    }

    method CreateSession(id: nat, user: nat, hash: nat, expiresAt: int) returns (ok: bool)
      modifies this
      ensures ok <==> !HasId(old(sessions), id) && !HasHash(old(sessions), hash)
      ensures sessions == AfterLogin(old(sessions), id, user, hash, expiresAt)
      ensures sessions == old(sessions) + if ok then [Session(id, user, hash, expiresAt, None, None)] else []
    {
      ok := RowById(sessions, id).None? && RowByHash(sessions, hash).None?;
      if ok {
        sessions := sessions + [Session(id, user, hash, expiresAt, None, None)];
      }
    }

    method RevokeSession(row: nat, now: int, replacedBy: Option<nat>)
      requires row < |sessions|
      modifies this
      ensures |sessions| == |old(sessions)|
      ensures sessions[row] == old(sessions)[row].(revokedAt := Some(now), replacedBy := replacedBy)
      ensures forall k :: 0 <= k < |sessions| && k != row ==> sessions[k] == old(sessions)[k]
    {
      var session := sessions[row];
      session := session.(revokedAt := Some(now));
      session := session.(replacedBy := replacedBy);
      sessions := sessions[row := session];
    }

    /** The refresh endpoint. */
    method Refresh(presented: nat, d: Draw) returns (reply: Reply)
      modifies this
      ensures reply == ReplyTo(old(sessions), presented, d)
      ensures sessions == AfterRefresh(old(sessions), presented, d)
    {
      var found := RowByHash(sessions, presented);
      if found.None? {
        return Invalid;
      }
      var row := found.value;
      if sessions[row].revokedAt.Some? {
        return Revoked;
      }
      if sessions[row].expiresAt <= d.now {
        RevokeSession(row, d.revokedAt, None);
        assert sessions == WithRevoked(old(sessions), row, d.revokedAt, None);
        return Expired;
      }
      if !d.userActive {
        return UserUnavailable;
      }
      var created := CreateSession(d.newId, sessions[row].user, d.newHash, d.newExpiresAt);
      if !created {
        return Conflict;
      }
      ghost var grown := sessions;
      RevokeSession(row, d.revokedAt, Some(d.newId));
      assert sessions == WithRevoked(grown, row, d.revokedAt, Some(d.newId));
      reply := Rotated(d.newId, d.newHash);
    }

    /** The logout endpoint: the session of the token, if there is a live one, ends now. */
    method Logout(token: nat, now: int)
      modifies this
      ensures sessions == AfterLogout(old(sessions), token, now)
      ensures |sessions| == |old(sessions)|
      ensures forall k :: 0 <= k < |sessions| && old(sessions)[k].hash != token ==> sessions[k] == old(sessions)[k]
      ensures UniqueKeys(old(sessions)) ==>
                forall k {:trigger old(sessions)[k]} :: 0 <= k < |sessions| && old(sessions)[k].hash == token ==>
                  var was := old(sessions)[k];
                  sessions[k] == if was.Live() then was.(revokedAt := Some(now), replacedBy := None) else was
    {
      var found := RowByHash(sessions, token);
      if found.None? {
        return;
      }
      if sessions[found.value].revokedAt.None? {
        RevokeSession(found.value, now, None);
        assert sessions == WithRevoked(old(sessions), found.value, now, None);
      }
    }

    /** The bulk delete of the clean-up job, row by row: what has not expired stays, unless it was revoked a week
      * ago or earlier. */
    method CleanupAuth(now: int) returns (deleted: nat)
      modifies this
      ensures sessions == AfterCleanup(old(sessions), now)
      ensures forall r :: r in sessions <==>
                && r in old(sessions) && now < r.expiresAt
                && (r.revokedAt.Some? ==> now - 604_800_000_000 < r.revokedAt.value)
      ensures deleted == |old(sessions)| - |sessions|
    {
      var before := sessions;
      var keep := (r: Session) => !Doomed(r, now);
      sessions := [];
      deleted := 0;
      for i := 0 to |before|
        invariant sessions == Kept(before[..i], keep)
        invariant deleted == i - |sessions|
      {
        KeptNext(before, i, keep);
        var r := before[i];
        if r.expiresAt <= now || (r.revokedAt.Some? && r.revokedAt.value <= now - REVOKED_KEPT) {
          deleted := deleted + 1;
        } else {
          sessions := sessions + [r];
        }
      }
      assert before[..|before|] == before;
      KeptMembers(before, keep);
    }
  }
}
