/** The repository and the code check as the code changes the table, proved against OtpChallenges. */
module OtpRepository {
  import opened Wrappers
  import opened Deletion
  import opened OtpChallenges

  class Repository {
    var rows: Rows

    constructor ()
      ensures rows == []
    {
      rows := [];
    }

    /** The bulk update of `invalidate_open_otps`, row by row. */
    method InvalidateOpenOtps(phone: string, now: int)
      modifies this
      ensures rows == Invalidated(old(rows), phone, now)
    {
      var before := rows;
      for i := 0 to |before|
        invariant |rows| == |before|
        invariant forall k :: i <= k < |before| ==> rows[k] == before[k]
        invariant rows[..i] == Invalidated(before[..i], phone, now)
      {
        assert before[..i + 1][..i] == before[..i];
        if rows[i].OpenFor(phone) {
          rows := rows[i := rows[i].(consumedAt := Some(now))];
        }
        assert rows[..i + 1] == rows[..i] + [rows[i]];
      }
      assert before[..|before|] == before && rows[..|before|] == rows;
    }

    method CreateOtp(id: nat, phone: string, code: nat, expiresAt: int, invalidatedAt: int, createdAt: int)
      modifies this
      ensures rows == Created(old(rows), id, phone, code, expiresAt, invalidatedAt, createdAt)
    {
      var savepoint := rows;
      InvalidateOpenOtps(phone, invalidatedAt);
      if RowById(savepoint, id).Some? {
        rows := savepoint;
        return;
      }
      rows := rows + [Otp(id, phone, code, expiresAt, 0, None, createdAt)];
    }

    /** The query of `latest_open_otp`. Any row the database may pick satisfies the second clause. */
    method LatestOpenOtp(phone: string) returns (r: Option<nat>)
      ensures r == LatestOpen(rows, phone)
      ensures r.Some? ==> IsLatestOpen(rows, phone, r.value)
    {
      r := None;
      for i := 0 to |rows|
        invariant r == LatestOpen(rows[..i], phone)
      {
        assert rows[..i + 1][..i] == rows[..i];
        if rows[i].OpenFor(phone) && (r.None? || rows[r.value].createdAt < rows[i].createdAt) {
          r := Some(i);
        }
      }
      assert rows[..|rows|] == rows;
    }

    method ConsumeOtp(row: nat, now: int)
      requires row < |rows|
      modifies this
      ensures rows == Consumed(old(rows), row, now)
      ensures forall b :: Refines(old(rows), b) ==> Refines(rows, Without(b, old(rows)[row].id))
    {
      forall b | Refines(rows, b) ensures Refines(Consumed(rows, row, now), Without(b, rows[row].id)) {
        ConsumeRefines(rows, b, row, now);
      }
      rows := rows[row := rows[row].(consumedAt := Some(now))];
    }

    /** The code check of `verify_otp`, up to the point where the user is looked up. */
    method VerifyOtp(phone: string, code: nat, now: int, consumedAt: int, maxAttempts: nat) returns (verdict: Verdict)
      modifies this
      ensures verdict == VerdictOn(old(rows), phone, code, now, maxAttempts)
      ensures rows == Verified(old(rows), phone, code, now, consumedAt, maxAttempts)
    {
      var challenge := LatestOpenOtp(phone);
      if challenge.None? {
        return Missing;
      }
      var i := challenge.value;
      if rows[i].expiresAt <= now {
        ConsumeOtp(i, consumedAt);
        return Expired(rows[i].id);
      }
      rows := rows[i := rows[i].(attempts := rows[i].attempts + 1)];
      if rows[i].attempts > maxAttempts {
        ConsumeOtp(i, consumedAt);
        return TooMany(rows[i].id);
      }
      if code != rows[i].code {
        return Wrong(rows[i].id);
      }
      ConsumeOtp(i, consumedAt);
      verdict := LoggedIn(rows[i].id);
    }

    /** The bulk delete of the clean-up job, row by row. */
    method CleanupAuth(now: int) returns (deleted: nat)
      modifies this
      ensures rows == CleanedUp(old(rows), now)
      ensures forall r :: r in rows <==> r in old(rows) && now < r.expiresAt
      ensures deleted == |old(rows)| - |rows|
    {
      var before := rows;
      var keep := (r: Otp) => r.expiresAt > now;
      rows := [];
      deleted := 0;
      for i := 0 to |before|
        invariant rows == Kept(before[..i], keep)
        invariant deleted == i - |rows|
      {
        KeptNext(before, i, keep);
        if before[i].expiresAt <= now {
          deleted := deleted + 1;
        } else {
          rows := rows + [before[i]];
        }
      }
      assert before[..|before|] == before;
      KeptMembers(before, keep);
    }
  }
}
