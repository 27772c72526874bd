/** One-time codes: the `otp_challenges` table, the repository calls that change it, the code check of the
  * login service, and the scheduled clean-up. Codes are compared through their keyed hash, so a code and
  * its hash are one identifier here. */
module OtpChallenges {
  import opened Wrappers
  import opened Deletion

  datatype Otp = Otp(
    id: nat,
    phone: string,
    code: nat,
    expiresAt: int,
    attempts: nat,
    consumedAt: Option<int>,
    createdAt: int
  ) {
    predicate Open() { consumedAt.None? }

    predicate OpenFor(p: string) { Open() && phone == p }
  }

  type Rows = seq<Otp>

  datatype Verdict =
    | Missing
    | Expired(id: nat)
    | TooMany(id: nat)
    | Wrong(id: nat)
    | LoggedIn(id: nat)

  /** Every clock reading is an input of its own: nothing is assumed about the order of times. */
  datatype Op =
    | Create(id: nat, phone: string, code: nat, expiresAt: int, invalidatedAt: int, createdAt: int)
    | Invalidate(phone: string, now: int)
    | Consume(id: nat, now: int)
    | Verify(phone: string, code: nat, now: int, consumedAt: int)
    | Cleanup(now: int)

  // ---- Queries -----------------------------------------------------------------------------------

  function RowById(rows: Rows, id: nat): (r: Option<nat>)
    ensures r.Some? ==> r.value < |rows| && rows[r.value].id == id
    ensures r.None? ==> forall k :: 0 <= k < |rows| ==> rows[k].id != id
  {
    if rows == [] then None
    else if rows[|rows| - 1].id == id then Some(|rows| - 1)
    else RowById(rows[..|rows| - 1], id)
  }

  /** Any row the ordered, limited query may answer with; ties in `created_at` leave it a choice. */
  ghost predicate IsLatestOpen(rows: Rows, phone: string, i: nat) {
    && i < |rows| && rows[i].OpenFor(phone)
    && forall k :: 0 <= k < |rows| && rows[k].OpenFor(phone) ==> rows[k].createdAt <= rows[i].createdAt
  }

  function LatestOpen(rows: Rows, phone: string): (r: Option<nat>)
    ensures r.Some? ==> IsLatestOpen(rows, phone, r.value)
    ensures r.None? ==> forall k :: 0 <= k < |rows| ==> !rows[k].OpenFor(phone)
  {
    if rows == [] then None
    else
      var last := |rows| - 1;
      var best := LatestOpen(rows[..last], phone);
      if rows[last].OpenFor(phone) && (best.None? || rows[best.value].createdAt < rows[last].createdAt)
      then Some(last) else best
  }

  // ---- Changes -----------------------------------------------------------------------------------

  function Invalidated(rows: Rows, phone: string, now: int): (after: Rows)
    ensures |after| == |rows|
    ensures forall i :: 0 <= i < |rows| ==>
              after[i] == if rows[i].OpenFor(phone) then rows[i].(consumedAt := Some(now)) else rows[i]
  {
    if rows == [] then []
    else
      var last := rows[|rows| - 1];
      Invalidated(rows[..|rows| - 1], phone, now)
      + [if last.OpenFor(phone) then last.(consumedAt := Some(now)) else last]
  }

  /** Creating a challenge closes the open ones of the phone first. A key clash aborts both changes. */
  function Created(rows: Rows, id: nat, phone: string, code: nat, expiresAt: int, invalidatedAt: int,
                   createdAt: int): Rows {
    if RowById(rows, id).Some? then rows
    else Invalidated(rows, phone, invalidatedAt) + [Otp(id, phone, code, expiresAt, 0, None, createdAt)]
  }

  function Consumed(rows: Rows, i: nat, now: int): Rows
    requires i < |rows|
  {
    rows[i := rows[i].(consumedAt := Some(now))]
  }

  function Tried(rows: Rows, i: nat): Rows
    requires i < |rows|
  {
    rows[i := rows[i].(attempts := rows[i].attempts + 1)]
  }

  function ConsumedById(rows: Rows, id: nat, now: int): Rows {
    var r := RowById(rows, id);
    if r.None? then rows else Consumed(rows, r.value, now)
  }

  function VerdictOn(rows: Rows, phone: string, code: nat, now: int, maxAttempts: nat): Verdict {
    var r := LatestOpen(rows, phone);
    if r.None? then Missing
    else
      var c := rows[r.value];
      if c.expiresAt <= now then Expired(c.id)
      else if c.attempts + 1 > maxAttempts then TooMany(c.id)
      else if code != c.code then Wrong(c.id)
      else LoggedIn(c.id)
  }

  function Verified(rows: Rows, phone: string, code: nat, now: int, consumedAt: int, maxAttempts: nat): Rows {
    var r := LatestOpen(rows, phone);
    match VerdictOn(rows, phone, code, now, maxAttempts)
    case Missing => rows
    case Expired(_) => Consumed(rows, r.value, consumedAt)
    case Wrong(_) => Tried(rows, r.value)
    case _ => Consumed(Tried(rows, r.value), r.value, consumedAt)
  }

  /** The clean-up deletes every challenge that has expired, used up or not. */
  function CleanedUp(rows: Rows, now: int): Rows {
    Kept(rows, (r: Otp) => r.expiresAt > now)
  }

  function Apply(rows: Rows, op: Op, maxAttempts: nat): Rows {
    match op
    case Cleanup(now) => CleanedUp(rows, now)
    case Create(id, phone, code, expiresAt, invalidatedAt, createdAt) =>
      Created(rows, id, phone, code, expiresAt, invalidatedAt, createdAt)
    case Invalidate(phone, now) => Invalidated(rows, phone, now)
    case Consume(id, now) => ConsumedById(rows, id, now)
    case Verify(phone, code, now, consumedAt) => Verified(rows, phone, code, now, consumedAt, maxAttempts)
  }

  function Run(ops: seq<Op>, maxAttempts: nat): Rows {
    if ops == [] then [] else Apply(Run(ops[..|ops| - 1], maxAttempts), ops[|ops| - 1], maxAttempts)
  }

  // ---- The simple form: one challenge per phone ----------------------------------------------------

  datatype Challenge = Challenge(id: nat, code: nat, expiresAt: int, attempts: nat)

  /** What the login service needs to remember: for each phone the challenge created last, until it is
    * used up or cleaned up; and which identifiers are taken, until when. */
  datatype Book = Book(open: map<string, Challenge>, taken: map<nat, int>)

  function BookVerdict(b: Book, phone: string, code: nat, now: int, maxAttempts: nat): Verdict {
    if phone !in b.open then Missing
    else
      var c := b.open[phone];
      if c.expiresAt <= now then Expired(c.id)
      else if c.attempts >= maxAttempts then TooMany(c.id)
      else if code == c.code then LoggedIn(c.id)
      else Wrong(c.id)
  }

  function Unexpired(b: Book, now: int): Book {
    Book(map p | p in b.open && b.open[p].expiresAt > now :: b.open[p],
         map id | id in b.taken && b.taken[id] > now :: b.taken[id])
  }

  function BookApply(b: Book, op: Op, maxAttempts: nat): Book {
    match op
    case Create(id, phone, code, expiresAt, _, _) =>
      if id in b.taken then b
      else Book(b.open[phone := Challenge(id, code, expiresAt, 0)], b.taken[id := expiresAt])
    case Invalidate(phone, _) => b.(open := b.open - {phone})
    case Consume(id, _) => b.(open := map p | p in b.open && b.open[p].id != id :: b.open[p])
    case Cleanup(now) => Unexpired(b, now)
    case Verify(phone, code, now, _) =>
      match BookVerdict(b, phone, code, now, maxAttempts)
      case Missing => b
      case Wrong(_) => b.(open := b.open[phone := b.open[phone].(attempts := b.open[phone].attempts + 1)])
      case _ => b.(open := b.open - {phone})
  }

  function BookRun(ops: seq<Op>, maxAttempts: nat): Book {
    if ops == [] then Book(map[], map[])
    else BookApply(BookRun(ops[..|ops| - 1], maxAttempts), ops[|ops| - 1], maxAttempts)
  }

  // ---- The table refines the book ------------------------------------------------------------------

  function Summary(r: Otp): Challenge {
    Challenge(r.id, r.code, r.expiresAt, r.attempts)
  }

  ghost predicate HasOpen(rows: Rows, phone: string) {
    exists i :: 0 <= i < |rows| && rows[i].OpenFor(phone)
  }

  ghost predicate HasId(rows: Rows, id: nat) {
    exists i :: 0 <= i < |rows| && rows[i].id == id
  }

  ghost predicate OneOpenPerPhone(rows: Rows) {
    forall i, j :: 0 <= i < j < |rows| && rows[i].Open() && rows[j].Open() ==> rows[i].phone != rows[j].phone
  }

  ghost predicate Refines(rows: Rows, b: Book) {
    && (forall i, j :: 0 <= i < j < |rows| ==> rows[i].id != rows[j].id)
    && OneOpenPerPhone(rows)
    && (forall i :: 0 <= i < |rows| && rows[i].Open() ==>
          rows[i].phone in b.open && b.open[rows[i].phone] == Summary(rows[i]))
    && (forall p {:trigger HasOpen(rows, p)} :: p in b.open ==> HasOpen(rows, p))
    && (forall i :: 0 <= i < |rows| ==> rows[i].id in b.taken && b.taken[rows[i].id] == rows[i].expiresAt)
    && (forall id {:trigger HasId(rows, id)} :: id in b.taken ==> HasId(rows, id))
  }

  lemma OpenElsewhere(rows: Rows, after: Rows, phone: string)
    requires HasOpen(rows, phone) && |rows| <= |after|
    requires forall k :: 0 <= k < |rows| && rows[k].OpenFor(phone) ==> after[k].OpenFor(phone)
    ensures HasOpen(after, phone)
  {
    var i :| 0 <= i < |rows| && rows[i].OpenFor(phone);
    assert after[i].OpenFor(phone);
  }

  lemma KeysStay(rows: Rows, after: Rows, b: Book)
    requires Refines(rows, b) && |rows| <= |after|
    requires forall k :: 0 <= k < |rows| ==> after[k].id == rows[k].id
    ensures forall id {:trigger HasId(after, id)} :: id in b.taken ==> HasId(after, id)
  {
    forall id | id in b.taken ensures HasId(after, id) {
      assert HasId(rows, id);
      var i :| 0 <= i < |rows| && rows[i].id == id;
      assert after[i].id == id;
    }
  }

  lemma InvalidatedRefines(rows: Rows, b: Book, phone: string, now: int)
    requires Refines(rows, b)
    ensures Refines(Invalidated(rows, phone, now), b.(open := b.open - {phone}))
  {
    var after := Invalidated(rows, phone, now);
    forall p | p in b.open && p != phone ensures HasOpen(after, p) {
      assert HasOpen(rows, p);
      OpenElsewhere(rows, after, p);
    }
    KeysStay(rows, after, b);
  }

  /** A new challenge for a phone that has none. */
  lemma AppendRefines(rows: Rows, b: Book, r: Otp)
    requires Refines(rows, b) && r.Open() && r.id !in b.taken && r.phone !in b.open
    ensures Refines(rows + [r], Book(b.open[r.phone := Summary(r)], b.taken[r.id := r.expiresAt]))
  {
    var after := rows + [r];
    assert after[|rows|].OpenFor(r.phone) && after[|rows|].id == r.id;
    forall p | p in b.open ensures HasOpen(after, p) {
      assert HasOpen(rows, p);
      OpenElsewhere(rows, after, p);
    }
    KeysStay(rows, after, b);
  }

  lemma CreateRefines(rows: Rows, b: Book, op: Op, maxAttempts: nat)
    requires Refines(rows, b) && op.Create?
    ensures Refines(Apply(rows, op, maxAttempts), BookApply(b, op, maxAttempts))
  {
    if RowById(rows, op.id).None? {
      assert !HasId(rows, op.id);
      InvalidatedRefines(rows, b, op.phone, op.invalidatedAt);
      AppendRefines(Invalidated(rows, op.phone, op.invalidatedAt), b.(open := b.open - {op.phone}),
                    Otp(op.id, op.phone, op.code, op.expiresAt, 0, None, op.createdAt));
      assert (b.open - {op.phone})[op.phone := Challenge(op.id, op.code, op.expiresAt, 0)]
          == b.open[op.phone := Challenge(op.id, op.code, op.expiresAt, 0)];
    } else {
      assert rows[RowById(rows, op.id).value].id == op.id;
    }
  }

  function Without(b: Book, id: nat): Book {
    b.(open := map p | p in b.open && b.open[p].id != id :: b.open[p])
  }

  /** Closing row i takes its challenge out of the book, if it was there. */
  lemma ConsumeRefines(rows: Rows, b: Book, i: nat, now: int)
    requires Refines(rows, b) && i < |rows|
    ensures Refines(Consumed(rows, i, now), Without(b, rows[i].id))
  {
    var after := Consumed(rows, i, now);
    var c := Without(b, rows[i].id);
    forall p | p in c.open ensures HasOpen(after, p) {
      assert HasOpen(rows, p);
      OpenElsewhere(rows, after, p);
    }
    forall k | 0 <= k < |after| && after[k].Open()
      ensures after[k].phone in c.open && c.open[after[k].phone] == Summary(after[k])
    {
      assert k != i && after[k] == rows[k];
      assert rows[k].id != rows[i].id;
    }
    KeysStay(rows, after, b);
  }

  function BookTried(b: Book, phone: string): Book
    requires phone in b.open
  {
    b.(open := b.open[phone := b.open[phone].(attempts := b.open[phone].attempts + 1)])
  }

  /** Counting an attempt on the open row of a phone. */
  lemma AttemptRefines(rows: Rows, b: Book, i: nat)
    requires Refines(rows, b) && i < |rows| && rows[i].Open()
    ensures Refines(Tried(rows, i), BookTried(b, rows[i].phone))
  {
    var after := Tried(rows, i);
    forall p | p in b.open ensures HasOpen(after, p) {
      assert HasOpen(rows, p);
      OpenElsewhere(rows, after, p);
    }
    KeysStay(rows, after, b);
  }

  /** The scan and the map agree, whatever the order of the `created_at` values. */
  lemma ScanIsLookup(rows: Rows, b: Book, phone: string)
    requires Refines(rows, b)
    ensures LatestOpen(rows, phone).Some? <==> phone in b.open
    ensures forall i: nat :: IsLatestOpen(rows, phone, i) ==> phone in b.open && b.open[phone] == Summary(rows[i])
    ensures forall i: nat, j: nat :: IsLatestOpen(rows, phone, i) && IsLatestOpen(rows, phone, j) ==> i == j
  {
    if phone in b.open {
      assert HasOpen(rows, phone);
    }
  }

  /** Taking the challenge of one open row out of the book is removing its phone. */
  lemma RemoveByIdIsByPhone(rows: Rows, b: Book, i: nat)
    requires Refines(rows, b) && i < |rows| && rows[i].Open()
    ensures Without(b, rows[i].id).open == b.open - {rows[i].phone}
  {
    forall p | p in b.open && p != rows[i].phone ensures b.open[p].id != rows[i].id {
      assert HasOpen(rows, p);
      var k :| 0 <= k < |rows| && rows[k].OpenFor(p);
      assert k != i;
    }
  }

  /** Using up the challenge of open row i. */
  lemma UseUpRefines(rows: Rows, b: Book, i: nat, now: int)
    requires Refines(rows, b) && i < |rows| && rows[i].Open()
    ensures Refines(Consumed(rows, i, now), b.(open := b.open - {rows[i].phone}))
  {
    ConsumeRefines(rows, b, i, now);
    RemoveByIdIsByPhone(rows, b, i);
  }

  lemma VerifyRefines(rows: Rows, b: Book, op: Op, maxAttempts: nat)
    requires Refines(rows, b) && op.Verify?
    ensures VerdictOn(rows, op.phone, op.code, op.now, maxAttempts)
            == BookVerdict(b, op.phone, op.code, op.now, maxAttempts)
    ensures Refines(Apply(rows, op, maxAttempts), BookApply(b, op, maxAttempts))
  {
    ScanIsLookup(rows, b, op.phone);
    var r := LatestOpen(rows, op.phone);
    if r.Some? {
      var i := r.value;
      assert IsLatestOpen(rows, op.phone, i);
      var verdict := VerdictOn(rows, op.phone, op.code, op.now, maxAttempts);
      if verdict.Expired? {
        UseUpRefines(rows, b, i, op.consumedAt);
      } else {
        AttemptRefines(rows, b, i);
        if !verdict.Wrong? {
          UseUpRefines(Tried(rows, i), BookTried(b, op.phone), i, op.consumedAt);
          assert BookTried(b, op.phone).open - {op.phone} == b.open - {op.phone};
        }
      }
    }
  }

  lemma CleanupKeepsOpen(rows: Rows, now: int, phone: string)
    requires HasOpen(rows, phone)
    requires forall k :: 0 <= k < |rows| && rows[k].OpenFor(phone) ==> rows[k].expiresAt > now
    ensures HasOpen(CleanedUp(rows, now), phone)
  {
    var keep := (r: Otp) => r.expiresAt > now;
    KeptRows(rows, keep);
    var at := Positions(rows, keep);
    var k :| 0 <= k < |rows| && rows[k].OpenFor(phone);
    var i :| 0 <= i < |at| && at[i] == k;
    assert CleanedUp(rows, now) == Kept(rows, keep) && Kept(rows, keep)[i].OpenFor(phone);
  }

  lemma CleanupKeepsId(rows: Rows, now: int, id: nat)
    requires HasId(rows, id)
    requires forall k :: 0 <= k < |rows| && rows[k].id == id ==> rows[k].expiresAt > now
    ensures HasId(CleanedUp(rows, now), id)
  {
    var keep := (r: Otp) => r.expiresAt > now;
    KeptRows(rows, keep);
    var at := Positions(rows, keep);
    var k :| 0 <= k < |rows| && rows[k].id == id;
    var i :| 0 <= i < |at| && at[i] == k;
    assert CleanedUp(rows, now) == Kept(rows, keep) && Kept(rows, keep)[i].id == id;
  }

  /** Deleting rows keeps everything that is said about single rows and about pairs of rows. */
  lemma CleanupKeepsRows(rows: Rows, now: int)
    ensures var after := CleanedUp(rows, now);
            && (forall i :: 0 <= i < |after| ==> after[i] in rows && after[i].expiresAt > now)
            && ((forall i, j :: 0 <= i < j < |rows| ==> rows[i].id != rows[j].id) ==>
                  forall i, j :: 0 <= i < j < |after| ==> after[i].id != after[j].id)
            && (OneOpenPerPhone(rows) ==> OneOpenPerPhone(after))
  {
    KeptRows(rows, (r: Otp) => r.expiresAt > now);
  }

  lemma CleanupRefines(rows: Rows, b: Book, now: int)
    requires Refines(rows, b)
    ensures Refines(CleanedUp(rows, now), Unexpired(b, now))
  {
    var after, c := CleanedUp(rows, now), Unexpired(b, now);
    CleanupKeepsRows(rows, now);
    forall p | p in c.open ensures HasOpen(after, p) {
      assert HasOpen(rows, p);
      CleanupKeepsOpen(rows, now, p);
    }
    forall id | id in c.taken ensures HasId(after, id) {
      assert HasId(rows, id);
      CleanupKeepsId(rows, now, id);
    }
  }

  lemma ApplyRefines(rows: Rows, b: Book, op: Op, maxAttempts: nat)
    requires Refines(rows, b)
    ensures Refines(Apply(rows, op, maxAttempts), BookApply(b, op, maxAttempts))
  {
    match op
    case Create(_, _, _, _, _, _) => CreateRefines(rows, b, op, maxAttempts);
    case Invalidate(_, _) => InvalidatedRefines(rows, b, op.phone, op.now);
    case Verify(_, _, _, _) => VerifyRefines(rows, b, op, maxAttempts);
    case Cleanup(now) => CleanupRefines(rows, b, now);
    case Consume(id, now) =>
      var r := RowById(rows, id);
      if r.Some? {
        ConsumeRefines(rows, b, r.value, now);
      } else {
        forall p | p in b.open ensures b.open[p].id != id {
          assert HasOpen(rows, p);
          var k :| 0 <= k < |rows| && rows[k].OpenFor(p);
        }
        assert BookApply(b, op, maxAttempts).open == b.open;
      }
  }

  lemma {:induction false} RunRefines(ops: seq<Op>, maxAttempts: nat)
    ensures Refines(Run(ops, maxAttempts), BookRun(ops, maxAttempts))
  {
    if ops != [] {
      var shorter := ops[..|ops| - 1];
      RunRefines(shorter, maxAttempts);
      ApplyRefines(Run(shorter, maxAttempts), BookRun(shorter, maxAttempts), ops[|ops| - 1], maxAttempts);
    }
  }

  // ---- What every run promises ---------------------------------------------------------------------

  /** In every run each phone has at most one open challenge, and the "latest open" query answers with
    * the challenge the book holds for the phone: the last one created, unless it has been used up or
    * cleaned up since. */
  lemma LatestOpenIsTheBook(ops: seq<Op>, maxAttempts: nat, phone: string)
    ensures var rows := Run(ops, maxAttempts); var b := BookRun(ops, maxAttempts);
            && (forall i, j :: 0 <= i < |rows| && 0 <= j < |rows| ==>
                  rows[i].OpenFor(phone) && rows[j].OpenFor(phone) ==> i == j)
            && (LatestOpen(rows, phone).Some? <==> phone in b.open)
            && (forall i: nat :: IsLatestOpen(rows, phone, i) ==> phone in b.open && b.open[phone] == Summary(rows[i]))
  {
    RunRefines(ops, maxAttempts);
    ScanIsLookup(Run(ops, maxAttempts), BookRun(ops, maxAttempts), phone);
  }

  /** After every run, checking a code gives the verdict the book gives. */
  lemma VerdictIsTheBooks(ops: seq<Op>, maxAttempts: nat, phone: string, code: nat, now: int)
    ensures VerdictOn(Run(ops, maxAttempts), phone, code, now, maxAttempts)
            == BookVerdict(BookRun(ops, maxAttempts), phone, code, now, maxAttempts)
  {
    RunRefines(ops, maxAttempts);
    VerifyRefines(Run(ops, maxAttempts), BookRun(ops, maxAttempts), Verify(phone, code, now, now), maxAttempts);
  }

  /** The verdict on a code after every run, read off the phone's open row, which is the only one. */
  lemma VerdictOnTheOpenRow(ops: seq<Op>, maxAttempts: nat, phone: string, code: nat, now: int, k: nat)
    ensures var rows := Run(ops, maxAttempts); var verdict := VerdictOn(rows, phone, code, now, maxAttempts);
            && (verdict == Missing <==> !HasOpen(rows, phone))
            && (k < |rows| && rows[k].OpenFor(phone) ==>
                  var r := rows[k];
                  && (verdict == Expired(r.id) <==> r.expiresAt <= now)
                  && (verdict == TooMany(r.id) <==> now < r.expiresAt && maxAttempts <= r.attempts)
                  && (verdict == Wrong(r.id) <==> now < r.expiresAt && r.attempts < maxAttempts && code != r.code)
                  && (verdict == LoggedIn(r.id) <==> now < r.expiresAt && r.attempts < maxAttempts && code == r.code))
  {
    RunRefines(ops, maxAttempts);
    var rows := Run(ops, maxAttempts);
    if k < |rows| && rows[k].OpenFor(phone) {
      OpenRowIsFound(rows, phone, k);
    }
    assert HasOpen(rows, phone) <==> LatestOpen(rows, phone).Some?;
  }

  lemma OpenRowIsFound(rows: Rows, phone: string, k: nat)
    requires OneOpenPerPhone(rows) && k < |rows| && rows[k].OpenFor(phone)
    ensures LatestOpen(rows, phone) == Some(k)
  {
  }

  /** What an operation makes of one row. */
  function RowAfter(r: Otp, op: Op, idTaken: bool, maxAttempts: nat): Otp {
    match op
    case Create(_, phone, _, _, invalidatedAt, _) =>
      if r.OpenFor(phone) && !idTaken then r.(consumedAt := Some(invalidatedAt)) else r
    case Invalidate(phone, now) => if r.OpenFor(phone) then r.(consumedAt := Some(now)) else r
    case Consume(id, now) => if r.id == id then r.(consumedAt := Some(now)) else r
    case Verify(phone, code, now, consumedAt) =>
      if !r.OpenFor(phone) then r
      else if r.expiresAt <= now then r.(consumedAt := Some(consumedAt))
      else if r.attempts < maxAttempts && code != r.code then r.(attempts := r.attempts + 1)
      else r.(attempts := r.attempts + 1, consumedAt := Some(consumedAt))
    case Cleanup(_) => r
  }

  lemma VerifiedRow(rows: Rows, op: Op, maxAttempts: nat, k: nat)
    requires OneOpenPerPhone(rows) && k < |rows| && op.Verify?
    ensures |Apply(rows, op, maxAttempts)| == |rows|
    ensures Apply(rows, op, maxAttempts)[k] == RowAfter(rows[k], op, false, maxAttempts)
  {
    if rows[k].OpenFor(op.phone) {
      OpenRowIsFound(rows, op.phone, k);
    }
  }

  lemma ConsumedRow(rows: Rows, id: nat, now: int, k: nat)
    requires k < |rows| && forall i, j :: 0 <= i < j < |rows| ==> rows[i].id != rows[j].id
    ensures |ConsumedById(rows, id, now)| == |rows|
    ensures ConsumedById(rows, id, now)[k] == if rows[k].id == id then rows[k].(consumedAt := Some(now)) else rows[k]
  {
  }

  /** In every run each operation but the clean-up works row by row, with no regard to the order of the
    * rows, and only a creation under a free identifier adds a row: the new challenge, open and untried. */
  lemma OperationsWorkRowByRow(ops: seq<Op>, op: Op, maxAttempts: nat, k: nat)
    requires !op.Cleanup? && k < |Run(ops, maxAttempts)|
    ensures var rows, after := Run(ops, maxAttempts), Run(ops + [op], maxAttempts);
            var taken := op.Create? && HasId(rows, op.id);
            && |after| == (if op.Create? && !taken then |rows| + 1 else |rows|)
            && after[k] == RowAfter(rows[k], op, taken, maxAttempts)
            && (op.Create? && !taken ==>
                  after[|rows|] == Otp(op.id, op.phone, op.code, op.expiresAt, 0, None, op.createdAt))
  {
    RunNext(ops, op, maxAttempts);
    RunRefines(ops, maxAttempts);
    var rows := Run(ops, maxAttempts);
    match op
    case Create(id, _, _, _, _, _) => assert HasId(rows, id) <==> RowById(rows, id).Some?;
    case Invalidate(_, _) =>
    case Consume(id, now) => ConsumedRow(rows, id, now, k);
    case Verify(_, _, _, _) => VerifiedRow(rows, op, maxAttempts, k);
  }

  /** A clean-up never changes who can log in: of the verdicts given at or after its time, it only turns
    * "expired" into "missing", for the challenges it deletes. */
  lemma CleanupOnlyHidesExpired(rows: Rows, b: Book, cleanup: int, phone: string, code: nat, now: int, maxAttempts: nat)
    requires Refines(rows, b) && cleanup <= now
    ensures VerdictOn(CleanedUp(rows, cleanup), phone, code, now, maxAttempts)
            == if phone in b.open && b.open[phone].expiresAt <= cleanup then Missing
               else VerdictOn(rows, phone, code, now, maxAttempts)
    ensures phone in b.open && b.open[phone].expiresAt <= cleanup ==>
              VerdictOn(rows, phone, code, now, maxAttempts) == Expired(b.open[phone].id)
  {
    CleanupRefines(rows, b, cleanup);
    VerifyRefines(rows, b, Verify(phone, code, now, now), maxAttempts);
    VerifyRefines(CleanedUp(rows, cleanup), Unexpired(b, cleanup), Verify(phone, code, now, now), maxAttempts);
  }

  /** The operation draws this identifier for a new challenge. */
  predicate Draws(op: Op, id: nat) {
    op.Create? && op.id == id
  }

  ghost predicate DeletedBy(ops: seq<Op>, r: Otp) {
    exists i :: 0 <= i < |ops| && ops[i].Cleanup? && r.expiresAt <= ops[i].now
  }

  /** The identifier's row, if there is one, is closed, with these attempts and this expiry. */
  ghost predicate ClosedAs(rows: Rows, r: Otp) {
    forall k :: 0 <= k < |rows| && rows[k].id == r.id ==>
      !rows[k].Open() && rows[k].attempts == r.attempts && rows[k].expiresAt == r.expiresAt
  }

  lemma ClosedToday(rows: Rows, b: Book, r: Otp)
    requires Refines(rows, b) && r in rows && !r.Open()
    ensures ClosedAs(rows, r) && HasId(rows, r.id)
  {
    var i :| 0 <= i < |rows| && rows[i] == r;
  }

  lemma ClosedAtCleanup(rows: Rows, now: int, r: Otp)
    requires ClosedAs(rows, r)
    ensures ClosedAs(CleanedUp(rows, now), r)
    ensures HasId(CleanedUp(rows, now), r.id) <==> HasId(rows, r.id) && r.expiresAt > now
  {
    CleanupKeepsRows(rows, now);
    if HasId(rows, r.id) && r.expiresAt > now {
      CleanupKeepsId(rows, now, r.id);
    }
  }

  lemma ClosedStepwise(rows: Rows, op: Op, maxAttempts: nat, r: Otp)
    requires ClosedAs(rows, r) && !Draws(op, r.id)
    ensures ClosedAs(Apply(rows, op, maxAttempts), r)
    ensures HasId(Apply(rows, op, maxAttempts), r.id) <==> HasId(rows, r.id) && !(op.Cleanup? && r.expiresAt <= op.now)
  {
    if op.Cleanup? {
      ClosedAtCleanup(rows, op.now, r);
    } else {
      OthersStay(rows, op, maxAttempts);
      if HasId(rows, r.id) {
        var k :| 0 <= k < |rows| && rows[k].id == r.id;
        assert Apply(rows, op, maxAttempts)[k].id == r.id;
      }
    }
  }

  /** Every other operation keeps the rows at their places and leaves closed ones closed. */
  lemma OthersStay(rows: Rows, op: Op, maxAttempts: nat)
    requires !op.Cleanup?
    ensures var after := Apply(rows, op, maxAttempts);
            && |rows| <= |after|
            && (forall k :: 0 <= k < |rows| ==>
                  && after[k].id == rows[k].id && after[k].expiresAt == rows[k].expiresAt
                  && (!rows[k].Open() ==> !after[k].Open() && after[k].attempts == rows[k].attempts))
            && (forall k :: |rows| <= k < |after| ==> op.Create? && after[k].id == op.id)
  {
  }

  lemma RunNext(ops: seq<Op>, op: Op, maxAttempts: nat)
    ensures Run(ops + [op], maxAttempts) == Apply(Run(ops, maxAttempts), op, maxAttempts)
  {
    assert (ops + [op])[..|ops|] == ops;
  }

  lemma DeletedNext(ops: seq<Op>, r: Otp)
    requires ops != []
    ensures DeletedBy(ops, r) <==>
              DeletedBy(ops[..|ops| - 1], r) || (ops[|ops| - 1].Cleanup? && r.expiresAt <= ops[|ops| - 1].now)
  {
  }

  /** In every continuation of a run a closed challenge stays closed, with its attempts, and its row is
    * there exactly until a clean-up finds it expired, as long as its identifier is not drawn again. */
  lemma {:induction false} ClosedUntilDeleted(ops: seq<Op>, more: seq<Op>, maxAttempts: nat, r: Otp)
    requires r in Run(ops, maxAttempts) && !r.Open()
    requires forall i :: 0 <= i < |more| ==> !Draws(more[i], r.id)
    ensures ClosedAs(Run(ops + more, maxAttempts), r)
    ensures HasId(Run(ops + more, maxAttempts), r.id) <==> !DeletedBy(more, r)
  {
    if more == [] {
      assert ops + more == ops;
      RunRefines(ops, maxAttempts);
      ClosedToday(Run(ops, maxAttempts), BookRun(ops, maxAttempts), r);
    } else {
      var n := |more| - 1;
      ClosedUntilDeleted(ops, more[..n], maxAttempts, r);
      assert ops + more == ops + more[..n] + [more[n]];
      RunNext(ops + more[..n], more[n], maxAttempts);
      ClosedStepwise(Run(ops + more[..n], maxAttempts), more[n], maxAttempts, r);
      DeletedNext(more, r);
    }
  }

  lemma LoginClosesTheChallenge(rows: Rows, op: Op, maxAttempts: nat)
    requires op.Verify? && VerdictOn(rows, op.phone, op.code, op.now, maxAttempts).LoggedIn?
    ensures var i := LatestOpen(rows, op.phone);
            && i.Some? && i.value < |Apply(rows, op, maxAttempts)| && !Apply(rows, op, maxAttempts)[i.value].Open()
            && Apply(rows, op, maxAttempts)[i.value].id == rows[i.value].id
            && VerdictOn(rows, op.phone, op.code, op.now, maxAttempts) == LoggedIn(rows[i.value].id)
  {
  }

  lemma ClosedNeverLogsIn(rows: Rows, r: Otp, phone: string, code: nat, now: int, maxAttempts: nat)
    requires ClosedAs(rows, r)
    ensures VerdictOn(rows, phone, code, now, maxAttempts) != LoggedIn(r.id)
  {
  }

  /** A challenge logs in at most once: after it did, no later check in the run logs in with it, cleaned up
    * or not, as long as its identifier is not drawn for a new challenge. */
  lemma OneLoginPerChallenge(ops: seq<Op>, first: Op, more: seq<Op>, maxAttempts: nat, phone: string, code: nat,
                             now: int)
    requires first.Verify?
    requires VerdictOn(Run(ops, maxAttempts), first.phone, first.code, first.now, maxAttempts).LoggedIn?
    requires var id := VerdictOn(Run(ops, maxAttempts), first.phone, first.code, first.now, maxAttempts).id;
             forall i :: 0 <= i < |more| ==> !Draws(more[i], id)
    ensures VerdictOn(Run(ops + [first] + more, maxAttempts), phone, code, now, maxAttempts)
            != VerdictOn(Run(ops, maxAttempts), first.phone, first.code, first.now, maxAttempts)
  {
    var rows := Run(ops, maxAttempts);
    LoginClosesTheChallenge(rows, first, maxAttempts);
    assert (ops + [first])[..|ops + [first]| - 1] == ops;
    var r := Run(ops + [first], maxAttempts)[LatestOpen(rows, first.phone).value];
    ClosedUntilDeleted(ops + [first], more, maxAttempts, r);
    ClosedNeverLogsIn(Run(ops + [first] + more, maxAttempts), r, phone, code, now, maxAttempts);
  }

  /** Wrong codes entered against the challenge that holds this identifier, or held it last. */
  function WrongCodes(ops: seq<Op>, maxAttempts: nat, id: nat): nat {
    if ops == [] then 0
    else
      var op := ops[|ops| - 1];
      var before := Run(ops[..|ops| - 1], maxAttempts);
      if Draws(op, id) && RowById(before, id).None? then 0
      else WrongCodes(ops[..|ops| - 1], maxAttempts, id) + RejectedFor(before, op, maxAttempts, id)
  }

  function RejectedFor(rows: Rows, op: Op, maxAttempts: nat, id: nat): nat {
    if op.Verify? && VerdictOn(rows, op.phone, op.code, op.now, maxAttempts) == Wrong(id) then 1 else 0
  }

  /** The attempts column counts the wrong codes while the challenge is open, and never less. */
  ghost predicate Counted(rows: Rows, maxAttempts: nat, id: nat, wrong: nat) {
    && wrong <= maxAttempts
    && forall i :: 0 <= i < |rows| && rows[i].id == id ==>
         wrong <= rows[i].attempts && (rows[i].Open() ==> wrong == rows[i].attempts)
  }

  /** How the identifier's row may move without a wrong code being counted. */
  ghost predicate Uncounted(before: Rows, after: Rows, id: nat) {
    forall i :: 0 <= i < |after| && after[i].id == id ==>
      exists k :: 0 <= k < |before| && before[k].id == id && before[k].attempts <= after[i].attempts
                  && (after[i].Open() ==> before[k].Open() && after[i].attempts == before[k].attempts)
  }

  lemma OthersAreUncounted(rows: Rows, op: Op, maxAttempts: nat, id: nat)
    requires !op.Verify? || !VerdictOn(rows, op.phone, op.code, op.now, maxAttempts).Wrong?
    requires !(Draws(op, id) && RowById(rows, id).None?)
    ensures Uncounted(rows, Apply(rows, op, maxAttempts), id)
  {
    var after := Apply(rows, op, maxAttempts);
    forall i | 0 <= i < |after| && after[i].id == id
      ensures exists k :: 0 <= k < |rows| && rows[k].id == id && rows[k].attempts <= after[i].attempts
                          && (after[i].Open() ==> rows[k].Open() && after[i].attempts == rows[k].attempts)
    {
      if op.Cleanup? {
        KeptMembers(rows, (r: Otp) => r.expiresAt > op.now);
        assert after[i] in after && after[i] in rows;
        var k :| 0 <= k < |rows| && rows[k] == after[i];
      } else {
        assert i < |rows| && rows[i].id == id;
      }
    }
  }

  /** A wrong code adds one attempt to the challenge it was entered against, which stays open. */
  lemma WrongIsCounted(rows: Rows, b: Book, op: Op, maxAttempts: nat, id: nat, wrong: nat)
    requires Refines(rows, b) && Counted(rows, maxAttempts, id, wrong)
    requires op.Verify? && VerdictOn(rows, op.phone, op.code, op.now, maxAttempts).Wrong?
    ensures Counted(Apply(rows, op, maxAttempts), maxAttempts, id, wrong + RejectedFor(rows, op, maxAttempts, id))
  {
    var i := LatestOpen(rows, op.phone).value;
    assert Apply(rows, op, maxAttempts) == Tried(rows, i);
    assert Tried(rows, i)[i].id == rows[i].id;
  }

  lemma StepIsCounted(rows: Rows, b: Book, op: Op, maxAttempts: nat, id: nat, wrong: nat)
    requires Refines(rows, b) && Counted(rows, maxAttempts, id, wrong)
    ensures Counted(Apply(rows, op, maxAttempts), maxAttempts, id,
                    if Draws(op, id) && RowById(rows, id).None? then 0
                    else wrong + RejectedFor(rows, op, maxAttempts, id))
  {
    if Draws(op, id) && RowById(rows, id).None? {
      OthersStay(rows, op, maxAttempts);
    } else if op.Verify? && VerdictOn(rows, op.phone, op.code, op.now, maxAttempts).Wrong? {
      WrongIsCounted(rows, b, op, maxAttempts, id, wrong);
    } else {
      OthersAreUncounted(rows, op, maxAttempts, id);
    }
  }

  lemma {:induction false} WrongCodesAreCounted(ops: seq<Op>, maxAttempts: nat, id: nat)
    ensures Counted(Run(ops, maxAttempts), maxAttempts, id, WrongCodes(ops, maxAttempts, id))
  {
    if ops != [] {
      var shorter := ops[..|ops| - 1];
      WrongCodesAreCounted(shorter, maxAttempts, id);
      RunRefines(shorter, maxAttempts);
      StepIsCounted(Run(shorter, maxAttempts), BookRun(shorter, maxAttempts), ops[|ops| - 1], maxAttempts, id,
                    WrongCodes(shorter, maxAttempts, id));
    }
  }

  /** The checks that were made against the challenge in time, whatever their verdict. */
  function Checks(ops: seq<Op>, maxAttempts: nat, id: nat): nat {
    if ops == [] then 0
    else
      var op := ops[|ops| - 1];
      var before := Run(ops[..|ops| - 1], maxAttempts);
      if Draws(op, id) && RowById(before, id).None? then 0
      else Checks(ops[..|ops| - 1], maxAttempts, id) + (if ChecksIt(before, op, maxAttempts, id) then 1 else 0)
  }

  predicate ChecksIt(rows: Rows, op: Op, maxAttempts: nat, id: nat) {
    op.Verify? && VerdictOn(rows, op.phone, op.code, op.now, maxAttempts) in {Wrong(id), TooMany(id), LoggedIn(id)}
  }

  ghost predicate Attempted(rows: Rows, id: nat, n: nat) {
    forall i :: 0 <= i < |rows| && rows[i].id == id ==> rows[i].attempts == n
  }

  lemma CheckIsAttempted(rows: Rows, b: Book, op: Op, maxAttempts: nat, id: nat, n: nat)
    requires Refines(rows, b) && Attempted(rows, id, n) && op.Verify?
    ensures Attempted(Apply(rows, op, maxAttempts), id, if ChecksIt(rows, op, maxAttempts, id) then n + 1 else n)
  {
    var after := Apply(rows, op, maxAttempts);
    var r := LatestOpen(rows, op.phone);
    if r.Some? {
      assert |after| == |rows| && after[r.value].id == rows[r.value].id;
      assert forall k :: 0 <= k < |rows| && k != r.value ==> after[k] == rows[k] && rows[k].id != rows[r.value].id;
    }
  }

  lemma StepIsAttempted(rows: Rows, b: Book, op: Op, maxAttempts: nat, id: nat, n: nat)
    requires Refines(rows, b) && Attempted(rows, id, n)
    ensures Attempted(Apply(rows, op, maxAttempts), id,
                      if Draws(op, id) && RowById(rows, id).None? then 0
                      else if ChecksIt(rows, op, maxAttempts, id) then n + 1 else n)
  {
    if op.Verify? {
      CheckIsAttempted(rows, b, op, maxAttempts, id, n);
    } else if op.Cleanup? {
      CleanupKeepsRows(rows, op.now);
    } else {
      OthersStay(rows, op, maxAttempts);
    }
  }

  /** In every run the attempts column holds the number of checks made in time against the challenge: the
    * one that logs in and the one that comes after the last permitted try are counted too. */
  lemma {:induction false} EveryCheckIsCounted(ops: seq<Op>, maxAttempts: nat, id: nat)
    ensures Attempted(Run(ops, maxAttempts), id, Checks(ops, maxAttempts, id))
  {
    if ops != [] {
      var shorter := ops[..|ops| - 1];
      EveryCheckIsCounted(shorter, maxAttempts, id);
      RunRefines(shorter, maxAttempts);
      StepIsAttempted(Run(shorter, maxAttempts), BookRun(shorter, maxAttempts), ops[|ops| - 1], maxAttempts, id,
                      Checks(shorter, maxAttempts, id));
    }
  }

  /** No challenge ever takes more wrong codes than the configured maximum. */
  lemma WrongCodesAreBounded(ops: seq<Op>, maxAttempts: nat, id: nat)
    ensures WrongCodes(ops, maxAttempts, id) <= maxAttempts
  {
    WrongCodesAreCounted(ops, maxAttempts, id);
  }
}
