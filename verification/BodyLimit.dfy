/** The request-body limiter: a counter over the messages the application reads, and a fast path that
  * believes the Content-Length header. */
module BodyLimit {
  import opened Wrappers
  import opened Text

  /** What the server hands to the application. A missing body counts as empty. */
  datatype Message = Request(body: seq<bv8>) | Other(kind: string)

  datatype TooLarge = TooLarge(maxBytes: nat)

  function Size(m: Message): nat {
    if m.Request? then |m.body| else 0
  }

  /** Body bytes in the first n messages. */
  function TotalTo(stream: seq<Message>, n: nat): nat
    requires n <= |stream|
  {
    if n == 0 then 0 else TotalTo(stream, n - 1) + Size(stream[n - 1])
  }

  function Total(stream: seq<Message>): nat {
    TotalTo(stream, |stream|)
  }

  // ---- One read ------------------------------------------------------------------------------------

  /** The closure `limited_receive` and the counter it captures. */
  class Limiter {
    const maxBytes: nat
    var received: nat

    constructor (maxBytes: nat)
      ensures this.maxBytes == maxBytes && received == 0
    {
      this.maxBytes := maxBytes;
      received := 0;
    }

    method LimitedReceive(message: Message) returns (r: Result<Message, TooLarge>)
      modifies this
      ensures received == old(received) + Size(message)
      ensures r.Success? ==> r.value == message
      ensures r.Failure? <==> message.Request? && old(received) + |message.body| > maxBytes
      ensures r.Failure? ==> r.error == TooLarge(maxBytes)
    {
      if message.Request? {
        received := received + |message.body|;
        if received > maxBytes {
          return Failure(TooLarge(maxBytes));
        }
      }
      r := Success(message);
    }
  }

  // ---- A whole stream ------------------------------------------------------------------------------

  /** What read i of the stream yields when every message is read, the limiter's raise included. */
  function Outcome(stream: seq<Message>, maxBytes: nat, i: nat): Result<Message, TooLarge>
    requires i < |stream|
  {
    if stream[i].Request? && TotalTo(stream, i + 1) > maxBytes then Failure(TooLarge(maxBytes)) else Success(stream[i])
  }

  /** Reading a stream through the limiter, message by message, also after it has raised. */
  method ReadThrough(stream: seq<Message>, maxBytes: nat) returns (outcomes: seq<Result<Message, TooLarge>>)
    ensures |outcomes| == |stream|
    ensures forall i :: 0 <= i < |stream| ==> outcomes[i] == Outcome(stream, maxBytes, i)
  {
    var limiter := new Limiter(maxBytes);
    outcomes := [];
    for i := 0 to |stream|
      invariant fresh(limiter) && limiter.maxBytes == maxBytes
      invariant limiter.received == TotalTo(stream, i)
      invariant |outcomes| == i
      invariant forall k :: 0 <= k < i ==> outcomes[k] == Outcome(stream, maxBytes, k)
    {
      var r := limiter.LimitedReceive(stream[i]);
      outcomes := outcomes + [r];
    }
  }

  lemma {:induction false} TotalGrows(stream: seq<Message>, i: nat, j: nat)
    requires i <= j <= |stream|
    ensures TotalTo(stream, i) <= TotalTo(stream, j)
  {
    if i < j { TotalGrows(stream, i, j - 1); }
  }

  /** How many of the first n messages fit: the longest prefix whose bodies stay within the limit. */
  function FitsOf(stream: seq<Message>, maxBytes: nat, n: nat): (f: nat)
    requires n <= |stream|
    ensures f <= n && TotalTo(stream, f) <= maxBytes
  {
    if TotalTo(stream, n) <= maxBytes then n else FitsOf(stream, maxBytes, n - 1)
  }

  function Fits(stream: seq<Message>, maxBytes: nat): nat {
    FitsOf(stream, maxBytes, |stream|)
  }

  lemma {:induction false} FitsIsLongest(stream: seq<Message>, maxBytes: nat, n: nat, m: nat)
    requires m <= n <= |stream|
    ensures TotalTo(stream, m) <= maxBytes <==> m <= FitsOf(stream, maxBytes, n)
  {
    TotalGrows(stream, m, n);
    if TotalTo(stream, n) > maxBytes && m < n { FitsIsLongest(stream, maxBytes, n - 1, m); }
  }

  /** The request messages delivered are exactly those of the longest prefix within the limit; other
    * messages pass unchanged everywhere; past that prefix every request read raises. */
  lemma DeliversLongestPrefix(stream: seq<Message>, maxBytes: nat, i: nat)
    requires i < |stream|
    ensures Outcome(stream, maxBytes, i) ==
            if i < Fits(stream, maxBytes) || stream[i].Other? then Success(stream[i]) else Failure(TooLarge(maxBytes))
  {
    FitsIsLongest(stream, maxBytes, |stream|, i + 1);
  }

  // ---- The Content-Length fast path ------------------------------------------------------------------

  type Headers = seq<(string, string)>

  /** Header names are compared in lower case; of several, the last one is kept. */
  function ContentLength(headers: Headers): Option<string> {
    if headers == [] then None
    else
      var last := headers[|headers| - 1];
      if Lower(last.0) == "content-length" then Some(last.1) else ContentLength(headers[..|headers| - 1])
  }

  lemma NameIsContentLength(name: string)
    ensures Lower(name) == "content-length" <==> SameButCase(name, "content-length")
  {
    var plain := "content-length";
    assert Lower(plain) == plain by {
      assert forall i :: 0 <= i < |plain| ==> LowerChar(plain[i]) == plain[i];
    }
    LowerIsSame(name);
    if SameButCase(name, plain) { LowerOfSame(name, plain); }
  }

  /** The value believed is that of the last header whose name is "content-length" in any mixture of
    * capitals and small letters, and there is none exactly when no header has that name. */
  lemma {:induction false} LastContentLengthCounts(headers: Headers)
    ensures ContentLength(headers).None? <==>
              forall i :: 0 <= i < |headers| ==> !SameButCase(headers[i].0, "content-length")
    ensures forall i :: 0 <= i < |headers| && SameButCase(headers[i].0, "content-length") ==>
              (forall k :: i < k < |headers| ==> !SameButCase(headers[k].0, "content-length")) ==>
                ContentLength(headers) == Some(headers[i].1)
  {
    if headers != [] {
      var n := |headers| - 1;
      NameIsContentLength(headers[n].0);
      LastContentLengthCounts(headers[..n]);
      assert forall i :: 0 <= i < n ==> headers[..n][i] == headers[i];
    }
  }

  /** The fast path rejects when the header is present, not empty, a number, and too large. */
  predicate RejectsEarly(headers: Headers, maxBytes: nat) {
    var header := ContentLength(headers);
    && header.Some? && header.value != ""
    && var n := ToInt(header.value); n.Some? && n.value > maxBytes
  }

  // ---- The middleware --------------------------------------------------------------------------------

  datatype Response =
    | Bypassed                              // not an HTTP request
    | Rejected(delivered: seq<Message>)     // 413, after the application has seen these messages
    | Served(delivered: seq<Message>)

  /** The first of n reads that raises, or n. */
  function FirstRaise(stream: seq<Message>, maxBytes: nat, n: nat): (f: nat)
    requires n <= |stream|
    ensures f <= n
  {
    if n == 0 then 0
    else
      var f := FirstRaise(stream, maxBytes, n - 1);
      if f == n - 1 && Outcome(stream, maxBytes, f).Success? then n else f
  }

  /** The application takes a number of messages and lets the limiter's exception through. */
  function Counted(stream: seq<Message>, taken: nat, maxBytes: nat): Response
    requires taken <= |stream|
  {
    var f := FirstRaise(stream, maxBytes, taken);
    if f < taken then Rejected(stream[..f]) else Served(stream[..taken])
  }

  function Serve(isHttp: bool, headers: Headers, stream: seq<Message>, taken: nat, maxBytes: nat): Response
    requires taken <= |stream|
  {
    if !isHttp then Bypassed
    else if RejectsEarly(headers, maxBytes) then Rejected([])
    else Counted(stream, taken, maxBytes)
  }

  /** The application's reads, through the limiter, until it has enough or the limiter raises. */
  method Count(stream: seq<Message>, taken: nat, maxBytes: nat) returns (response: Response)
    requires taken <= |stream|
    ensures response == Counted(stream, taken, maxBytes)
  {
    var limiter := new Limiter(maxBytes);
    for i := 0 to taken
      invariant fresh(limiter) && limiter.maxBytes == maxBytes && limiter.received == TotalTo(stream, i)
      invariant FirstRaise(stream, maxBytes, i) == i
    {
      var r := limiter.LimitedReceive(stream[i]);
      if r.Failure? {
        RaiseIsFinal(stream, maxBytes, i, taken);
        return Rejected(stream[..i]);
      }
    }
    response := Served(stream[..taken]);
  }

  lemma {:induction false} RaiseIsFinal(stream: seq<Message>, maxBytes: nat, i: nat, n: nat)
    requires i < n <= |stream| && FirstRaise(stream, maxBytes, i) == i && Outcome(stream, maxBytes, i).Failure?
    ensures FirstRaise(stream, maxBytes, n) == i
  {
    if i + 1 < n { RaiseIsFinal(stream, maxBytes, i, n - 1); }
  }

  lemma {:induction false} FirstRaiseIsOverflow(stream: seq<Message>, maxBytes: nat, n: nat)
    requires n <= |stream|
    ensures var f := FirstRaise(stream, maxBytes, n);
            TotalTo(stream, f) <= maxBytes && (f < n ==> TotalTo(stream, f + 1) > maxBytes)
  {
    if n > 0 { FirstRaiseIsOverflow(stream, maxBytes, n - 1); }
  }

  lemma {:induction false} PrefixTotal(stream: seq<Message>, f: nat, n: nat)
    requires n <= f <= |stream|
    ensures TotalTo(stream[..f], n) == TotalTo(stream, n)
  {
    if n > 0 { PrefixTotal(stream, f, n - 1); }
  }

  /** The first n messages are within the limit, and the next one, which is taken, is a request past it. */
  predicate OverflowsAt(stream: seq<Message>, n: nat, taken: nat, maxBytes: nat) {
    && n < taken <= |stream| && stream[n].Request?
    && TotalTo(stream, n) <= maxBytes < TotalTo(stream, n + 1)
  }

  /** What the application has seen when the response goes out: every message it took when it is served,
    * nothing when the header decided, and the messages before the one that overflows otherwise. */
  lemma WhatIsDelivered(headers: Headers, stream: seq<Message>, taken: nat, maxBytes: nat)
    requires taken <= |stream|
    ensures var r := Serve(true, headers, stream, taken, maxBytes);
            && !r.Bypassed?
            && (r.Served? <==> !RejectsEarly(headers, maxBytes) && TotalTo(stream, taken) <= maxBytes)
            && (r.Served? ==> r.delivered == stream[..taken])
            && (r.Rejected? && RejectsEarly(headers, maxBytes) ==> r.delivered == [])
            && (r.Rejected? && !RejectsEarly(headers, maxBytes) ==>
                  r.delivered <= stream && OverflowsAt(stream, |r.delivered|, taken, maxBytes))
  {
    FirstRaiseIsOverflow(stream, maxBytes, taken);
    var f := FirstRaise(stream, maxBytes, taken);
    if f < taken { TotalGrows(stream, f + 1, taken); }
  }

  /** The middleware: other traffic is passed on, a request is turned away at once or read through the limiter. */
  method Handle(isHttp: bool, headers: Headers, stream: seq<Message>, taken: nat, maxBytes: nat)
    returns (response: Response)
    requires taken <= |stream|
    ensures response == Serve(isHttp, headers, stream, taken, maxBytes)
    ensures response.Bypassed? <==> !isHttp
    ensures response.Served? <==> isHttp && !RejectsEarly(headers, maxBytes) && TotalTo(stream, taken) <= maxBytes
    ensures response.Served? ==> response.delivered == stream[..taken]
    ensures response.Rejected? ==>
              if RejectsEarly(headers, maxBytes) then response.delivered == []
              else response.delivered <= stream && OverflowsAt(stream, |response.delivered|, taken, maxBytes)
  {
    if isHttp { WhatIsDelivered(headers, stream, taken, maxBytes); }
    if !isHttp {
      return Bypassed;
    }
    var contentLength := ContentLength(headers);
    if contentLength.Some? && contentLength.value != "" {
      var n := ToInt(contentLength.value);
      if n.Some? && n.value > maxBytes {
        return Rejected([]);
      }
    }
    response := Count(stream, taken, maxBytes);
  }

  /** Whatever the headers say, the application never sees more body than the limit allows. */
  lemma NeverMoreThanTheLimit(headers: Headers, stream: seq<Message>, taken: nat, maxBytes: nat)
    requires taken <= |stream|
    ensures var r := Serve(true, headers, stream, taken, maxBytes);
            !r.Bypassed? && r.delivered <= stream && Total(r.delivered) <= maxBytes
  {
    var f := FirstRaise(stream, maxBytes, taken);
    FirstRaiseIsOverflow(stream, maxBytes, taken);
    PrefixTotal(stream, f, f);
  }

  /** Counting rejects exactly when the messages taken are over the limit. */
  lemma CountingIsExact(stream: seq<Message>, taken: nat, maxBytes: nat)
    requires taken <= |stream|
    ensures Counted(stream, taken, maxBytes).Rejected? <==> TotalTo(stream, taken) > maxBytes
  {
    FirstRaiseIsOverflow(stream, maxBytes, taken);
    var f := FirstRaise(stream, maxBytes, taken);
    if f < taken { TotalGrows(stream, f + 1, taken); }
  }

  /** A length written in decimal is read back, unless it has too many digits to convert. */
  lemma DecimalHeaderIsRead(n: nat)
    ensures ToInt(Decimal(n)) == if |Decimal(n)| <= MAX_INT_DIGITS then Some(n) else None
  {
    DigitsAreRead(Decimal(n));
    ValueOfDecimal(n);
  }

  lemma HonestHeaderDecides(headers: Headers, h: string, maxBytes: nat)
    requires ContentLength(headers) == Some(h) && AllDigits(h)
    ensures RejectsEarly(headers, maxBytes) <==> |h| <= MAX_INT_DIGITS && Value(h) > maxBytes
  {
    DigitsAreRead(h);
  }

  /** When Content-Length is the true length of the body, written with any number of leading zeros, and
    * the application reads the whole body, the header changes nothing about which requests are rejected. */
  lemma HonestLengthAgrees(headers: Headers, h: string, stream: seq<Message>, maxBytes: nat)
    requires ContentLength(headers) == Some(h) && AllDigits(h) && Value(h) == Total(stream)
    ensures Serve(true, headers, stream, |stream|, maxBytes).Rejected?
            <==> Serve(true, [], stream, |stream|, maxBytes).Rejected?
    ensures Serve(true, headers, stream, |stream|, maxBytes).Rejected? <==> Total(stream) > maxBytes
  {
    HonestHeaderDecides(headers, h, maxBytes);
    CountingIsExact(stream, |stream|, maxBytes);
  }

  /** With an honest header, an application that stops reading early is treated differently from one
    * without a header exactly when the header is short enough to convert, the whole body is over the
    * limit and the part it takes is not. */
  lemma HonestLengthAndPartialReads(headers: Headers, h: string, stream: seq<Message>, taken: nat, maxBytes: nat)
    requires taken <= |stream|
    requires ContentLength(headers) == Some(h) && AllDigits(h) && Value(h) == Total(stream)
    ensures (Serve(true, headers, stream, taken, maxBytes).Rejected?
             <==> Serve(true, [], stream, taken, maxBytes).Rejected?)
            <==> !(|h| <= MAX_INT_DIGITS && TotalTo(stream, taken) <= maxBytes < Total(stream))
  {
    HonestHeaderDecides(headers, h, maxBytes);
    CountingIsExact(stream, taken, maxBytes);
    TotalGrows(stream, taken, |stream|);
  }

  /** For every header, honest or not: a request is rejected exactly when its header is a number over the
    * limit or the application takes more than the limit. An absent, empty, unreadable or small header
    * leaves the decision to counting. */
  lemma RejectsExactlyWhen(headers: Headers, stream: seq<Message>, taken: nat, maxBytes: nat)
    requires taken <= |stream|
    ensures Serve(true, headers, stream, taken, maxBytes).Rejected? <==>
              || (ContentLength(headers).Some? && ToInt(ContentLength(headers).value).Some?
                  && ToInt(ContentLength(headers).value).value > maxBytes)
              || TotalTo(stream, taken) > maxBytes
    ensures !RejectsEarly(headers, maxBytes) ==>
              Serve(true, headers, stream, taken, maxBytes) == Serve(true, [], stream, taken, maxBytes)
  {
    CountingIsExact(stream, taken, maxBytes);
    assert ToInt("").None?;
  }
}
