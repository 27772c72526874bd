/** The string operations the settings and the request limiter rely on: trimming, lower case, splitting
  * at commas, and decimal numbers. White space is the white space of Latin-1; lower case is ASCII's. */
module Text {
  import opened Wrappers

  // ---- Trimming and lower case -------------------------------------------------------------------

  predicate IsSpace(c: char) {
    var n := c as int;
    9 <= n <= 13 || 28 <= n <= 32 || n == 0x85 || n == 0xA0
  }

  function StripLeft(s: string): string {
    if s == "" || !IsSpace(s[0]) then s else StripLeft(s[1..])
  }

  function StripRight(s: string): string {
    if s == "" || !IsSpace(s[|s| - 1]) then s else StripRight(s[..|s| - 1])
  }

  function Strip(s: string): string {
    StripRight(StripLeft(s))
  }

  /** Nothing to trim at either end. */
  predicate Trim(s: string) {
    s == "" || (!IsSpace(s[0]) && !IsSpace(s[|s| - 1]))
  }

  lemma {:induction false} LeftRemovesSpace(s: string) returns (n: nat)
    ensures n <= |s| && StripLeft(s) == s[n..]
    ensures forall k :: 0 <= k < n ==> IsSpace(s[k])
    ensures n < |s| ==> !IsSpace(s[n])
  {
    if s == "" || !IsSpace(s[0]) {
      n := 0;
    } else {
      var m := LeftRemovesSpace(s[1..]);
      n := m + 1;
      assert s[1..][m..] == s[n..];
      forall k | 0 <= k < n ensures IsSpace(s[k]) {
        if k > 0 { assert s[k] == s[1..][k - 1]; }
      }
    }
  }

  lemma {:induction false} RightRemovesSpace(s: string) returns (n: nat)
    ensures n <= |s| && StripRight(s) == s[..n]
    ensures forall k :: n <= k < |s| ==> IsSpace(s[k])
    ensures n > 0 ==> !IsSpace(s[n - 1])
  {
    if s == "" || !IsSpace(s[|s| - 1]) {
      n := |s|;
      assert s[..n] == s;
    } else {
      n := RightRemovesSpace(s[..|s| - 1]);
      assert s[..|s| - 1][..n] == s[..n];
    }
  }

  /** Trimming keeps one stretch of the string, and everything around it is white space. */
  lemma StripIsTheMiddle(s: string) returns (a: nat, b: nat)
    ensures a <= b <= |s| && Strip(s) == s[a..b] && Trim(Strip(s))
    ensures forall k :: 0 <= k < a || b <= k < |s| ==> IsSpace(s[k])
  {
    a := LeftRemovesSpace(s);
    var m := RightRemovesSpace(s[a..]);
    b := a + m;
    assert s[a..][..m] == s[a..b];
    forall k | b <= k < |s| ensures IsSpace(s[k]) {
      assert s[k] == s[a..][k - a];
    }
    if m > 0 { assert s[a..][m - 1] == s[b - 1]; }
  }

  lemma StripTrims(s: string)
    ensures Trim(Strip(s))
    ensures ',' !in s ==> ',' !in Strip(s)
  {
    var a, b := StripIsTheMiddle(s);
  }

  lemma StripKeepsTrim(s: string)
    requires Trim(s)
    ensures Strip(s) == s
  {
  }

  function LowerChar(c: char): char {
    if 'A' <= c <= 'Z' then (c as int + 32) as char else c
  }

  function Lower(s: string): (r: string)
    ensures |r| == |s| && forall i :: 0 <= i < |s| ==> r[i] == LowerChar(s[i])
  {
    if s == "" then "" else [LowerChar(s[0])] + Lower(s[1..])
  }

  lemma LowerTwice(s: string)
    ensures Lower(Lower(s)) == Lower(s)
  {
  }

  predicate Capital(c: char) { 'A' <= c <= 'Z' }

  /** Lower case turns the k-th capital into the k-th small letter, leaves every other character as it is,
    * and leaves no capital. */
  lemma LowerIsAscii(s: string, i: nat, k: nat)
    requires i < |s| && k < 26
    ensures s[i] as int == 'A' as int + k ==> Lower(s)[i] as int == 'a' as int + k
    ensures !Capital(s[i]) ==> Lower(s)[i] == s[i]
    ensures !Capital(Lower(s)[i])
  {
    assert Lower(s)[i] == LowerChar(s[i]);
  }

  const SPACES := "\t\n\U{0B}\U{0C}\r\U{1C}\U{1D}\U{1E}\U{1F} \U{85}\U{A0}"

  /** The twelve characters that are trimmed. */
  lemma SpacesAreExactly(c: char)
    ensures IsSpace(c) <==> c in SPACES
  {
    if c in SPACES {
      var k :| 0 <= k < |SPACES| && SPACES[k] == c;
      assert k < 12;
    }
  }

  /** The same characters, but for the case of ASCII letters. */
  predicate SameButCase(s: string, t: string) {
    |s| == |t| && forall i :: 0 <= i < |s| ==> SameLetter(s[i], t[i])
  }

  predicate SameLetter(c: char, d: char) {
    || c == d
    || (Capital(c) && d as int - 'a' as int == c as int - 'A' as int)
    || (Capital(d) && c as int - 'a' as int == d as int - 'A' as int)
  }

  lemma SameLetterIs(c: char, d: char)
    requires SameLetter(c, d)
    ensures IsSpace(c) == IsSpace(d) && (c == ',' <==> d == ',') && LowerChar(c) == LowerChar(d)
  {
  }

  lemma {:induction false} LowerOfSame(s: string, t: string)
    requires SameButCase(s, t)
    ensures Lower(s) == Lower(t)
  {
    forall i | 0 <= i < |s| ensures Lower(s)[i] == Lower(t)[i] { SameLetterIs(s[i], t[i]); }
  }

  lemma LowerIsSame(s: string)
    ensures SameButCase(s, Lower(s))
  {
  }

  lemma SameSlice(s: string, t: string, a: nat, b: nat)
    requires SameButCase(s, t) && a <= b <= |s|
    ensures SameButCase(s[a..b], t[a..b])
  {
    forall i | 0 <= i < b - a ensures SameLetter(s[a..b][i], t[a..b][i]) {
      assert SameLetter(s[a + i], t[a + i]);
    }
  }

  lemma {:induction false} StripLeftOfSame(s: string, t: string)
    requires SameButCase(s, t)
    ensures SameButCase(StripLeft(s), StripLeft(t))
  {
    if s != "" {
      SameLetterIs(s[0], t[0]);
      SameSlice(s, t, 1, |s|);
      StripLeftOfSame(s[1..], t[1..]);
    }
  }

  lemma {:induction false} StripRightOfSame(s: string, t: string)
    requires SameButCase(s, t)
    ensures SameButCase(StripRight(s), StripRight(t))
  {
    if s != "" {
      var n := |s| - 1;
      SameLetterIs(s[n], t[n]);
      SameSlice(s, t, 0, n);
      assert s[0..n] == s[..n] && t[0..n] == t[..n];
      StripRightOfSame(s[..n], t[..n]);
    }
  }

  lemma StripOfSame(s: string, t: string)
    requires SameButCase(s, t)
    ensures SameButCase(Strip(s), Strip(t))
  {
    StripLeftOfSame(s, t);
    StripRightOfSame(StripLeft(s), StripLeft(t));
  }

  // ---- Commas ------------------------------------------------------------------------------------

  function Split(s: string): (r: seq<string>)
    ensures |r| >= 1
  {
    if s == "" then [""]
    else
      var rest := Split(s[1..]);
      if s[0] == ',' then [""] + rest else [[s[0]] + rest[0]] + rest[1..]
  }

  lemma {:induction false} PiecesHaveNoComma(s: string)
    ensures forall p :: p in Split(s) ==> ',' !in p
  {
    if s != "" { PiecesHaveNoComma(s[1..]); }
  }

  function Join(ts: seq<string>): string {
    if ts == [] then ""
    else if |ts| == 1 then ts[0]
    else ts[0] + "," + Join(ts[1..])
  }

  lemma JoinAfterComma(rest: seq<string>)
    requires rest != []
    ensures Join([""] + rest) == "," + Join(rest)
  {
    assert ([""] + rest)[1..] == rest;
  }

  lemma JoinAfterChar(c: char, rest: seq<string>)
    requires rest != []
    ensures Join([[c] + rest[0]] + rest[1..]) == [c] + Join(rest)
  {
    var all := [[c] + rest[0]] + rest[1..];
    assert all[1..] == rest[1..];
    if |rest| > 1 {
      assert Join(all) == [c] + (rest[0] + "," + Join(rest[1..]));
    }
  }

  /** Joining undoes splitting, for every string. */
  lemma {:induction false} JoinOfSplit(s: string)
    ensures Join(Split(s)) == s
  {
    if s != "" {
      JoinOfSplit(s[1..]);
      assert [s[0]] + s[1..] == s;
      if s[0] == ',' {
        JoinAfterComma(Split(s[1..]));
      } else {
        JoinAfterChar(s[0], Split(s[1..]));
      }
    }
  }

  lemma {:induction false} SplitAtFirstComma(t: string, rest: string)
    requires ',' !in t
    ensures Split(t) == [t]
    ensures Split(t + "," + rest) == [t] + Split(rest)
  {
    var all := t + "," + rest;
    if t == "" {
      assert all[1..] == rest;
    } else {
      assert all[1..] == t[1..] + "," + rest;
      SplitAtFirstComma(t[1..], rest);
      assert [t[0]] + t[1..] == t;
    }
  }

  /** Splitting undoes joining, for comma-free pieces. */
  lemma {:induction false} SplitOfJoin(ts: seq<string>)
    requires ts != [] && forall t :: t in ts ==> ',' !in t
    ensures Split(Join(ts)) == ts
  {
    SplitAtFirstComma(ts[0], "");
    if |ts| > 1 {
      SplitOfJoin(ts[1..]);
      SplitAtFirstComma(ts[0], Join(ts[1..]));
      assert [ts[0]] + ts[1..] == ts;
    }
  }

  /** Strings that differ only in case are split at the same commas. */
  lemma {:induction false} SplitOfSame(s: string, t: string)
    requires SameButCase(s, t)
    ensures |Split(s)| == |Split(t)|
    ensures forall i :: 0 <= i < |Split(s)| ==> SameButCase(Split(s)[i], Split(t)[i])
  {
    if s != "" {
      SameLetterIs(s[0], t[0]);
      SameSlice(s, t, 1, |s|);
      SplitOfSame(s[1..], t[1..]);
    }
  }

  // ---- Decimal numbers ---------------------------------------------------------------------------

  /** The interpreter refuses to convert a string with more digits than this. */
  const MAX_INT_DIGITS := 4300

  predicate IsDigit(c: char) { '0' <= c <= '9' }

  predicate AllDigits(s: string) {
    s != "" && forall i :: 0 <= i < |s| ==> IsDigit(s[i])
  }

  function DigitValue(c: char): nat
    requires IsDigit(c)
  {
    c as int - '0' as int
  }

  /** The number a string of digits denotes. */
  function Value(s: string): nat
    requires forall i :: 0 <= i < |s| ==> IsDigit(s[i])
  {
    if s == "" then 0 else 10 * Value(s[..|s| - 1]) + DigitValue(s[|s| - 1])
  }

  function Decimal(n: nat): (s: string)
    ensures AllDigits(s)
  {
    var last := [('0' as int + n % 10) as char];
    if n < 10 then last else Decimal(n / 10) + last
  }

  lemma {:induction false} ValueOfDecimal(n: nat)
    ensures Value(Decimal(n)) == n
  {
    var s := Decimal(n);
    if n >= 10 {
      ValueOfDecimal(n / 10);
      assert s[..|s| - 1] == Decimal(n / 10);
    } else {
      assert s[..|s| - 1] == "";
    }
  }

  /** Writing a number out again never needs more digits than it was read from. */
  lemma {:induction false} DecimalIsShortest(s: string)
    requires AllDigits(s)
    ensures |Decimal(Value(s))| <= |s|
  {
    if Value(s) >= 10 {
      var shorter := s[..|s| - 1];
      assert shorter != "";
      assert Value(s) / 10 == Value(shorter);
      DecimalIsShortest(shorter);
    }
  }

  // ---- Python's int() on text ------------------------------------------------------------------------

  /** Digits, optionally grouped by single underscores. */
  predicate Grouped(s: string) {
    && s != "" && IsDigit(s[0]) && IsDigit(s[|s| - 1])
    && (forall i :: 0 <= i < |s| ==> IsDigit(s[i]) || s[i] == '_')
    && (forall i :: 0 < i < |s| ==> IsDigit(s[i]) || IsDigit(s[i - 1]))
  }

  function Ungrouped(s: string): (r: string)
    requires forall i :: 0 <= i < |s| ==> IsDigit(s[i]) || s[i] == '_'
    ensures forall i :: 0 <= i < |r| ==> IsDigit(r[i])
  {
    if s == "" then ""
    else Ungrouped(s[..|s| - 1]) + (if s[|s| - 1] == '_' then "" else [s[|s| - 1]])
  }

  function Unsigned(s: string): Option<int> {
    if Grouped(s) && |Ungrouped(s)| <= MAX_INT_DIGITS then Some(Value(Ungrouped(s))) else None
  }

  /** The conversion `int(text)` for Latin-1 text; None stands for ValueError. */
  function ToInt(text: string): Option<int> {
    var s := Strip(text);
    if s != "" && s[0] == '-' then
      var n := Unsigned(s[1..]);
      if n.Some? then Some(-n.value) else None
    else if s != "" && s[0] == '+' then Unsigned(s[1..])
    else Unsigned(s)
  }

  lemma {:induction false} UngroupedDigits(s: string)
    requires forall i :: 0 <= i < |s| ==> IsDigit(s[i])
    ensures Ungrouped(s) == s
  {
    if s != "" { UngroupedDigits(s[..|s| - 1]); }
  }

  lemma DigitsAreUnsigned(s: string)
    requires AllDigits(s)
    ensures Unsigned(s) == if |s| <= MAX_INT_DIGITS then Some(Value(s) as int) else None
  {
    assert IsDigit(s[0]) && IsDigit(s[|s| - 1]);
    UngroupedDigits(s);
  }

  lemma DigitsAreRead(s: string)
    requires AllDigits(s)
    ensures ToInt(s) == if |s| <= MAX_INT_DIGITS then Some(Value(s) as int) else None
  {
    assert IsDigit(s[0]) && IsDigit(s[|s| - 1]);
    StripKeepsTrim(s);
    DigitsAreUnsigned(s);
  }

  lemma SignedIsTrim(s: string, sign: char)
    requires AllDigits(s) && sign in {'+', '-'}
    ensures Strip([sign] + s) == [sign] + s && ([sign] + s)[1..] == s
  {
    var text := [sign] + s;
    assert text[|text| - 1] == s[|s| - 1] && IsDigit(s[|s| - 1]);
    StripKeepsTrim(text);
  }

  /** A sign before the digits is read as the sign of the number. */
  lemma SignIsRead(s: string)
    requires AllDigits(s) && |s| <= MAX_INT_DIGITS
    ensures ToInt(['+'] + s) == Some(Value(s) as int)
    ensures ToInt(['-'] + s) == Some(-(Value(s) as int))
  {
    SignedIsTrim(s, '+');
    SignedIsTrim(s, '-');
    DigitsAreUnsigned(s);
  }

  /** Whatever is read as a number is, but for white space around it, a sign or none, and then digits and
    * single underscores between digits; and at most the permitted number of digits. */
  lemma OnlyNumbersAreRead(text: string) returns (digits: string)
    requires ToInt(text).Some?
    ensures Strip(text) in [digits, "+" + digits, "-" + digits] && Grouped(digits)
    ensures |Ungrouped(digits)| <= MAX_INT_DIGITS
    ensures ToInt(text).value
            == if Strip(text) == "-" + digits then -(Value(Ungrouped(digits)) as int) else Value(Ungrouped(digits))
  {
    var s := Strip(text);
    if s != "" && s[0] in {'-', '+'} {
      digits := s[1..];
      assert s == [s[0]] + digits;
    } else {
      digits := s;
    }
  }
}
