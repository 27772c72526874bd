/** Decoded JSON, and what Python's operators do with it. Where the interpreter would raise, the
  * operation returns None. */
module Json {
  import opened Wrappers
  import opened Text

  datatype Json =
    | JNull
    | JBool(b: bool)
    | JInt(n: int)
    | JFloat(x: real)
    | JStr(s: string)
    | JArr(items: seq<Json>)
    | JObj(fields: Row)

  type Row = map<string, Json>

  const TRUE := JBool(true)

  predicate Truthy(j: Json) {
    match j
    case JNull => false
    case JBool(b) => b
    case JInt(n) => n != 0
    case JFloat(x) => x != 0.0
    case JStr(s) => s != ""
    case JArr(items) => items != []
    case JObj(fields) => fields != map[]
  }

  /** Lists and dictionaries cannot be looked up in a set. */
  predicate Hashable(j: Json) {
    !j.JArr? && !j.JObj?
  }

  /** `row.get(key)`. */
  function Get(row: Row, key: string): Json {
    if key in row then row[key] else JNull
  }

  function Truncated(x: real): int {
    if x >= 0.0 then x.Floor else -((-x).Floor)
  }

  /** `int(j)`. */
  function IntOf(j: Json): Option<int> {
    match j
    case JBool(b) => Some(if b then 1 else 0)
    case JInt(n) => Some(n)
    case JFloat(x) => Some(Truncated(x))
    case JStr(s) => ToInt(s)
    case JNull => None
    case JArr(_) => None
    case JObj(_) => None
  }

  /** `int(j or 0)`. */
  function IntOrZero(j: Json): Option<int> {
    if Truthy(j) then IntOf(j) else Some(0)
  }

  /** `j or {}`, about to be used as a dictionary. */
  function RowOrEmpty(j: Json): Option<Row> {
    if !Truthy(j) then Some(map[])
    else if j.JObj? then Some(j.fields)
    else None
  }

  /** The rows that `for x in j` yields when every x is then used as a dictionary. */
  function Rows(j: Json): Option<seq<Row>> {
    if j.JArr? then
      if forall i :: 0 <= i < |j.items| ==> j.items[i].JObj?
      then Some(seq(|j.items|, i requires 0 <= i < |j.items| => j.items[i].fields))
      else None
    else if j == JStr("") || j == JObj(map[]) then Some([])
    else None
  }

  function Array(rows: seq<Row>): Json {
    JArr(seq(|rows|, i requires 0 <= i < |rows| => JObj(rows[i])))
  }

  lemma RowsOfArray(rows: seq<Row>)
    ensures Rows(Array(rows)) == Some(rows)
  {
    assert Rows(Array(rows)).value == rows;
  }

  /** `j[0] if j else None`, about to be used as a dictionary when it is truthy. */
  function FirstOf(j: Json): Option<Json> {
    if !Truthy(j) then Some(JNull)
    else if j.JArr? && (j.items[0].JObj? || !Truthy(j.items[0])) then Some(j.items[0])
    else None
  }

  // ---- What the operators mean ---------------------------------------------------------------------------

  /** The values that count as false: nothing else does. */
  lemma FalseValues(j: Json)
    ensures !Truthy(j) <==>
              j in {JNull, JBool(false), JInt(0), JFloat(0.0), JStr(""), JArr([]), JObj(map[])}
  {
  }

  /** `int` reads a truth value as 0 or 1, cuts the fraction off a number on either side of zero, and reads
    * back every integer written in decimal with few enough digits; it fails on null, lists, dictionaries and
    * other text. */
  lemma IntMeans(j: Json)
    ensures IntOf(j).None? <==> j.JNull? || j.JArr? || j.JObj? || (j.JStr? && ToInt(j.s).None?)
    ensures j.JBool? ==> IntOf(j) == IntOf(JInt(if j.b then 1 else 0))
    ensures j.JInt? ==> IntOf(j) == Some(j.n)
    ensures j.JFloat? && j.x >= 0.0 ==> IntOf(j).value as real <= j.x < (IntOf(j).value + 1) as real
    ensures j.JFloat? && j.x < 0.0 ==> (IntOf(j).value - 1) as real < j.x <= IntOf(j).value as real
    ensures j.JStr? && AllDigits(j.s) && |j.s| <= MAX_INT_DIGITS ==> IntOf(j) == Some(Value(j.s))
  {
    if j.JStr? && AllDigits(j.s) { DigitsAreRead(j.s); }
  }

  /** Iterating and then using each element as a dictionary works on lists of dictionaries and on what is empty. */
  lemma RowsMean(j: Json)
    ensures Rows(j).Some? <==>
              || (j.JArr? && forall i :: 0 <= i < |j.items| ==> j.items[i].JObj?)
              || j == JStr("") || j == JObj(map[])
    ensures Rows(j).Some? && j.JArr? ==> Array(Rows(j).value) == j
    ensures Rows(j).Some? && !j.JArr? ==> Rows(j).value == []
  {
    if Rows(j).Some? && j.JArr? {
      assert Array(Rows(j).value).items == j.items;
    }
  }

  // ---- Comprehensions ----------------------------------------------------------------------------------

  /** `[x for x in s if keep(x)]`. */
  function Filter<T>(s: seq<T>, keep: T -> bool): (r: seq<T>)
    ensures |r| <= |s|
  {
    if s == [] then []
    else (if keep(s[0]) then [s[0]] else []) + Filter(s[1..], keep)
  }

  /** `[item(x) for x in s]`. */
  function Render<T>(s: seq<T>, item: T -> Row): (r: seq<Row>)
    ensures |r| == |s| && forall i :: 0 <= i < |s| ==> r[i] == item(s[i])
  {
    seq(|s|, i requires 0 <= i < |s| => item(s[i]))
  }

  lemma {:induction false} FilterKeeps<T>(s: seq<T>, keep: T -> bool)
    ensures forall x :: x in Filter(s, keep) <==> x in s && keep(x)
  {
    if s != [] {
      FilterKeeps(s[1..], keep);
      assert s == [s[0]] + s[1..];
    }
  }

  /** A filter finds nothing exactly when nothing passes. */
  lemma FilterIsEmpty<T>(s: seq<T>, keep: T -> bool)
    ensures Filter(s, keep) == [] <==> forall x :: x in s ==> !keep(x)
  {
    FilterKeeps(s, keep);
    if Filter(s, keep) != [] { assert Filter(s, keep)[0] in Filter(s, keep); }
  }

  lemma {:induction false} FilterTwice<T>(s: seq<T>, first: T -> bool, second: T -> bool, both: T -> bool)
    requires forall x :: x in s ==> (both(x) <==> first(x) && second(x))
    ensures Filter(Filter(s, first), second) == Filter(s, both)
  {
    if s != [] {
      FilterTwice(s[1..], first, second, both);
      var rest := Filter(s[1..], first);
      if first(s[0]) {
        assert Filter(s, first) == [s[0]] + rest && ([s[0]] + rest)[1..] == rest;
      } else {
        assert Filter(s, first) == rest;
      }
    }
  }

  /** Filtering rendered rows is rendering the rows whose rendering passes. */
  lemma {:induction false} FilterOfRender<T>(s: seq<T>, item: T -> Row, keep: Row -> bool, chosen: T -> bool)
    requires forall x :: x in s ==> (keep(item(x)) <==> chosen(x))
    ensures Filter(Render(s, item), keep) == Render(Filter(s, chosen), item)
  {
    if s != [] {
      FilterOfRender(s[1..], item, keep, chosen);
      assert Render(s, item)[1..] == Render(s[1..], item);
    }
  }
}
