/** Settings written as comma-separated lists: origins and hosts, the two validated category lists, and
  * the payment methods. */
module CommaLists {
  import opened Wrappers
  import opened Text

  // ---- Plain lists: `cors_origin_list`, `allowed_host_list` ----------------------------------------

  /** The trimmed pieces that are not empty. */
  function Trimmed(pieces: seq<string>): seq<string> {
    if pieces == [] then []
    else
      var t := Strip(pieces[|pieces| - 1]);
      Trimmed(pieces[..|pieces| - 1]) + (if t == "" then [] else [t])
  }

  function TokenList(value: string): seq<string> {
    Trimmed(Split(value))
  }

  /** A token that survives splitting and trimming unchanged. */
  predicate Clean(t: string) {
    t != "" && Trim(t) && ',' !in t
  }

  predicate AllClean(ts: seq<string>) {
    forall t :: t in ts ==> Clean(t)
  }

  lemma {:induction false} TrimmedAreClean(pieces: seq<string>)
    requires forall p :: p in pieces ==> ',' !in p
    ensures AllClean(Trimmed(pieces))
  {
    if pieces != [] {
      StripTrims(pieces[|pieces| - 1]);
      TrimmedAreClean(pieces[..|pieces| - 1]);
    }
  }

  lemma TokensAreClean(value: string)
    ensures AllClean(TokenList(value))
  {
    PiecesHaveNoComma(value);
    TrimmedAreClean(Split(value));
  }

  lemma CleanIsKept(t: string)
    requires Clean(t)
    ensures Strip(t) == t && t != ""
  {
    StripKeepsTrim(t);
  }

  lemma TrimmedSnoc(pieces: seq<string>, t: string)
    requires Strip(t) == t && t != ""
    ensures Trimmed(pieces + [t]) == Trimmed(pieces) + [t]
  {
    assert (pieces + [t])[..|pieces|] == pieces;
  }

  lemma {:induction false} TrimmedKeepsClean(ts: seq<string>)
    requires AllClean(ts)
    ensures Trimmed(ts) == ts
  {
    if ts != [] {
      var init, last := ts[..|ts| - 1], ts[|ts| - 1];
      assert ts == init + [last];
      assert Clean(last);
      CleanIsKept(last);
      TrimmedKeepsClean(init);
      TrimmedSnoc(init, last);
    }
  }

  lemma ReadsBack(ts: seq<string>)
    requires AllClean(ts)
    ensures TokenList(Join(ts)) == ts
    ensures ts != [] ==> Split(Join(ts)) == ts
  {
    if ts == [] {
      assert Split("") == [""];
      assert Trimmed([""]) == Trimmed([]) + [];
    } else {
      SplitOfJoin(ts);
      TrimmedKeepsClean(ts);
    }
  }

  /** Writing a parsed list out and parsing it again gives the same list. */
  lemma ListRoundTrip(value: string)
    ensures TokenList(Join(TokenList(value))) == TokenList(value)
  {
    TokensAreClean(value);
    ReadsBack(TokenList(value));
  }

  // ---- Validated lists -----------------------------------------------------------------------------

  datatype Rejection = Empty | Unsupported(tokens: set<string>)

  function Lowered(ts: seq<string>): (r: seq<string>)
    ensures |r| == |ts| && forall i :: 0 <= i < |ts| ==> r[i] == Lower(ts[i])
  {
    if ts == [] then [] else [Lower(ts[0])] + Lowered(ts[1..])
  }

  /** The first occurrence of each element, in order: the keys of `dict.fromkeys`. */
  function Dedupe(ts: seq<string>): seq<string> {
    if ts == [] then []
    else
      var earlier := Dedupe(ts[..|ts| - 1]);
      if ts[|ts| - 1] in earlier then earlier else earlier + [ts[|ts| - 1]]
  }

  function Normalized(value: string): seq<string> {
    Lowered(TokenList(value))
  }

  function Validate(value: string, allowed: set<string>): Result<string, Rejection> {
    var normalized := Normalized(value);
    if normalized == [] then Failure(Empty)
    else
      var invalid := (set t | t in normalized) - allowed;
      if invalid != {} then Failure(Unsupported(invalid))
      else Success(Join(Dedupe(normalized)))
  }

  const BUDGET_CATEGORIES: set<string> := {
    "operations", "marketing", "chef_onboarding", "delivery_supply", "contingency", "support", "technology"}

  const COST_TYPES: set<string> := {
    "chef_payout", "delivery_partner", "payment_processing", "packaging", "refund_fee", "customer_recovery",
    "other_variable"}

  /** `validate_expansion_budget_categories`. */
  function ValidateBudgetCategories(value: string): Result<string, Rejection> {
    Validate(value, BUDGET_CATEGORIES)
  }

  /** `validate_economics_required_cost_types`. */
  function ValidateCostTypes(value: string): Result<string, Rejection> {
    Validate(value, COST_TYPES)
  }

  // What the input says, without the pipeline: t is the trimmed lower-case form of a piece between
  // commas, and the piece is not blank.
  ghost predicate IsToken(value: string, t: string) {
    exists i :: 0 <= i < |Split(value)| && Strip(Split(value)[i]) != "" && t == Lower(Strip(Split(value)[i]))
  }

  lemma {:induction false} TrimmedMembers(pieces: seq<string>, t: string)
    ensures t in Trimmed(pieces) <==> exists i :: 0 <= i < |pieces| && Strip(pieces[i]) == t && t != ""
  {
    if pieces != [] {
      var n := |pieces| - 1;
      TrimmedMembers(pieces[..n], t);
      if i :| 0 <= i < n && Strip(pieces[..n][i]) == t && t != "" { assert pieces[i] == pieces[..n][i]; }
      if i :| 0 <= i <= n && Strip(pieces[i]) == t && t != "" {
        if i < n { assert pieces[..n][i] == pieces[i]; }
      }
    }
  }

  lemma NormalizedMembers(value: string, t: string)
    ensures t in Normalized(value) <==> IsToken(value, t)
  {
    var ts := TokenList(value);
    if t in Normalized(value) {
      var i :| 0 <= i < |ts| && t == Lower(ts[i]);
      TrimmedMembers(Split(value), ts[i]);
    }
    if IsToken(value, t) {
      var i :| 0 <= i < |Split(value)| && Strip(Split(value)[i]) != "" && t == Lower(Strip(Split(value)[i]));
      TrimmedMembers(Split(value), Strip(Split(value)[i]));
      var j :| 0 <= j < |ts| && ts[j] == Strip(Split(value)[i]);
      assert Normalized(value)[j] == t;
    }
  }

  predicate Distinct(ts: seq<string>) {
    forall i, j :: 0 <= i < j < |ts| ==> ts[i] != ts[j]
  }

  /** Position of the first occurrence. */
  function First(ts: seq<string>, t: string): (k: nat)
    requires t in ts
    ensures k < |ts| && ts[k] == t && t !in ts[..k]
  {
    if ts[0] == t then 0 else 1 + First(ts[1..], t)
  }

  lemma {:induction false} DedupeMembers(ts: seq<string>)
    ensures Distinct(Dedupe(ts))
    ensures forall t :: t in Dedupe(ts) <==> t in ts
  {
    if ts != [] {
      DedupeMembers(ts[..|ts| - 1]);
      assert ts == ts[..|ts| - 1] + [ts[|ts| - 1]];
    }
  }

  lemma {:induction false} DedupeKeepsDistinct(ts: seq<string>)
    requires Distinct(ts)
    ensures Dedupe(ts) == ts
  {
    if ts != [] {
      var earlier := ts[..|ts| - 1];
      DedupeKeepsDistinct(earlier);
      assert ts == earlier + [ts[|ts| - 1]];
    }
  }

  lemma {:induction false} FirstInPrefix(ts: seq<string>, n: nat, t: string)
    requires n <= |ts| && t in ts[..n]
    ensures First(ts, t) == First(ts[..n], t)
  {
    if ts[0] != t {
      assert ts[..n][1..] == ts[1..][..n - 1];
      FirstInPrefix(ts[1..], n - 1, t);
    }
  }

  /** The kept tokens stand in the order of their first occurrences. */
  lemma {:induction false} DedupeOrder(ts: seq<string>, i: nat, j: nat)
    requires i < j < |Dedupe(ts)|
    ensures Dedupe(ts)[i] in ts && Dedupe(ts)[j] in ts
    ensures First(ts, Dedupe(ts)[i]) < First(ts, Dedupe(ts)[j])
  {
    DedupeMembers(ts);
    var n := |ts| - 1;
    var earlier := Dedupe(ts[..n]);
    DedupeMembers(ts[..n]);
    assert Dedupe(ts)[i] == earlier[i];
    FirstInPrefix(ts, n, earlier[i]);
    if j < |earlier| {
      DedupeOrder(ts[..n], i, j);
      FirstInPrefix(ts, n, earlier[j]);
    } else {
      assert Dedupe(ts)[j] == ts[n] && ts[n] !in ts[..n];
    }
  }

  lemma LowerKeepsClean(t: string)
    requires Clean(t)
    ensures Clean(Lower(t)) && Lower(Lower(t)) == Lower(t)
  {
    LowerTwice(t);
  }

  predicate AllLower(ts: seq<string>) {
    forall t :: t in ts ==> Lower(t) == t
  }

  lemma NormalizedAreClean(value: string)
    ensures AllClean(Normalized(value)) && AllLower(Normalized(value))
  {
    TokensAreClean(value);
    var ts := TokenList(value);
    forall u | u in Normalized(value) ensures Clean(u) && Lower(u) == u {
      var i :| 0 <= i < |ts| && u == Lower(ts[i]);
      LowerKeepsClean(ts[i]);
    }
  }

  lemma {:induction false} LoweredKeeps(ts: seq<string>)
    requires AllLower(ts)
    ensures Lowered(ts) == ts
  {
    assert forall i :: 0 <= i < |ts| ==> Lower(ts[i]) == ts[i];
  }

  /** A list is accepted exactly when it names something and names only allowed tokens; otherwise the
    * error says which of the two failed, and with which tokens. */
  lemma AcceptanceIsExact(value: string, allowed: set<string>)
    ensures Validate(value, allowed).Success? <==>
              (exists t :: IsToken(value, t)) && (forall t :: IsToken(value, t) ==> t in allowed)
    ensures Validate(value, allowed) == Failure(Empty) <==> !exists t :: IsToken(value, t)
    ensures Validate(value, allowed).Failure? && Validate(value, allowed).error.Unsupported? ==>
              forall t :: t in Validate(value, allowed).error.tokens <==> IsToken(value, t) && t !in allowed
  {
    var n := Normalized(value);
    forall t ensures t in n <==> IsToken(value, t) { NormalizedMembers(value, t); }
    if n != [] { assert n[0] in n; }
    var invalid := (set t | t in n) - allowed;
    if invalid != {} { var t :| t in invalid; }
    assert invalid == {} <==> forall t :: t in n ==> t in allowed by {
      if !(forall t :: t in n ==> t in allowed) { var t :| t in n && t !in allowed; assert t in invalid; }
    }
  }

  lemma OutputTokens(value: string)
    requires Normalized(value) != []
    ensures var d := Dedupe(Normalized(value));
            d != [] && AllClean(d) && AllLower(d) && Split(Join(d)) == d && TokenList(Join(d)) == d
  {
    var n := Normalized(value);
    var d := Dedupe(n);
    NormalizedAreClean(value);
    DedupeMembers(n);
    assert n[0] in d;
    ReadsBack(d);
  }

  /** An accepted list is stored as its distinct tokens, all of them, in the order of their first
    * occurrence. */
  lemma AcceptedOutput(value: string, allowed: set<string>)
    requires Validate(value, allowed).Success?
    ensures var out := Split(Validate(value, allowed).value);
            && Distinct(out)
            && (forall t :: t in out <==> IsToken(value, t))
            && (forall t :: t in out <==> t in Normalized(value))
            && (forall i, j :: 0 <= i < j < |out| ==>
                  First(Normalized(value), out[i]) < First(Normalized(value), out[j]))
  {
    var n := Normalized(value);
    OutputTokens(value);
    DedupeMembers(n);
    forall t ensures t in n <==> IsToken(value, t) { NormalizedMembers(value, t); }
    forall i, j | 0 <= i < j < |Dedupe(n)| ensures First(n, Dedupe(n)[i]) < First(n, Dedupe(n)[j]) {
      DedupeOrder(n, i, j);
    }
  }

  lemma AllowedThroughout(ts: seq<string>, allowed: set<string>)
    ensures (set t | t in ts) - allowed == {} <==> forall t :: t in ts ==> t in allowed
  {
    forall t | t in ts && t !in allowed ensures (set u | u in ts) - allowed != {} {
      assert t in (set u | u in ts) - allowed;
    }
  }

  /** Validating an accepted setting again returns it unchanged, whatever the allowed tokens are. */
  lemma ValidateTwice(value: string, allowed: set<string>)
    requires Validate(value, allowed).Success?
    ensures Validate(Validate(value, allowed).value, allowed) == Validate(value, allowed)
  {
    var n := Normalized(value);
    var d := Dedupe(n);
    OutputTokens(value);
    LoweredKeeps(d);
    DedupeMembers(n);
    DedupeKeepsDistinct(d);
    AllowedThroughout(n, allowed);
    AllowedThroughout(d, allowed);
  }

  /** Both validated settings are stable: what they store is what they accept. */
  lemma SettingsAreStable(value: string)
    ensures ValidateBudgetCategories(value).Success? ==>
              ValidateBudgetCategories(ValidateBudgetCategories(value).value) == ValidateBudgetCategories(value)
    ensures ValidateCostTypes(value).Success? ==>
              ValidateCostTypes(ValidateCostTypes(value).value) == ValidateCostTypes(value)
  {
    if ValidateBudgetCategories(value).Success? { ValidateTwice(value, BUDGET_CATEGORIES); }
    if ValidateCostTypes(value).Success? { ValidateTwice(value, COST_TYPES); }
  }

  // ---- Case, and what the settings accept ----------------------------------------------------------

  lemma {:induction false} LoweredOfSame(pieces: seq<string>, others: seq<string>)
    requires |pieces| == |others| && forall i :: 0 <= i < |pieces| ==> SameButCase(pieces[i], others[i])
    ensures Lowered(Trimmed(pieces)) == Lowered(Trimmed(others))
  {
    if pieces != [] {
      var n := |pieces| - 1;
      LoweredOfSame(pieces[..n], others[..n]);
      StripOfSame(pieces[n], others[n]);
      LowerOfSame(Strip(pieces[n]), Strip(others[n]));
      LoweredAppend(Trimmed(pieces[..n]), Strip(pieces[n]));
      LoweredAppend(Trimmed(others[..n]), Strip(others[n]));
    }
  }

  lemma LoweredAppend(ts: seq<string>, t: string)
    ensures Lowered(ts + [t]) == Lowered(ts) + [Lower(t)]
    ensures Lowered(ts + []) == Lowered(ts)
  {
    assert ts + [] == ts;
  }

  /** Values that differ only in the case of ASCII letters are validated alike. */
  lemma CaseDoesNotMatter(value: string, other: string, allowed: set<string>)
    requires SameButCase(value, other)
    ensures Validate(value, allowed) == Validate(other, allowed)
  {
    SplitOfSame(value, other);
    LoweredOfSame(Split(value), Split(other));
  }

  /** A list of allowed tokens, written once each in lower case, is accepted as it is written. */
  lemma WrittenListsAreKept(ts: seq<string>, allowed: set<string>)
    requires ts != [] && AllClean(ts) && AllLower(ts) && Distinct(ts) && forall t :: t in ts ==> t in allowed
    ensures Validate(Join(ts), allowed) == Success(Join(ts))
  {
    ReadsBack(ts);
    LoweredKeeps(ts);
    DedupeKeepsDistinct(ts);
    AllowedThroughout(ts, allowed);
  }

  /** Small letters and underscores only. */
  predicate Plain(t: string) {
    t != "" && forall i :: 0 <= i < |t| ==> 'a' <= t[i] <= 'z' || t[i] == '_'
  }

  lemma PlainIsClean(t: string)
    requires Plain(t)
    ensures Clean(t) && Lower(t) == t
  {
    assert forall i :: 0 <= i < |t| ==> Lower(t)[i] == t[i];
  }

  lemma PlainListsAreKept(ts: seq<string>, allowed: set<string>)
    requires ts != [] && Distinct(ts) && forall t :: t in ts ==> Plain(t) && t in allowed
    ensures Validate(Join(ts), allowed) == Success(Join(ts))
  {
    forall t | t in ts ensures Clean(t) && Lower(t) == t { PlainIsClean(t); }
    WrittenListsAreKept(ts, allowed);
  }

  lemma BudgetCategoriesArePlain(t: string)
    requires t in BUDGET_CATEGORIES
    ensures Plain(t)
  {
  }

  lemma CostTypesArePlain(t: string)
    requires t in COST_TYPES
    ensures Plain(t)
  {
  }

  /** Every list of allowed tokens without repetition is accepted, and kept as it is written. */
  lemma AllowedListsAreKept(ts: seq<string>)
    requires ts != [] && Distinct(ts)
    ensures (forall t :: t in ts ==> t in BUDGET_CATEGORIES) ==> ValidateBudgetCategories(Join(ts)) == Success(Join(ts))
    ensures (forall t :: t in ts ==> t in COST_TYPES) ==> ValidateCostTypes(Join(ts)) == Success(Join(ts))
  {
    if forall t :: t in ts ==> t in BUDGET_CATEGORIES {
      forall t | t in ts ensures Plain(t) { BudgetCategoriesArePlain(t); }
      PlainListsAreKept(ts, BUDGET_CATEGORIES);
    }
    if forall t :: t in ts ==> t in COST_TYPES {
      forall t | t in ts ensures Plain(t) { CostTypesArePlain(t); }
      PlainListsAreKept(ts, COST_TYPES);
    }
  }

  const BUDGET_DEFAULT := ["operations", "chef_onboarding", "delivery_supply", "contingency"]

  const COST_TYPES_DEFAULT := ["chef_payout", "delivery_partner", "payment_processing"]

  lemma DefaultTokens()
    ensures Distinct(BUDGET_DEFAULT) && forall t :: t in BUDGET_DEFAULT ==> t in BUDGET_CATEGORIES
    ensures Distinct(COST_TYPES_DEFAULT) && forall t :: t in COST_TYPES_DEFAULT ==> t in COST_TYPES
  {
  }

  lemma JoinOfThree(a: string, b: string, c: string)
    ensures Join([a, b, c]) == a + "," + b + "," + c
  {
    assert [a, b, c][1..] == [b, c] && [b, c][1..] == [c];
    assert Join([b, c]) == b + "," + c;
    assert a + "," + (b + "," + c) == a + "," + b + "," + c;
  }

  lemma JoinOfFour(a: string, b: string, c: string, d: string)
    ensures Join([a, b, c, d]) == a + "," + b + "," + c + "," + d
  {
    assert [a, b, c, d][1..] == [b, c, d];
    JoinOfThree(b, c, d);
    assert a + "," + (b + "," + c + "," + d) == a + "," + b + "," + c + "," + d;
  }

  /** Both settings accept their own default value, and keep it as it is. */
  lemma DefaultsAreAccepted()
    ensures var value := "operations" + "," + "chef_onboarding" + "," + "delivery_supply" + "," + "contingency";
            ValidateBudgetCategories(value) == Success(value)
    ensures var value := "chef_payout" + "," + "delivery_partner" + "," + "payment_processing";
            ValidateCostTypes(value) == Success(value)
  {
    DefaultTokens();
    AllowedListsAreKept(BUDGET_DEFAULT);
    JoinOfFour("operations", "chef_onboarding", "delivery_supply", "contingency");
    AllowedListsAreKept(COST_TYPES_DEFAULT);
    JoinOfThree("chef_payout", "delivery_partner", "payment_processing");
  }

  // ---- Payment methods -----------------------------------------------------------------------------

  datatype Method = Number(n: nat) | Name(s: string)

  datatype BadNumber = BadNumber

  function MethodOf(t: string): Result<Method, BadNumber> {
    if AllDigits(t) then (if |t| <= MAX_INT_DIGITS then Success(Number(Value(t))) else Failure(BadNumber))
    else Success(Name(t))
  }

  function MethodsOf(ts: seq<string>): Result<seq<Method>, BadNumber> {
    if ts == [] then Success([])
    else
      var earlier := MethodsOf(ts[..|ts| - 1]);
      if earlier.Failure? then earlier
      else
        var m := MethodOf(ts[|ts| - 1]);
        if m.Failure? then Failure(m.error) else Success(earlier.value + [m.value])
  }

  /** `paymob_payment_method_list`: the pieces are read one by one, blank ones skipped. */
  method PaymentMethodList(value: string) returns (r: Result<seq<Method>, BadNumber>)
    ensures r == MethodsOf(TokenList(value))
  {
    var values: seq<Method> := [];
    var pieces := Split(value);
    for i := 0 to |pieces|
      invariant MethodsOf(Trimmed(pieces[..i])) == Success(values)
    {
      var item := Strip(pieces[i]);
      OneMorePiece(pieces, i);
      if item == "" {
        continue;
      }
      if AllDigits(item) {
        if |item| > MAX_INT_DIGITS {
          BadStaysBad(pieces, i + 1);
          return Failure(BadNumber);
        }
        values := values + [Number(Value(item))];
      } else {
        values := values + [Name(item)];
      }
    }
    assert pieces[..|pieces|] == pieces;
    r := Success(values);
  }

  lemma OneMorePiece(pieces: seq<string>, i: nat)
    requires i < |pieces|
    ensures var t := Strip(pieces[i]); var before := MethodsOf(Trimmed(pieces[..i]));
            MethodsOf(Trimmed(pieces[..i + 1])) ==
            if t == "" || before.Failure? then before
            else if MethodOf(t).Failure? then Failure(BadNumber)
            else Success(before.value + [MethodOf(t).value])
  {
    assert pieces[..i + 1][..i] == pieces[..i];
    var t := Strip(pieces[i]);
    var before := Trimmed(pieces[..i]);
    if t == "" {
      assert Trimmed(pieces[..i + 1]) == before;
    } else {
      assert Trimmed(pieces[..i + 1]) == before + [t];
      assert (before + [t])[..|before|] == before;
    }
  }

  lemma {:induction false} BadStaysBad(pieces: seq<string>, k: nat)
    requires k <= |pieces| && MethodsOf(Trimmed(pieces[..k])).Failure?
    ensures MethodsOf(Trimmed(pieces)) == Failure(BadNumber)
    decreases |pieces| - k
  {
    if k == |pieces| {
      assert pieces[..k] == pieces;
      assert MethodsOf(Trimmed(pieces)).error == BadNumber;
    } else {
      OneMorePiece(pieces, k);
      BadStaysBad(pieces, k + 1);
    }
  }

  function Shown(m: Method): string {
    match m case Number(n) => Decimal(n) case Name(s) => s
  }

  function AllShown(ms: seq<Method>): (r: seq<string>)
    ensures |r| == |ms| && forall i :: 0 <= i < |ms| ==> r[i] == Shown(ms[i])
  {
    if ms == [] then [] else AllShown(ms[..|ms| - 1]) + [Shown(ms[|ms| - 1])]
  }

  /** Token by token: digits become the number they denote, anything else stays as it is; the list fails
    * exactly when some digit string is too long to convert. */
  lemma {:induction false} MethodsAreTokens(ts: seq<string>)
    ensures MethodsOf(ts).Failure? <==> exists i :: 0 <= i < |ts| && AllDigits(ts[i]) && |ts[i]| > MAX_INT_DIGITS
    ensures MethodsOf(ts).Success? ==> |MethodsOf(ts).value| == |ts|
    ensures MethodsOf(ts).Success? ==> forall i :: 0 <= i < |ts| ==>
              MethodsOf(ts).value[i] == (if AllDigits(ts[i]) then Number(Value(ts[i])) else Name(ts[i]))
  {
    if ts != [] {
      var earlier := ts[..|ts| - 1];
      MethodsAreTokens(earlier);
      if i :| 0 <= i < |earlier| && AllDigits(earlier[i]) && |earlier[i]| > MAX_INT_DIGITS {
        assert ts[i] == earlier[i];
      }
      if i :| 0 <= i < |ts| && AllDigits(ts[i]) && |ts[i]| > MAX_INT_DIGITS {
        if i < |earlier| { assert earlier[i] == ts[i]; }
      }
    }
  }

  lemma DigitsAreClean(s: string)
    requires AllDigits(s)
    ensures Clean(s)
  {
    assert IsDigit(s[0]) && IsDigit(s[|s| - 1]);
    assert forall i :: 0 <= i < |s| ==> IsDigit(s[i]) && s[i] != ',';
  }

  lemma ShownIsClean(t: string)
    requires Clean(t) && MethodOf(t).Success?
    ensures Clean(Shown(MethodOf(t).value)) && MethodOf(Shown(MethodOf(t).value)) == MethodOf(t)
  {
    if AllDigits(t) {
      ValueOfDecimal(Value(t));
      DecimalIsShortest(t);
      DigitsAreClean(Decimal(Value(t)));
    }
  }

  lemma {:induction false} ShownReadsBack(ts: seq<string>)
    requires MethodsOf(ts).Success? && AllClean(ts)
    ensures AllClean(AllShown(MethodsOf(ts).value))
    ensures MethodsOf(AllShown(MethodsOf(ts).value)) == MethodsOf(ts)
  {
    if ts != [] {
      var ms := MethodsOf(ts).value;
      ShownReadsBack(ts[..|ts| - 1]);
      assert Clean(ts[|ts| - 1]);
      ShownIsClean(ts[|ts| - 1]);
      assert ms[..|ms| - 1] == MethodsOf(ts[..|ts| - 1]).value;
      var shown := AllShown(ms);
      assert shown[..|shown| - 1] == AllShown(ms[..|ms| - 1]);
    }
  }

  /** Printing a parsed payment-method list and parsing it again gives the same list. */
  lemma PaymentMethodsRoundTrip(value: string)
    requires MethodsOf(TokenList(value)).Success?
    ensures MethodsOf(TokenList(Join(AllShown(MethodsOf(TokenList(value)).value)))) == MethodsOf(TokenList(value))
  {
    TokensAreClean(value);
    ShownReadsBack(TokenList(value));
    ReadsBack(AllShown(MethodsOf(TokenList(value)).value));
  }
}
