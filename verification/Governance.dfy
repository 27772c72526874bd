/** The launch-governance collector's filters over import reviews and settlements, and what they find
  * right after the migrations. */
module Governance {
  import opened Wrappers
  import opened Text
  import opened Json
  import opened Schema
  import opened Migrations

  // ---- The filters ---------------------------------------------------------------------------------------

  /** An applied import that a second administrator reviewed. Identifiers are strings or null here. */
  predicate IndependentlyReviewed(x: Row, program: string) {
    && Get(x, "pilot_program_id") == JStr(program)
    && Get(x, "status") == JStr("applied")
    && Get(x, "review_status") == JStr("approved")
    && Truthy(Get(x, "reviewed_by_admin_id"))
    && Truthy(Get(x, "created_by_admin_id"))
    && Get(x, "reviewed_by_admin_id") != Get(x, "created_by_admin_id")
  }

  function ApprovedImports(imports: seq<Row>, program: string): seq<Row> {
    Filter(imports, (x: Row) => IndependentlyReviewed(x, program))
  }

  /** What an import in the result has been through. */
  lemma ApprovedAreReviewed(imports: seq<Row>, program: string, x: Row)
    ensures x in ApprovedImports(imports, program) <==>
            && x in imports
            && Get(x, "pilot_program_id") == JStr(program) && Get(x, "status") == JStr("applied")
            && Get(x, "review_status") == JStr("approved")
            && Truthy(Get(x, "reviewed_by_admin_id")) && Truthy(Get(x, "created_by_admin_id"))
            && Get(x, "reviewed_by_admin_id") != Get(x, "created_by_admin_id")
  {
    FilterKeeps(imports, (r: Row) => IndependentlyReviewed(r, program));
  }

  /** A reconciled settlement that was closed with every line matched; None when a count is not a number. */
  function ClosedSettlement(x: Row, program: string): Option<bool> {
    if Get(x, "pilot_program_id") != JStr(program) || Get(x, "status") != JStr("reconciled")
       || Get(x, "operations_status") != JStr("closed") then Some(false)
    else
      var mismatched := IntOrZero(Get(x, "mismatched_lines"));
      if mismatched.None? then None
      else if mismatched.value != 0 then Some(false)
      else
        var matched := IntOrZero(Get(x, "matched_lines"));
        var rows := IntOrZero(Get(x, "rows_count"));
        if matched.None? || rows.None? then None
        else Some(matched.value == rows.value && Truthy(Get(x, "closed_by_admin_id")))
  }

  function ClosedSettlements(settlements: seq<Row>, program: string): Option<seq<Row>> {
    if settlements == [] then Some([])
    else
      var first := ClosedSettlement(settlements[0], program);
      var rest := ClosedSettlements(settlements[1..], program);
      if first.None? || rest.None? then None
      else if first.value then Some([settlements[0]] + rest.value)
      else rest
  }

  /** What a settlement in the result has been through. */
  lemma {:induction false} ClosedAreMatched(settlements: seq<Row>, program: string, x: Row)
    requires ClosedSettlements(settlements, program).Some?
    ensures x in ClosedSettlements(settlements, program).value <==>
            && x in settlements
            && Get(x, "pilot_program_id") == JStr(program) && Get(x, "status") == JStr("reconciled")
            && Get(x, "operations_status") == JStr("closed") && Truthy(Get(x, "closed_by_admin_id"))
            && IntOrZero(Get(x, "mismatched_lines")) == Some(0)
            && IntOrZero(Get(x, "matched_lines")).Some?
            && IntOrZero(Get(x, "matched_lines")) == IntOrZero(Get(x, "rows_count"))
  {
    if settlements != [] {
      ClosedAreMatched(settlements[1..], program, x);
      assert settlements == [settlements[0]] + settlements[1..];
    }
  }

  // ---- How the API renders rows -----------------------------------------------------------------------------

  function IdText(id: Id): string { Decimal(id) }

  function OptionalId(id: Option<Id>): Json {
    if id.Some? then JStr(IdText(id.value)) else JNull
  }

  lemma IdsAreDistinguished(a: Option<Id>, b: Option<Id>)
    ensures OptionalId(a) == OptionalId(b) <==> a == b
    ensures Truthy(OptionalId(a)) <==> a.Some?
  {
    if a.Some? { ValueOfDecimal(a.value); }
    if b.Some? { ValueOfDecimal(b.value); }
  }

  /** The fields of ImportReviewItem that the filter reads; a row that is not there has none. */
  function ImportItem(t: map<Id, Import>, k: Id): Row {
    if k in t && t[k].review.Some? then
      map["pilot_program_id" := OptionalId(t[k].program),
          "status" := JStr(t[k].status),
          "review_status" := JStr(t[k].review.value.status),
          "rows_count" := JInt(t[k].rowsCount),
          "created_by_admin_id" := OptionalId(t[k].createdBy),
          "reviewed_by_admin_id" := OptionalId(t[k].review.value.reviewedBy)]
    else map[]
  }

  /** The fields of SettlementOperationsItem that the filter reads. */
  function SettlementItem(t: map<Id, Settlement>, k: Id): Row {
    if k in t && t[k].operations.Some? then
      map["pilot_program_id" := OptionalId(t[k].program),
          "status" := JStr(t[k].status),
          "operations_status" := JStr(t[k].operations.value.status),
          "rows_count" := JInt(t[k].rowsCount),
          "matched_lines" := JInt(t[k].matched),
          "mismatched_lines" := JInt(t[k].mismatched),
          "closed_by_admin_id" := OptionalId(t[k].operations.value.closedBy)]
    else map[]
  }

  /** The API's answer that lists these rows, in this order. */
  function ImportList(t: map<Id, Import>, order: seq<Id>): seq<Row> {
    Render(order, (k: Id) => ImportItem(t, k))
  }

  function SettlementList(t: map<Id, Settlement>, order: seq<Id>): seq<Row> {
    Render(order, (k: Id) => SettlementItem(t, k))
  }

  /** On any table the filter accepts a rendered import exactly when its row was applied in the program and
    * approved by a known person other than its known creator. */
  lemma RenderedImport(t: map<Id, Import>, k: Id, program: string)
    ensures IndependentlyReviewed(ImportItem(t, k), program) <==>
            && k in t && t[k].review.Some?
            && t[k].program.Some? && IdText(t[k].program.value) == program && t[k].status == "applied"
            && t[k].review.value.status == "approved"
            && t[k].review.value.reviewedBy.Some? && t[k].createdBy.Some?
            && t[k].review.value.reviewedBy != t[k].createdBy
  {
    if k in t && t[k].review.Some? {
      IdsAreDistinguished(t[k].review.value.reviewedBy, t[k].createdBy);
      IdsAreDistinguished(t[k].createdBy, t[k].review.value.reviewedBy);
    }
  }

  /** On any table the filter accepts a rendered settlement exactly when its row was reconciled in the program
    * with every line matched, and closed by a known person. */
  lemma RenderedSettlement(t: map<Id, Settlement>, k: Id, program: string)
    ensures ClosedSettlement(SettlementItem(t, k), program).Some?
    ensures ClosedSettlement(SettlementItem(t, k), program).value <==>
            && k in t && t[k].operations.Some?
            && t[k].program.Some? && IdText(t[k].program.value) == program && t[k].status == "reconciled"
            && t[k].operations.value.status == "closed" && t[k].operations.value.closedBy.Some?
            && t[k].mismatched == 0 && t[k].matched == t[k].rowsCount
  {
    if k in t && t[k].operations.Some? {
      IdsAreDistinguished(t[k].operations.value.closedBy, None);
    }
  }

  // ---- Right after the migrations ----------------------------------------------------------------------------

  /** Import k was applied before the migration, by someone other than its creator. */
  predicate AppliedByAnother(t: map<Id, Import>, k: Id, program: string) {
    && k in t
    && t[k].program.Some? && IdText(t[k].program.value) == program
    && t[k].status == "applied"
    && t[k].appliedBy.Some? && t[k].createdBy.Some? && t[k].appliedBy != t[k].createdBy
  }

  /** Those of the listed imports that were applied by someone other than their creator. */
  function Picked(t: map<Id, Import>, order: seq<Id>, program: string): seq<Id> {
    Filter(order, (k: Id) => AppliedByAnother(t, k, program))
  }

  lemma MigratedImport(t: map<Id, Import>, k: Id, program: string)
    ensures IndependentlyReviewed(ImportItem(Up23Imports(t), k), program) <==> AppliedByAnother(t, k, program)
  {
    if k in t {
      IdsAreDistinguished(t[k].appliedBy, t[k].createdBy);
      IdsAreDistinguished(t[k].createdBy, t[k].appliedBy);
    }
  }

  lemma MigratedImports(t: map<Id, Import>, order: seq<Id>, program: string)
    ensures ApprovedImports(ImportList(Up23Imports(t), order), program)
            == ImportList(Up23Imports(t), Picked(t, order, program))
  {
    var u := Up23Imports(t);
    var item := (k: Id) => ImportItem(u, k);
    var keep := (x: Row) => IndependentlyReviewed(x, program);
    var chosen := (k: Id) => AppliedByAnother(t, k, program);
    forall k | k in order ensures keep(item(k)) <==> chosen(k) { MigratedImport(t, k, program); }
    FilterOfRender(order, item, keep, chosen);
    assert ImportList(u, order) == Render(order, item);
    assert Picked(t, order, program) == Filter(order, chosen);
    assert ImportList(u, Picked(t, order, program)) == Render(Filter(order, chosen), item);
    assert ApprovedImports(ImportList(u, order), program) == Filter(Render(order, item), keep);
  }

  lemma {:induction false} NoneClosedInList(settlements: seq<Row>, program: string)
    requires forall x :: x in settlements ==> ClosedSettlement(x, program) == Some(false)
    ensures ClosedSettlements(settlements, program) == Some([])
  {
    if settlements != [] { NoneClosedInList(settlements[1..], program); }
  }

  lemma MigratedSettlement(t: map<Id, Settlement>, k: Id, program: string)
    ensures ClosedSettlement(SettlementItem(Up23Settlements(t), k), program) == Some(false)
  {
  }

  lemma MigratedSettlements(t: map<Id, Settlement>, order: seq<Id>, program: string)
    ensures ClosedSettlements(SettlementList(Up23Settlements(t), order), program) == Some([])
  {
    var list := SettlementList(Up23Settlements(t), order);
    forall x | x in list ensures ClosedSettlement(x, program) == Some(false) {
      var i :| 0 <= i < |list| && list[i] == x;
      MigratedSettlement(t, order[i], program);
    }
    NoneClosedInList(list, program);
  }

  /** What the collector makes of any 0022 database that has just been taken to 0025, in whatever order the
    * API lists its rows: the imports it accepts as independently reviewed are exactly the program's applied
    * imports whose applier and creator are both known and different, and no settlement counts as closed. */
  lemma JustMigrated(db: Db, now: int, imports: seq<Id>, settlements: seq<Id>, program: string)
    requires Valid(db, 22)
    ensures Up23(db, now).policies.Some? && Up24(Up23(db, now)).closes.Some? && Up24(Up23(db, now)).packs.Some?
    ensures var top := Up25(Up24(Up23(db, now)));
            && ApprovedImports(ImportList(top.imports, imports), program)
               == ImportList(top.imports, Picked(db.imports, imports, program))
            && ClosedSettlements(SettlementList(top.settlements, settlements), program) == Some([])
  {
    MigratedImports(db.imports, imports, program);
    MigratedSettlements(db.settlements, settlements, program);
  }

  /** The collector's import evidence, over the whole table. */
  lemma EvidenceJustMigrated(t: map<Id, Import>, order: seq<Id>, program: string)
    requires forall k :: k in order <==> k in t
    ensures ApprovedImports(ImportList(Up23Imports(t), order), program) == [] <==>
              forall k :: k in t ==> !AppliedByAnother(t, k, program)
  {
    MigratedImports(t, order, program);
    var chosen := (k: Id) => AppliedByAnother(t, k, program);
    FilterIsEmpty(order, chosen);
    assert Picked(t, order, program) == Filter(order, chosen);
  }
}
