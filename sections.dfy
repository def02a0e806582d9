/**
 * The data shaping of `create_project_document_from_json` that feeds the two
 * table builders: the column layout detected for each capital-cost section, the
 * rows of the maintenance financial plan and operations tables, and the rows of
 * the benefits table. Each is a pure specification of the rows, a method with
 * the source's loops that builds them by appending, and the emitted blocks.
 */
module Sections {
  import opened Wrappers
  import opened Text
  import opened JsonValue
  import opened Docx
  import opened Tables

  // ---------------------------------------------------------------------------
  // Capital cost: sub-header detection (sample2.py:507-525)
  // ---------------------------------------------------------------------------

  /** The columns chosen from a section's first record. */
  datatype CostLayout =
    | SubColumns(mains: seq<string>, subheaders: seq<Option<seq<string>>>)
    | PlainColumns(headers: seq<string>)

  /** `any(isinstance(value, dict) for value in first_data_item.values())`. */
  predicate HasDictValue(fields: seq<(string, Json)>) {
    exists i :: 0 <= i < |fields| && fields[i].1.JObj?
  }

  /** `list(value.keys())` for a dict value, `None` for any other. */
  function SubheaderOf(v: Json): (r: Option<seq<string>>)
    ensures r.Some? <==> v.JObj?
  {
    if v.JObj? then Some(Keys(v.fields)) else None
  }

  function SubheadersOf(fields: seq<(string, Json)>): (s: seq<Option<seq<string>>>)
    ensures |s| == |fields|
  {
    seq(|fields|, i requires 0 <= i < |fields| => SubheaderOf(fields[i].1))
  }

  /** The layout of a section's table, from its first record; `.values()` raises on a non-dict. */
  function CostLayoutOf(first: Json): (r: Result<CostLayout>)
    ensures r.Raised? <==> !first.JObj?
    ensures r.Raised? ==> r.error == AttributeError
  {
    if !first.JObj? then Raised(AttributeError)
    else if HasDictValue(first.fields) then Ok(SubColumns(Keys(first.fields), SubheadersOf(first.fields)))
    else Ok(PlainColumns(Keys(first.fields)))
  }

  /** The loop that fills `main_headers` and `subheaders` by appending. */
  method DetectColumns(fields: seq<(string, Json)>) returns (mains: seq<string>, subheaders: seq<Option<seq<string>>>)
    ensures mains == Keys(fields) && subheaders == SubheadersOf(fields)
  {
    mains, subheaders := [], [];
    for k := 0 to |fields|
      invariant mains == Keys(fields[..k]) && subheaders == SubheadersOf(fields[..k])
    {
      var (key, value) := fields[k];
      if value.JObj? {
        mains := mains + [key];
        subheaders := subheaders + [Some(Keys(value.fields))];
      } else {
        mains := mains + [key];
        subheaders := subheaders + [None];
      }
      assert fields[..k + 1][..k] == fields[..k];
    }
    assert fields[..|fields|] == fields;
  }

  /**
   * The table of a capital-cost section whose `data` entry is `data`: nothing for
   * a false value; `data[0]` raises on a dict (`KeyError`), leaves a one-character
   * string without `.values()` (`AttributeError`) and fails on a number (`TypeError`);
   * a list gets the layout of its first record, and a sub-columned layout the
   * corrected sub-column table (its second row is the sub-header row).
   */
  function CostTable(data: Json): (r: Emitted) {
    if Falsy(data) then Done([])
    else if data.JObj? then Emitted([], Some(KeyError))
    else if data.JStr? then Emitted([], Some(AttributeError))
    else if !data.JList? then Emitted([], Some(TypeError))
    else
      match CostLayoutOf(data.items[0])
      case Raised(e) => Emitted([], Some(e))
      case Ok(layout) =>
        if layout.SubColumns? then IntendedSubcolumnTable(layout.mains, data.items, Some(layout.subheaders))
        else PlainTable(layout.headers, data.items)
  }

  /** The detected layout pairs every key of the first record with its sub-columns, in order. */
  lemma CostLayoutShape(first: Json)
    requires first.JObj? && HasDictValue(first.fields)
    ensures var layout := CostLayoutOf(first).value;
      && layout.SubColumns?
      && |layout.mains| == |layout.subheaders| == |first.fields|
      && forall i :: 0 <= i < |first.fields| ==>
        layout.mains[i] == first.fields[i].0
        && (layout.subheaders[i].Some? <==> first.fields[i].1.JObj?)
  {
  }

  /** A sub-header row appears exactly when some value of the first record is a non-empty dict. */
  lemma CostSubHeaderRow(fields: seq<(string, Json)>)
    ensures AnyColumns(Normalize(SubheadersOf(fields))) <==>
      exists i :: 0 <= i < |fields| && fields[i].1.JObj? && fields[i].1.fields != []
  {
    var subs := Normalize(SubheadersOf(fields));
    if AnyColumns(subs) {
      var i :| 0 <= i < |subs| && subs[i] != [];
      assert fields[i].1.JObj? && fields[i].1.fields != [];
    }
    if exists i :: 0 <= i < |fields| && fields[i].1.JObj? && fields[i].1.fields != [] {
      var i :| 0 <= i < |fields| && fields[i].1.JObj? && fields[i].1.fields != [];
      assert |Keys(fields[i].1.fields)| == |fields[i].1.fields|;
      assert subs[i] != [];
    }
  }

  /**
   * The layout the caller builds always matches the header count, so the
   * capital-cost tables never raise the builder's `ValueError` or `TypeError`:
   * a list of records fails only on a non-dict record or an empty `Description` list.
   */
  lemma CostTableErrors(data: Json)
    requires data.JList?
    ensures CostTable(data).error in {None, Some(AttributeError), Some(IndexError)}
  {
    if !Falsy(data) && data.items[0].JObj? {
      var first := data.items[0];
      var mains := Keys(first.fields);
      if HasDictValue(first.fields) {
        var subheaders := SubheadersOf(first.fields);
        GridErrors(mains, Layout(mains, subheaders), JNull, data.items);
      } else {
        GridErrors(mains, NoSubs(|mains|), JStr(""), data.items);
      }
    }
  }

  /** Lines 507-525 for a section's `data` entry: detect the layout, then call the matching builder. */
  method AddCostTable(doc: Document, data: Json) returns (error: Option<PyError>)
    modifies doc
    ensures doc.blocks == old(doc.blocks) + CostTable(data).blocks
    ensures error == CostTable(data).error
  {
    if Falsy(data) {
      return None;
    }
    if data.JObj? {
      return Some(KeyError);
    }
    if data.JStr? {
      return Some(AttributeError);
    }
    if !data.JList? {
      return Some(TypeError);
    }
    var first := data.items[0];
    if !first.JObj? {
      return Some(AttributeError);
    }
    if HasDictValue(first.fields) {
      var mains, subheaders := DetectColumns(first.fields);
      error := CreateTableWithSubcolumns(doc, mains, data.items, Some(subheaders));
    } else {
      error := CreateTable(doc, Keys(first.fields), data.items);
    }
  }

  // ---------------------------------------------------------------------------
  // Maintenance costs: financial plan and operations (sample2.py:541-566)
  // ---------------------------------------------------------------------------

  const AmountHeader: string := "Amount (Rs. in million)"

  /** The columns of both maintenance tables. */
  const FinancialHeaders: seq<string> := ["Year", AmountHeader]
  const OperationsHeaders: seq<string> := ["Description", AmountHeader]

  /** `"Year" in key or "Total Cost" in key`. */
  predicate YearKey(key: string) {
    Contains(key, "Year") || Contains(key, "Total Cost")
  }

  /** `{"Year": key, "Amount (Rs. in million)": value}`. */
  function YearRow(key: string, value: Json): Json {
    JObj([("Year", JStr(key)), (AmountHeader, value)])
  }

  /** The rows one financial-plan record contributes: its year and total keys, in order. */
  function KeptRows(fields: seq<(string, Json)>): seq<Json> {
    if fields == [] then []
    else
      var last := fields[|fields| - 1];
      KeptRows(fields[..|fields| - 1]) + (if YearKey(last.0) then [YearRow(last.0, last.1)] else [])
  }

  /** Every kept row comes from a year or total key of the record, and every such key gives one. */
  lemma {:induction false} KeptRowsExact(fields: seq<(string, Json)>)
    ensures forall r :: r in KeptRows(fields) ==>
      exists j :: 0 <= j < |fields| && YearKey(fields[j].0) && r == YearRow(fields[j].0, fields[j].1)
    ensures forall j :: 0 <= j < |fields| && YearKey(fields[j].0) ==> YearRow(fields[j].0, fields[j].1) in KeptRows(fields)
  {
    if fields != [] {
      var n := |fields| - 1;
      var init := fields[..n];
      KeptRowsExact(init);
      forall r | r in KeptRows(fields)
        ensures exists j :: 0 <= j < |fields| && YearKey(fields[j].0) && r == YearRow(fields[j].0, fields[j].1)
      {
        if r in KeptRows(init) {
          var j :| 0 <= j < |init| && YearKey(init[j].0) && r == YearRow(init[j].0, init[j].1);
          assert fields[j] == init[j];
        } else {
          assert r == YearRow(fields[n].0, fields[n].1);
        }
      }
      forall j | 0 <= j < |fields| && YearKey(fields[j].0)
        ensures YearRow(fields[j].0, fields[j].1) in KeptRows(fields)
      {
        if j < n {
          assert init[j] == fields[j];
        }
      }
    }
  }

  /** The financial-plan rows: each record's kept rows in record order; `.items()` raises on a non-dict record. */
  function FinancialRows(items: seq<Json>): (r: Result<seq<Json>>)
    ensures r.Raised? ==> r.error == AttributeError
  {
    if items == [] then Ok([])
    else
      var init := FinancialRows(items[..|items| - 1]);
      var last := items[|items| - 1];
      if init.Raised? then init
      else if !last.JObj? then Raised(AttributeError)
      else Ok(init.value + KeptRows(last.fields))
  }

  /** Every financial-plan row is a record, so the table built from them never raises. */
  lemma {:induction false} FinancialRowsWellFormed(items: seq<Json>)
    requires FinancialRows(items).Ok?
    ensures forall r :: 0 <= r < |FinancialRows(items).value| ==> PlainRecord(FinancialHeaders, FinancialRows(items).value[r])
  {
    if items != [] {
      var n := |items| - 1;
      FinancialRowsWellFormed(items[..n]);
      var init := FinancialRows(items[..n]).value;
      var kept := KeptRows(items[n].fields);
      KeptRowsExact(items[n].fields);
      var rows := FinancialRows(items).value;
      assert rows == init + kept;
      forall r | 0 <= r < |rows|
        ensures PlainRecord(FinancialHeaders, rows[r])
      {
        if r >= |init| {
          assert rows[r] == kept[r - |init|] && rows[r] in kept;
        }
      }
    }
  }

  /** The inner loop: append the record's year and total keys to `rows`. */
  method AppendKept(rows: seq<Json>, fields: seq<(string, Json)>) returns (out: seq<Json>)
    ensures out == rows + KeptRows(fields)
  {
    out := rows;
    for k := 0 to |fields|
      invariant out == rows + KeptRows(fields[..k])
    {
      assert fields[..k + 1][..k] == fields[..k];
      var (key, value) := fields[k];
      if Contains(key, "Year") || Contains(key, "Total Cost") {
        out := out + [YearRow(key, value)];
      }
    }
    assert fields[..|fields|] == fields;
  }

  /** Lines 544-550: `table_data` filled by appending, record by record. */
  method BuildFinancialRows(items: seq<Json>) returns (r: Result<seq<Json>>)
    ensures r == FinancialRows(items)
  {
    var rows := [];
    for k := 0 to |items|
      invariant FinancialRows(items[..k]) == Ok(rows)
    {
      assert items[..k + 1][..k] == items[..k];
      if !items[k].JObj? {
        FinancialStops(items, k + 1);
        return Raised(AttributeError);
      }
      rows := AppendKept(rows, items[k].fields);
    }
    assert items[..|items|] == items;
    return Ok(rows);
  }

  /** Once a prefix of the records raises, the whole list does. */
  lemma {:induction false} FinancialStops(items: seq<Json>, k: nat)
    requires k <= |items| && FinancialRows(items[..k]).Raised?
    ensures FinancialRows(items) == FinancialRows(items[..k])
    decreases |items| - k
  {
    if k < |items| {
      assert items[..|items| - 1][..k] == items[..k];
      FinancialStops(items[..|items| - 1], k);
    } else {
      assert items[..k] == items;
    }
  }

  /**
   * `zip(operations.get('description', []), operations.get('Amount', []))` as
   * records: the i-th description with the i-th amount, up to the shorter list.
   */
  function OperationsRows(ops: Json): (r: Result<seq<Json>>)
    ensures ops.JObj? <==> r.Ok? || r.error == TypeError
    ensures !ops.JObj? ==> r == Raised(AttributeError)
  {
    match Get(ops, "description", JList([]))
    case Raised(e) => Raised(e)
    case Ok(d) =>
      match Get(ops, "Amount", JList([]))
      case Raised(e) => Raised(e)
      case Ok(a) =>
        match Iterate(d)
        case Raised(e) => Raised(e)
        case Ok(ds) =>
          match Iterate(a)
          case Raised(e) => Raised(e)
          case Ok(amounts) =>
            var n := if |ds| < |amounts| then |ds| else |amounts|;
            Ok(seq(n, i requires 0 <= i < n => JObj([("Description", ds[i]), (AmountHeader, amounts[i])])))
  }

  /** Two lists pair up index by index, up to the shorter one. */
  lemma OperationsZip(ops: Json, ds: seq<Json>, amounts: seq<Json>)
    requires ops.JObj?
    requires Find(ops.fields, "description") == Some(JList(ds)) && Find(ops.fields, "Amount") == Some(JList(amounts))
    ensures OperationsRows(ops).Ok?
    ensures |OperationsRows(ops).value| == (if |ds| < |amounts| then |ds| else |amounts|)
    ensures forall i :: 0 <= i < |OperationsRows(ops).value| ==>
      OperationsRows(ops).value[i] == JObj([("Description", ds[i]), (AmountHeader, amounts[i])])
  {
    assert Iterate(JList(ds)) == Ok(ds) && Iterate(JList(amounts)) == Ok(amounts);
  }

  /**
   * Two lists of descriptions and amounts give one operations row per pair,
   * the shorter list deciding the count; the amount column is the formatted amount.
   */
  lemma OperationsTable(ops: Json, ds: seq<Json>, amounts: seq<Json>)
    requires ops.JObj?
    requires Find(ops.fields, "description") == Some(JList(ds)) && Find(ops.fields, "Amount") == Some(JList(amounts))
    requires forall i :: 0 <= i < |ds| ==> ds[i] != JList([])
    requires ds != [] && amounts != []
    ensures var rows := OperationsRows(ops).value;
      && OperationsRows(ops).Ok?
      && PlainTable(OperationsHeaders, rows).error == None
      && |PlainTable(OperationsHeaders, rows).blocks[0].body| == (if |ds| < |amounts| then |ds| else |amounts|)
      && forall i :: 0 <= i < |rows| ==>
        |PlainTable(OperationsHeaders, rows).blocks[0].body[i]| == 2
        && PlainTable(OperationsHeaders, rows).blocks[0].body[i][1] == PyStr(Numbers.FormatNumber(amounts[i]))
  {
    OperationsZip(ops, ds, amounts);
    var rows := OperationsRows(ops).value;
    forall r | 0 <= r < |rows|
      ensures PlainRecord(OperationsHeaders, rows[r]) && PlainCell(AmountHeader, rows[r]) == PyStr(Numbers.FormatNumber(amounts[r]))
    {
      OperationsRecord(ds[r], amounts[r]);
    }
    PlainTableCells(OperationsHeaders, rows);
  }

  /** One zipped pair is a well-formed record whose amount cell is the formatted amount. */
  lemma OperationsRecord(d: Json, amount: Json)
    requires d != JList([])
    ensures var row := JObj([("Description", d), (AmountHeader, amount)]);
      PlainRecord(OperationsHeaders, row) && PlainCell(AmountHeader, row) == PyStr(Numbers.FormatNumber(amount))
  {
    var row := JObj([("Description", d), (AmountHeader, amount)]);
    assert Find(row.fields, "Description") == Some(d);
    assert Find(row.fields, AmountHeader) == Some(amount);
  }

  /** The financial-plan part: its heading, then its table unless no key is a year or total. */
  function FinancialPlanBlocks(plan: Json): (r: Emitted)
    ensures r.blocks != [] && r.blocks[0] == BoldPara("Financial Plan:")
  {
    Then(Done([BoldPara("Financial Plan:")]),
      match Iterate(plan)
      case Raised(e) => Emitted([], Some(e))
      case Ok(items) =>
        match FinancialRows(items)
        case Raised(e) => Emitted([], Some(e))
        case Ok(rows) => if rows == [] then Done([]) else PlainTable(FinancialHeaders, rows))
  }

  /** The operations part: its heading, then its table unless the zipped lists are empty. */
  function OperationsBlocks(ops: Json): (r: Emitted)
    ensures r.blocks != [] && r.blocks[0] == BoldPara("Operations Costs:")
  {
    Then(Done([BoldPara("Operations Costs:")]),
      match OperationsRows(ops)
      case Raised(e) => Emitted([], Some(e))
      case Ok(rows) => if rows == [] then Done([]) else PlainTable(OperationsHeaders, rows))
  }

  /**
   * What the maintenance section appends for its decoded data: the financial
   * plan when present and non-empty, otherwise the operations costs when present
   * and non-empty, otherwise nothing.
   */
  function MaintenanceBlocks(data: Json): (r: Emitted) {
    if !data.JObj? then Done([])
    else
      var plan := Find(data.fields, "financialPlan");
      var ops := Find(data.fields, "operations");
      if plan.Some? && !Falsy(plan.value) then FinancialPlanBlocks(plan.value)
      else if ops.Some? && !Falsy(ops.value) then OperationsBlocks(ops.value)
      else Done([])
  }

  /** A financial plan of dict records gives its heading, and a table exactly when some key is a year or total. */
  lemma FinancialPlanSection(items: seq<Json>)
    requires items != [] && forall k :: 0 <= k < |items| ==> items[k].JObj?
    ensures FinancialPlanBlocks(JList(items)).error == None
    ensures |FinancialPlanBlocks(JList(items)).blocks| == 2 <==> FinancialRows(items).value != []
  {
    FinancialOk(items);
    var rows := FinancialRows(items).value;
    assert Iterate(JList(items)) == Ok(items);
    if rows != [] {
      FinancialRowsWellFormed(items);
      PlainTableCells(FinancialHeaders, rows);
    }
  }

  lemma {:induction false} FinancialOk(items: seq<Json>)
    requires forall k :: 0 <= k < |items| ==> items[k].JObj?
    ensures FinancialRows(items).Ok?
  {
    if items != [] {
      FinancialOk(items[..|items| - 1]);
    }
  }

  /** Lines 542-553, appending to the document. */
  method AddFinancialPlan(doc: Document, plan: Json) returns (error: Option<PyError>)
    modifies doc
    ensures doc.blocks == old(doc.blocks) + FinancialPlanBlocks(plan).blocks
    ensures error == FinancialPlanBlocks(plan).error
  {
    doc.Add(BoldPara("Financial Plan:"));
    var items := Iterate(plan);
    if items.Raised? {
      return Some(items.error);
    }
    var rows := BuildFinancialRows(items.value);
    if rows.Raised? {
      return Some(rows.error);
    }
    if rows.value == [] {
      return None;
    }
    error := CreateTable(doc, FinancialHeaders, rows.value);
    AppendAssoc(old(doc.blocks), [BoldPara("Financial Plan:")], PlainTable(FinancialHeaders, rows.value).blocks);
  }

  /** Lines 555-566, appending to the document. */
  method AddOperations(doc: Document, ops: Json) returns (error: Option<PyError>)
    modifies doc
    ensures doc.blocks == old(doc.blocks) + OperationsBlocks(ops).blocks
    ensures error == OperationsBlocks(ops).error
  {
    doc.Add(BoldPara("Operations Costs:"));
    var rows := OperationsRows(ops);
    if rows.Raised? {
      return Some(rows.error);
    }
    if rows.value == [] {
      return None;
    }
    error := CreateTable(doc, OperationsHeaders, rows.value);
    AppendAssoc(old(doc.blocks), [BoldPara("Operations Costs:")], PlainTable(OperationsHeaders, rows.value).blocks);
  }

  /** Lines 541-566: the financial plan takes precedence over the operations costs. */
  method AddMaintenance(doc: Document, data: Json) returns (error: Option<PyError>)
    modifies doc
    ensures doc.blocks == old(doc.blocks) + MaintenanceBlocks(data).blocks
    ensures error == MaintenanceBlocks(data).error
  {
    if !data.JObj? {
      return None;
    }
    var plan := Find(data.fields, "financialPlan");
    var ops := Find(data.fields, "operations");
    if plan.Some? && !Falsy(plan.value) {
      error := AddFinancialPlan(doc, plan.value);
    } else if ops.Some? && !Falsy(ops.value) {
      error := AddOperations(doc, ops.value);
    } else {
      error := None;
    }
  }

  // ---------------------------------------------------------------------------
  // Benefits (sample2.py:581-612)
  // ---------------------------------------------------------------------------

  /** The thirteen columns of the project components table. */
  const BenefitsHeaders: seq<string> := [
    "S.No.", "Input", "Component", "Units",
    "Year 1 Amount", "Year 1 Division",
    "Year 2 Amount", "Year 2 Division",
    "Year 3 Amount", "Year 3 Division",
    "Baseline Indicator", "Post Completion Targets",
    "Key Benefits"]

  /** For each column, the chain of keys its value is read through. */
  const BenefitPaths: seq<seq<string>> := [
    ["serial_number"], ["input"],
    ["outcome", "component_name"], ["outcome", "units"],
    ["year_wise_phasing", "year_1", "amount"], ["year_wise_phasing", "year_1", "division_of_total_items"],
    ["year_wise_phasing", "year_2", "amount"], ["year_wise_phasing", "year_2", "division_of_total_items"],
    ["year_wise_phasing", "year_3", "amount"], ["year_wise_phasing", "year_3", "division_of_total_items"],
    ["outcome_metrics", "baseline_indicator"], ["targeted_impact", "post_completion_targets"],
    ["impact_details", "key_benefits"]]

  /**
   * `v.get(k1, {}).get(k2, {}) ... .get(kn, '')`: every step raises on a value
   * that is not a dict; a missing key gives `{}` in the middle and `''` at the end.
   */
  function Dig(v: Json, path: seq<string>): Result<Json>
    requires path != []
    decreases |path|
  {
    if |path| == 1 then Get(v, path[0], JStr(""))
    else
      match Get(v, path[0], JObj([]))
      case Raised(e) => Raised(e)
      case Ok(w) => Dig(w, path[1..])
  }

  /** A missing section reads as `''` however deep the path goes. */
  lemma {:induction false} DigMissing(fields: seq<(string, Json)>, path: seq<string>)
    requires path != [] && Find(fields, path[0]) == None
    ensures Dig(JObj(fields), path) == Ok(JStr(""))
  {
    if |path| > 1 {
      DigEmpty(path[1..]);
    }
  }

  lemma {:induction false} DigEmpty(path: seq<string>)
    requires path != []
    ensures Dig(JObj([]), path) == Ok(JStr(""))
    decreases |path|
  {
    if |path| > 1 {
      DigEmpty(path[1..]);
    }
  }

  /** The first `k` entries of a component's row, in the order the dict literal evaluates them. */
  function BenefitFields(item: Json, k: nat): (r: Result<seq<(string, Json)>>)
    requires k <= |BenefitsHeaders|
    ensures r.Ok? ==> |r.value| == k
  {
    if k == 0 then Ok([])
    else
      match BenefitFields(item, k - 1)
      case Raised(e) => Raised(e)
      case Ok(init) =>
        match Dig(item, BenefitPaths[k - 1])
        case Raised(e) => Raised(e)
        case Ok(v) => Ok(init + [(BenefitsHeaders[k - 1], v)])
  }

  /** The record appended for one project component. */
  function BenefitRow(item: Json): Result<Json> {
    match BenefitFields(item, |BenefitsHeaders|)
    case Raised(e) => Raised(e)
    case Ok(fields) => Ok(JObj(fields))
  }

  /** A built row has exactly the table's columns as keys, in order, so every column finds its value. */
  lemma BenefitRowKeys(item: Json)
    requires BenefitRow(item).Ok?
    ensures Keys(BenefitRow(item).value.fields) == BenefitsHeaders
  {
    BenefitFieldKeys(item, |BenefitsHeaders|);
  }

  lemma {:induction false} BenefitFieldKeys(item: Json, k: nat)
    requires k <= |BenefitsHeaders| && BenefitFields(item, k).Ok?
    ensures Keys(BenefitFields(item, k).value) == BenefitsHeaders[..k]
  {
    if k > 0 {
      BenefitFieldKeys(item, k - 1);
      assert BenefitsHeaders[..k] == BenefitsHeaders[..k - 1] + [BenefitsHeaders[k - 1]];
    }
  }

  /** A component that is not a dict raises on its first `.get`. */
  lemma NonDictComponent(item: Json)
    requires !item.JObj?
    ensures BenefitRow(item) == Raised(AttributeError)
  {
    NonDictFields(item, |BenefitsHeaders|);
  }

  lemma {:induction false} NonDictFields(item: Json, k: nat)
    requires 0 < k <= |BenefitsHeaders| && !item.JObj?
    ensures BenefitFields(item, k) == Raised(AttributeError)
  {
    if k > 1 {
      NonDictFields(item, k - 1);
    } else {
      assert BenefitPaths[0] == ["serial_number"];
    }
  }

  /** A component that is an empty dict fills every column with `''`. */
  lemma EmptyComponent(k: nat)
    requires k <= |BenefitsHeaders|
    ensures BenefitFields(JObj([]), k).Ok?
    ensures forall i :: 0 <= i < k ==> BenefitFields(JObj([]), k).value[i].1 == JStr("")
  {
    if k > 0 {
      EmptyComponent(k - 1);
      assert BenefitPaths[k - 1] != [];
      DigMissing([], BenefitPaths[k - 1]);
    }
  }

  /** The rows of all components, stopping at the first that raises. */
  function BenefitRows(items: seq<Json>): (r: Result<seq<Json>>)
    ensures r.Ok? ==> |r.value| == |items|
  {
    if items == [] then Ok([])
    else
      match BenefitRows(items[..|items| - 1])
      case Raised(e) => Raised(e)
      case Ok(init) =>
        match BenefitRow(items[|items| - 1])
        case Raised(e) => Raised(e)
        case Ok(row) => Ok(init + [row])
  }

  /** Lines 591-611: `table_data` filled by appending one row per component. */
  method BuildBenefitRows(items: seq<Json>) returns (r: Result<seq<Json>>)
    ensures r == BenefitRows(items)
  {
    var rows := [];
    for k := 0 to |items|
      invariant BenefitRows(items[..k]) == Ok(rows)
    {
      assert items[..k + 1][..k] == items[..k];
      var row := BenefitRow(items[k]);
      if row.Raised? {
        BenefitStops(items, k + 1);
        return Raised(row.error);
      }
      rows := rows + [row.value];
    }
    assert items[..|items|] == items;
    return Ok(rows);
  }

  lemma {:induction false} BenefitStops(items: seq<Json>, k: nat)
    requires k <= |items| && BenefitRows(items[..k]).Raised?
    ensures BenefitRows(items) == BenefitRows(items[..k])
    decreases |items| - k
  {
    if k < |items| {
      assert items[..|items| - 1][..k] == items[..k];
      BenefitStops(items[..|items| - 1], k);
    } else {
      assert items[..k] == items;
    }
  }

  /**
   * What the benefits section appends for its decoded data: when it holds
   * `project_components`, a bold heading and then `create_table`, which is called
   * even with no components and then writes the "No data" paragraph.
   */
  function BenefitsBlocks(data: Json): (r: Emitted) {
    if !data.JObj? then Done([])
    else
      match Find(data.fields, "project_components")
      case None => Done([])
      case Some(components) =>
        Then(Done([BoldPara("Project Components:")]),
          match Iterate(components)
          case Raised(e) => Emitted([], Some(e))
          case Ok(items) =>
            match BenefitRows(items)
            case Raised(e) => Emitted([], Some(e))
            case Ok(rows) => PlainTable(BenefitsHeaders, rows))
  }

  /** An empty component list still gives the heading and the "No data" paragraph. */
  lemma NoComponents(data: Json)
    requires data.JObj? && Find(data.fields, "project_components") == Some(JList([]))
    ensures BenefitsBlocks(data) == Done([BoldPara("Project Components:"), NoData])
  {
  }

  /** Lines 581-612, appending to the document. */
  method AddBenefits(doc: Document, data: Json) returns (error: Option<PyError>)
    modifies doc
    ensures doc.blocks == old(doc.blocks) + BenefitsBlocks(data).blocks
    ensures error == BenefitsBlocks(data).error
  {
    if !data.JObj? {
      return None;
    }
    var components := Find(data.fields, "project_components");
    if components.None? {
      return None;
    }
    doc.Add(BoldPara("Project Components:"));
    var items := Iterate(components.value);
    if items.Raised? {
      return Some(items.error);
    }
    var rows := BuildBenefitRows(items.value);
    if rows.Raised? {
      return Some(rows.error);
    }
    error := CreateTable(doc, BenefitsHeaders, rows.value);
    AppendAssoc(old(doc.blocks), [BoldPara("Project Components:")], PlainTable(BenefitsHeaders, rows.value).blocks);
  }
}
