/**
 * The two table builders of the document renderer: `create_table`, whose
 * columns are one per header, and `create_table_with_subcolumns`, where a
 * header may own several sub-columns. Both are modelled with the same column
 * layout: a list of headers and, per header, its sub-column names (empty for
 * a plain column). Rows are fixed-size arrays of cell texts, as the docx rows
 * are, and the column counters of the source are the `at` counters below.
 */
module Tables {
  import opened Wrappers
  import opened JsonValue
  import opened Numbers
  import opened Docx

  // ---------------------------------------------------------------------------
  // Column layout
  // ---------------------------------------------------------------------------

  /** The columns a header occupies: one per sub-column name, or one when it has none. */
  function Span(sub: seq<string>): (n: nat)
    ensures n >= 1 && (sub != [] ==> n == |sub|)
  {
    if sub == [] then 1 else |sub|
  }

  /** `sum(len(subs) if subs else 1 for subs in subheaders)`: the table's column count. */
  function Width(subs: seq<seq<string>>): nat {
    if subs == [] then 0 else Width(subs[..|subs| - 1]) + Span(subs[|subs| - 1])
  }

  /** Taking one more header widens the table by that header's span. */
  lemma WidthStep(subs: seq<seq<string>>, i: nat)
    requires i < |subs|
    ensures Width(subs[..i + 1]) == Width(subs[..i]) + Span(subs[i])
  {
    assert subs[..i + 1][..i] == subs[..i];
  }

  /** Every prefix of the headers fits in the table, and each header takes at least one column. */
  lemma {:induction false} WidthPrefix(subs: seq<seq<string>>, i: nat)
    requires i <= |subs|
    ensures i <= Width(subs[..i]) <= Width(subs)
    decreases |subs| - i
  {
    if i < |subs| {
      WidthStep(subs, i);
      WidthPrefix(subs, i + 1);
      WidthAtLeast(subs[..i]);
    } else {
      assert subs[..i] == subs;
      WidthAtLeast(subs);
    }
  }

  lemma {:induction false} WidthAtLeast(subs: seq<seq<string>>)
    ensures Width(subs) >= |subs|
  {
    if subs != [] {
      WidthAtLeast(subs[..|subs| - 1]);
    }
  }

  /** The layout of `create_table`: `n` plain columns. */
  function NoSubs(n: nat): (subs: seq<seq<string>>)
    ensures |subs| == n && forall i :: 0 <= i < n ==> subs[i] == []
  {
    seq(n, _ => [])
  }

  /** With no sub-columns, the first `i` headers take exactly `i` columns. */
  lemma {:induction false} WidthNoSubs(n: nat, i: nat)
    requires i <= n
    ensures Width(NoSubs(n)[..i]) == i
  {
    if i > 0 {
      WidthNoSubs(n, i - 1);
      WidthStep(NoSubs(n), i - 1);
    }
  }

  /** `any(subheaders)`: some header has a non-empty list of sub-columns. */
  predicate AnyColumns(subs: seq<seq<string>>) {
    exists i :: 0 <= i < |subs| && subs[i] != []
  }

  /** The first header row: header `i` starts where the earlier ones end and spans its own columns. */
  function SpanHeaders(mains: seq<string>, subs: seq<seq<string>>): (h: seq<HeaderCell>)
    requires |mains| == |subs|
    ensures |h| == |mains|
  {
    seq(|mains|, i requires 0 <= i < |mains| => HeaderCell(mains[i], Width(subs[..i]), Span(subs[i])))
  }

  /** Taking one more header adds its cell to the header row. */
  lemma SpanHeadersStep(mains: seq<string>, subs: seq<seq<string>>, i: nat)
    requires |mains| == |subs| && i < |mains|
    ensures SpanHeaders(mains[..i + 1], subs[..i + 1])
      == SpanHeaders(mains[..i], subs[..i]) + [HeaderCell(mains[i], Width(subs[..i]), Span(subs[i]))]
  {
    forall j | 0 <= j <= i
      ensures subs[..i + 1][..j] == subs[..j] && (j < i ==> subs[..i][..j] == subs[..j])
    {
    }
  }

  /** The header cells tile the row: the first starts at 0, each starts where the previous ends, the last ends at the width. */
  lemma HeadersTile(mains: seq<string>, subs: seq<seq<string>>)
    requires |mains| == |subs| && mains != []
    ensures SpanHeaders(mains, subs)[0].start == 0
    ensures forall i :: 0 <= i < |mains| - 1 ==>
      SpanHeaders(mains, subs)[i].start + SpanHeaders(mains, subs)[i].span == SpanHeaders(mains, subs)[i + 1].start
    ensures SpanHeaders(mains, subs)[|mains| - 1].start + SpanHeaders(mains, subs)[|mains| - 1].span == Width(subs)
  {
    var h := SpanHeaders(mains, subs);
    assert subs[..0] == [];
    forall i | 0 <= i < |mains| - 1
      ensures h[i].start + h[i].span == h[i + 1].start
    {
      WidthStep(subs, i);
    }
    WidthStep(subs, |mains| - 1);
    assert subs[..|mains|] == subs;
  }

  /** The header row of `create_table`: header `i` in column `i`, one column wide. */
  lemma PlainHeaders(headers: seq<string>)
    ensures forall i :: 0 <= i < |headers| ==> SpanHeaders(headers, NoSubs(|headers|))[i] == HeaderCell(headers[i], i, 1)
  {
    forall i | 0 <= i < |headers|
      ensures SpanHeaders(headers, NoSubs(|headers|))[i] == HeaderCell(headers[i], i, 1)
    {
      WidthNoSubs(|headers|, i);
    }
  }

  /** The sub-header row: each header's sub-column names, or one empty cell for a plain header. */
  function SubHeaderRow(subs: seq<seq<string>>): (row: seq<string>)
    ensures |row| == Width(subs)
  {
    if subs == [] then []
    else
      var last := subs[|subs| - 1];
      SubHeaderRow(subs[..|subs| - 1]) + (if last == [] then [""] else last)
  }

  /** The sub-header cells of the first `i + 1` headers extend those of the first `i`. */
  lemma SubHeaderRowStep(subs: seq<seq<string>>, i: nat)
    requires i < |subs|
    ensures SubHeaderRow(subs[..i + 1]) == SubHeaderRow(subs[..i]) + (if subs[i] == [] then [""] else subs[i])
  {
    assert subs[..i + 1][..i] == subs[..i];
  }

  // ---------------------------------------------------------------------------
  // Cells and rows
  // ---------------------------------------------------------------------------

  /** `n` empty cells. */
  function Blank(n: nat): (r: seq<string>)
    ensures |r| == n && forall k :: 0 <= k < n ==> r[k] == ""
  {
    seq(n, _ => "")
  }

  /** A row of `width` cells whose first cells were written and the rest left empty. */
  function Pad(cells: seq<string>, width: nat): (r: seq<string>)
    requires |cells| <= width
    ensures |r| == width && r[..|cells|] == cells
  {
    cells + Blank(width - |cells|)
  }

  /** Writing `cs` just after the written cells of a padded row gives the longer padded row. */
  lemma PadWrite(cells: seq<string>, cs: seq<string>, width: nat)
    requires |cells| + |cs| <= width
    ensures Pad(cells + cs, width) == Pad(cells, width)[..|cells|] + cs + Pad(cells, width)[|cells| + |cs|..]
  {
    var p := Pad(cells, width);
    assert p[|cells| + |cs|..] == Blank(width - |cells| - |cs|);
  }

  /** The text of a `Description` cell holding a list: an added paragraph of `"• item\n"` runs. */
  function BulletRuns(items: seq<Json>): string {
    if items == [] then [] else BulletRuns(items[..|items| - 1]) + "\U{2022} " + PyStr(items[|items| - 1]) + "\n"
  }

  /**
   * One plain cell: a `Description` list becomes bullet runs in a second
   * paragraph of the cell (an empty list raises on `p.runs[0]`), any other
   * `Description` is `str(value)`, every other column is the number-formatted value.
   */
  function CellText(header: string, value: Json): (r: Result<string>)
    ensures r.Raised? <==> header == "Description" && value == JList([])
    ensures r.Raised? ==> r.error == IndexError
  {
    if header == "Description" then
      if value.JList? then
        if value.items == [] then Raised(IndexError) else Ok("\n" + BulletRuns(value.items))
      else Ok(PyStr(value))
    else Ok(PyStr(FormatNumber(value)))
  }

  /** `value.get(sub_header, '')`, number-formatted, for each sub-column. */
  function SubCells(sub: seq<string>, fields: seq<(string, Json)>): (cs: seq<string>)
    ensures |cs| == |sub|
  {
    seq(|sub|, j requires 0 <= j < |sub| =>
      PyStr(FormatNumber(match Find(fields, sub[j]) case Some(x) => x case None => JStr(""))))
  }

  /**
   * The cells one header writes: a dict value under a sub-columned header fills
   * one cell per sub-column, any other value under it a single cell; a plain
   * header writes its one cell.
   */
  function ColumnCells(header: string, sub: seq<string>, value: Json): (r: Result<seq<string>>)
    ensures r.Ok? ==> 1 <= |r.value| <= Span(sub)
    ensures r.Ok? && sub != [] && value.JObj? ==> |r.value| == |sub|
  {
    if sub != [] then
      if value.JObj? then Ok(SubCells(sub, value.fields)) else Ok([PyStr(FormatNumber(value))])
    else
      match CellText(header, value)
      case Ok(t) => Ok([t])
      case Raised(e) => Raised(e)
  }

  /** The cells of one row written so far, and the error that stopped it, if any. */
  datatype Row = Row(cells: seq<string>, error: Option<PyError>)

  /** One more header of a row: `item.get(header, default)`, which raises on a non-dict, then its cells. */
  function Extend(prev: Row, header: string, sub: seq<string>, default: Json, item: Json): (r: Row)
    ensures prev.error.Some? ==> r == prev
    ensures |prev.cells| <= |r.cells| <= |prev.cells| + Span(sub)
  {
    if prev.error.Some? then prev
    else match Get(item, header, default)
      case Raised(e) => Row(prev.cells, Some(e))
      case Ok(v) =>
        match ColumnCells(header, sub, v)
        case Raised(e) => Row(prev.cells, Some(e))
        case Ok(cs) => Row(prev.cells + cs, None)
  }

  /** One data row: each header in turn, until one raises. */
  function RowOf(headers: seq<string>, subs: seq<seq<string>>, default: Json, item: Json): (r: Row)
    requires |headers| == |subs|
    ensures |r.cells| <= Width(subs)
  {
    if headers == [] then Row([], None)
    else
      var n := |headers| - 1;
      Extend(RowOf(headers[..n], subs[..n], default, item), headers[n], subs[n], default, item)
  }

  /** A header whose value is found and whose cells are written extends the row by those cells. */
  lemma ExtendOk(prev: Row, header: string, sub: seq<string>, default: Json, item: Json, v: Json)
    requires prev.error == None && Get(item, header, default) == Ok(v) && ColumnCells(header, sub, v).Ok?
    ensures Extend(prev, header, sub, default, item) == Row(prev.cells + ColumnCells(header, sub, v).value, None)
  {
  }

  /** The row of the first `i + 1` headers extends the row of the first `i`. */
  lemma RowStep(headers: seq<string>, subs: seq<seq<string>>, default: Json, item: Json, i: nat)
    requires |headers| == |subs| && i < |headers|
    ensures RowOf(headers[..i + 1], subs[..i + 1], default, item)
      == Extend(RowOf(headers[..i], subs[..i], default, item), headers[i], subs[i], default, item)
  {
    assert headers[..i + 1][..i] == headers[..i] && subs[..i + 1][..i] == subs[..i];
  }

  /** The data rows written, and the error that stopped them, if any. */
  datatype Grid = Grid(rows: seq<seq<string>>, error: Option<PyError>)

  /** One more record: its padded row, unless an earlier record raised. */
  function AddRow(prev: Grid, headers: seq<string>, subs: seq<seq<string>>, default: Json, item: Json): (g: Grid)
    requires |headers| == |subs|
    ensures prev.error.Some? ==> g == prev
  {
    if prev.error.Some? then prev
    else
      var row := RowOf(headers, subs, default, item);
      Grid(prev.rows + [Pad(row.cells, Width(subs))], row.error)
  }

  /** `for row_data in data`: one padded row per record, stopping after the first record that raises. */
  function GridOf(headers: seq<string>, subs: seq<seq<string>>, default: Json, data: seq<Json>): (g: Grid)
    requires |headers| == |subs|
    ensures |g.rows| <= |data|
    ensures g.error.None? ==> |g.rows| == |data|
  {
    if data == [] then Grid([], None)
    else AddRow(GridOf(headers, subs, default, data[..|data| - 1]), headers, subs, default, data[|data| - 1])
  }

  /** The grid of the first `r + 1` records adds a row to the grid of the first `r`. */
  lemma GridStep(headers: seq<string>, subs: seq<seq<string>>, default: Json, data: seq<Json>, r: nat)
    requires |headers| == |subs| && r < |data|
    ensures GridOf(headers, subs, default, data[..r + 1])
      == AddRow(GridOf(headers, subs, default, data[..r]), headers, subs, default, data[r])
  {
    assert data[..r + 1][..r] == data[..r];
  }

  /** Every data row written is as wide as the table. */
  lemma {:induction false} GridWidths(headers: seq<string>, subs: seq<seq<string>>, default: Json, data: seq<Json>)
    requires |headers| == |subs|
    ensures forall k :: 0 <= k < |GridOf(headers, subs, default, data).rows| ==>
      |GridOf(headers, subs, default, data).rows[k]| == Width(subs)
  {
    if data != [] {
      var n := |data| - 1;
      var prev := GridOf(headers, subs, default, data[..n]);
      GridWidths(headers, subs, default, data[..n]);
      if prev.error == None {
        var row := RowOf(headers, subs, default, data[n]);
        assert GridOf(headers, subs, default, data).rows == prev.rows + [Pad(row.cells, Width(subs))];
      }
    }
  }

  /** A grid without error has row `k` from record `k`. */
  lemma {:induction false} GridRow(headers: seq<string>, subs: seq<seq<string>>, default: Json, data: seq<Json>, k: nat)
    requires |headers| == |subs| && k < |data|
    requires GridOf(headers, subs, default, data).error == None
    ensures GridOf(headers, subs, default, data).rows[k] == Pad(RowOf(headers, subs, default, data[k]).cells, Width(subs))
    decreases |data|
  {
    var n := |data| - 1;
    var prev := GridOf(headers, subs, default, data[..n]);
    assert prev.error == None;
    var last := Pad(RowOf(headers, subs, default, data[n]).cells, Width(subs));
    var rows := GridOf(headers, subs, default, data).rows;
    assert rows == prev.rows + [last] && |prev.rows| == n;
    if k < n {
      GridRow(headers, subs, default, data[..n], k);
      assert data[..n][k] == data[k];
      assert rows[k] == prev.rows[k];
      assert prev.rows[k] == Pad(RowOf(headers, subs, default, data[k]).cells, Width(subs));
    } else {
      assert rows[k] == last;
      assert data[k] == data[n];
    }
  }

  // ---------------------------------------------------------------------------
  // create_table
  // ---------------------------------------------------------------------------

  /** The paragraph written when a table has no headers or no rows. */
  const NoDataText: string := "No data available for this table."

  /** What `create_table(document, headers, data)` appends, and what it raises. */
  function PlainTable(headers: seq<string>, data: seq<Json>): (r: Emitted)
    ensures r.blocks == [NoData] <==> headers == [] || data == []
    ensures headers == [] || data == [] ==> r.error == None
    ensures |r.blocks| == 1
  {
    if headers == [] || data == [] then Done([NoData])
    else
      var subs := NoSubs(|headers|);
      var grid := GridOf(headers, subs, JStr(""), data);
      Emitted([Table(|headers|, SpanHeaders(headers, subs), grid.rows)], grid.error)
  }

  /** A record is well-formed for `create_table` when it is a dict with no empty `Description` list. */
  predicate PlainRecord(headers: seq<string>, item: Json) {
    && item.JObj?
    && forall i :: 0 <= i < |headers| && headers[i] == "Description" ==>
        Find(item.fields, headers[i]) != Some(JList([]))
  }

  /** `item.get(header, default)` on a dict. */
  function Lookup(item: Json, header: string, default: Json): Json
    requires item.JObj?
  {
    match Find(item.fields, header) case Some(x) => x case None => default
  }

  /** The text `create_table` writes under `header` for a record (empty when the cell raises). */
  function PlainCell(header: string, item: Json): string {
    match Get(item, header, JStr(""))
    case Raised(_) => ""
    case Ok(v) => match CellText(header, v) case Ok(t) => t case Raised(_) => ""
  }

  /** A well-formed record fills every column, column `i` from `item.get(headers[i], '')`. */
  lemma {:induction false} PlainRow(headers: seq<string>, item: Json)
    requires PlainRecord(headers, item)
    ensures RowOf(headers, NoSubs(|headers|), JStr(""), item).error == None
    ensures |RowOf(headers, NoSubs(|headers|), JStr(""), item).cells| == |headers|
    ensures forall i :: 0 <= i < |headers| ==>
      RowOf(headers, NoSubs(|headers|), JStr(""), item).cells[i] == PlainCell(headers[i], item)
  {
    if headers != [] {
      var n := |headers| - 1;
      var subs := NoSubs(|headers|);
      assert subs[..n] == NoSubs(n);
      assert PlainRecord(headers[..n], item);
      PlainRow(headers[..n], item);
      var prev := RowOf(headers[..n], NoSubs(n), JStr(""), item);
      var v := Lookup(item, headers[n], JStr(""));
      assert CellText(headers[n], v).Ok?;
      ExtendOk(prev, headers[n], [], JStr(""), item, v);
      var cells := RowOf(headers, subs, JStr(""), item).cells;
      assert cells == prev.cells + [PlainCell(headers[n], item)];
      forall i | 0 <= i < |headers|
        ensures cells[i] == PlainCell(headers[i], item)
      {
        if i < n {
          assert cells[i] == prev.cells[i];
          assert headers[..n][i] == headers[i];
        }
      }
    }
  }

  /**
   * With headers and dict records, `create_table` writes one table: its header
   * row is `headers`, and row `r` column `i` holds the cell of `data[r].get(headers[i], '')`.
   */
  lemma PlainTableCells(headers: seq<string>, data: seq<Json>)
    requires headers != [] && data != []
    requires forall r :: 0 <= r < |data| ==> PlainRecord(headers, data[r])
    ensures PlainTable(headers, data).error == None
    ensures PlainTable(headers, data).blocks[0].Table?
    ensures PlainTable(headers, data).blocks[0].width == |headers|
    ensures forall i :: 0 <= i < |headers| ==> PlainTable(headers, data).blocks[0].header[i] == HeaderCell(headers[i], i, 1)
    ensures |PlainTable(headers, data).blocks[0].body| == |data|
    ensures forall r :: 0 <= r < |data| ==> |PlainTable(headers, data).blocks[0].body[r]| == |headers|
    ensures forall r, i :: 0 <= r < |data| && 0 <= i < |headers| ==>
      PlainTable(headers, data).blocks[0].body[r][i] == PlainCell(headers[i], data[r])
  {
    var subs := NoSubs(|headers|);
    PlainHeaders(headers);
    WidthNoSubs(|headers|, |headers|);
    assert subs[..|headers|] == subs;
    PlainGrid(headers, data);
    GridWidths(headers, subs, JStr(""), data);
    var rows := GridOf(headers, subs, JStr(""), data).rows;
    forall r, i | 0 <= r < |data| && 0 <= i < |headers|
      ensures rows[r][i] == PlainCell(headers[i], data[r])
    {
      GridRow(headers, subs, JStr(""), data, r);
      PlainRow(headers, data[r]);
      assert rows[r][..|headers|] == RowOf(headers, subs, JStr(""), data[r]).cells;
    }
  }

  /** Dict records never stop `create_table`. */
  lemma {:induction false} PlainGrid(headers: seq<string>, data: seq<Json>)
    requires forall r :: 0 <= r < |data| ==> PlainRecord(headers, data[r])
    ensures GridOf(headers, NoSubs(|headers|), JStr(""), data).error == None
  {
    if data != [] {
      PlainGrid(headers, data[..|data| - 1]);
      PlainRow(headers, data[|data| - 1]);
    }
  }

  /** A record that is not a dict stops the table: `.get` raises before any of its cells is written. */
  lemma NonDictRecord(headers: seq<string>, subs: seq<seq<string>>, default: Json, item: Json)
    requires |headers| == |subs| && headers != [] && !item.JObj?
    ensures RowOf(headers, subs, default, item) == Row([], Some(AttributeError))
  {
    NonDictPrefix(headers, subs, default, item, |headers|);
    assert headers[..|headers|] == headers && subs[..|subs|] == subs;
  }

  lemma {:induction false} NonDictPrefix(headers: seq<string>, subs: seq<seq<string>>, default: Json, item: Json, k: nat)
    requires |headers| == |subs| && 0 < k <= |headers| && !item.JObj?
    ensures RowOf(headers[..k], subs[..k], default, item) == Row([], Some(AttributeError))
  {
    var hs, ss := headers[..k], subs[..k];
    assert hs[..k - 1] == headers[..k - 1] && ss[..k - 1] == subs[..k - 1];
    if k > 1 {
      NonDictPrefix(headers, subs, default, item, k - 1);
    } else {
      assert hs[..0] == [] && ss[..0] == [];
    }
  }

  /**
   * The grid stops at the first record that raises: the rows before it are
   * complete, its own row is the last one written, and its error is the table's.
   */
  lemma {:induction false} GridFirstError(headers: seq<string>, subs: seq<seq<string>>, default: Json, data: seq<Json>, j: nat)
    requires |headers| == |subs| && j < |data|
    requires GridOf(headers, subs, default, data[..j]).error == None
    requires RowOf(headers, subs, default, data[j]).error.Some?
    ensures GridOf(headers, subs, default, data).error == RowOf(headers, subs, default, data[j]).error
    ensures |GridOf(headers, subs, default, data).rows| == j + 1
    decreases |data|
  {
    if |data| == j + 1 {
      assert data[..j] == data[..|data| - 1];
    } else {
      assert data[..|data| - 1][..j] == data[..j];
      GridFirstError(headers, subs, default, data[..|data| - 1], j);
    }
  }

  // ---------------------------------------------------------------------------
  // create_table_with_subcolumns
  // ---------------------------------------------------------------------------

  /** `subs if subs else []` for each header: a `None` entry and an empty list both mean a plain column. */
  function Normalize(subheaders: seq<Option<seq<string>>>): (subs: seq<seq<string>>)
    ensures |subs| == |subheaders|
  {
    seq(|subheaders|, i requires 0 <= i < |subheaders| => if subheaders[i].Some? then subheaders[i].value else [])
  }

  /**
   * The layout used for a given `subheaders` list: an empty list (which
   * Python treats as false) skips every sub-column test, so all columns are plain.
   */
  function Layout(mains: seq<string>, subheaders: seq<Option<seq<string>>>): (subs: seq<seq<string>>)
    requires subheaders == [] || |subheaders| == |mains|
    ensures |subs| == |mains|
  {
    if subheaders == [] then NoSubs(|mains|) else Normalize(subheaders)
  }

  /**
   * What `create_table_with_subcolumns(document, main_headers, data, subheaders)`
   * appends, AS WRITTEN: `subheaders=None` raises `TypeError` at `any(subheaders)`,
   * and with sub-columns the table is created with two rows before `add_row`
   * appends the sub-header row, so a blank row sits between the two header rows.
   */
  function SubcolumnTable(mains: seq<string>, data: seq<Json>, subheaders: Option<seq<Option<seq<string>>>>): (r: Emitted)
    ensures mains == [] || data == [] ==> r == Done([NoData])
  {
    if mains == [] || data == [] then Done([NoData])
    else if subheaders.None? then Emitted([], Some(TypeError))
    else if subheaders.value != [] && |mains| != |subheaders.value| then Emitted([], Some(ValueError))
    else
      var subs := Layout(mains, subheaders.value);
      var width := Width(subs);
      var top := if AnyColumns(subs) then [Blank(width), SubHeaderRow(subs)] else [];
      var grid := GridOf(mains, subs, JNull, data);
      Emitted([Table(width, SpanHeaders(mains, subs), top + grid.rows)], grid.error)
  }

  /**
   * The evidently intended `create_table_with_subcolumns`: `None` means no
   * sub-columns, and the sub-header row is the table's second row.
   */
  function IntendedSubcolumnTable(mains: seq<string>, data: seq<Json>, subheaders: Option<seq<Option<seq<string>>>>): (r: Emitted)
    ensures mains == [] || data == [] ==> r == Done([NoData])
  {
    if mains == [] || data == [] then Done([NoData])
    else if subheaders.Some? && subheaders.value != [] && |mains| != |subheaders.value| then Emitted([], Some(ValueError))
    else
      var subs := Layout(mains, if subheaders.Some? then subheaders.value else []);
      var width := Width(subs);
      var top := if AnyColumns(subs) then [SubHeaderRow(subs)] else [];
      var grid := GridOf(mains, subs, JNull, data);
      Emitted([Table(width, SpanHeaders(mains, subs), top + grid.rows)], grid.error)
  }

  /** A sub-header list of the wrong length raises `ValueError` before anything is written, and only then. */
  lemma SubcolumnLengths(mains: seq<string>, data: seq<Json>, subheaders: seq<Option<seq<string>>>)
    requires mains != [] && data != []
    ensures SubcolumnTable(mains, data, Some(subheaders)).error == Some(ValueError) <==>
      subheaders != [] && |mains| != |subheaders|
    ensures subheaders != [] && |mains| != |subheaders| ==> SubcolumnTable(mains, data, Some(subheaders)).blocks == []
  {
    if subheaders == [] || |mains| == |subheaders| {
      var subs := Layout(mains, subheaders);
      GridErrors(mains, subs, JNull, data);
    }
  }

  /** The only errors a table's rows raise are a non-dict record and an empty `Description` list. */
  lemma {:induction false} GridErrors(headers: seq<string>, subs: seq<seq<string>>, default: Json, data: seq<Json>)
    requires |headers| == |subs|
    ensures GridOf(headers, subs, default, data).error in {None, Some(AttributeError), Some(IndexError)}
  {
    if data != [] {
      GridErrors(headers, subs, default, data[..|data| - 1]);
      RowErrors(headers, subs, default, data[|data| - 1]);
    }
  }

  lemma {:induction false} RowErrors(headers: seq<string>, subs: seq<seq<string>>, default: Json, item: Json)
    requires |headers| == |subs|
    ensures RowOf(headers, subs, default, item).error in {None, Some(AttributeError), Some(IndexError)}
  {
    if headers != [] {
      var n := |headers| - 1;
      RowErrors(headers[..n], subs[..n], default, item);
    }
  }

  /** The default `subheaders=None` raises `TypeError` and writes nothing. */
  lemma DefaultSubheadersRaise(mains: seq<string>, data: seq<Json>)
    requires mains != [] && data != []
    ensures SubcolumnTable(mains, data, None) == Emitted([], Some(TypeError))
  {
  }

  /** Intended: without sub-header lists the table is `create_table`'s layout, one column per header. */
  lemma IntendedDefault(mains: seq<string>, data: seq<Json>)
    requires mains != [] && data != []
    ensures IntendedSubcolumnTable(mains, data, None).blocks[0].Table?
    ensures IntendedSubcolumnTable(mains, data, None).blocks[0].width == |mains|
    ensures forall i :: 0 <= i < |mains| ==> IntendedSubcolumnTable(mains, data, None).blocks[0].header[i] == HeaderCell(mains[i], i, 1)
  {
    WidthNoSubs(|mains|, |mains|);
    assert NoSubs(|mains|)[..|mains|] == NoSubs(|mains|);
    PlainHeaders(mains);
  }

  /**
   * As written, a table with sub-columns has a blank second row and the
   * sub-header row third; the intended table is the same with that blank row removed.
   */
  lemma BlankSecondRow(mains: seq<string>, data: seq<Json>, subheaders: seq<Option<seq<string>>>)
    requires mains != [] && data != [] && |subheaders| == |mains|
    requires AnyColumns(Normalize(subheaders))
    ensures SubcolumnTable(mains, data, Some(subheaders)).blocks[0].body[0] == Blank(Width(Normalize(subheaders)))
    ensures SubcolumnTable(mains, data, Some(subheaders)).blocks[0].body[1] == SubHeaderRow(Normalize(subheaders))
    ensures SubcolumnTable(mains, data, Some(subheaders)).blocks[0].body ==
      [Blank(Width(Normalize(subheaders)))] + IntendedSubcolumnTable(mains, data, Some(subheaders)).blocks[0].body
  {
    var subs := Normalize(subheaders);
    assert Layout(mains, subheaders) == subs;
    var rows := GridOf(mains, subs, JNull, data).rows;
    var blank, second := Blank(Width(subs)), SubHeaderRow(subs);
    assert SubcolumnTable(mains, data, Some(subheaders)).blocks[0].body == [blank, second] + rows;
    assert IntendedSubcolumnTable(mains, data, Some(subheaders)).blocks[0].body == [second] + rows;
    assert [blank, second] + rows == [blank] + ([second] + rows);
  }

  /** Intended: a second header row exists exactly when some header has sub-columns, and it is the sub-header row. */
  lemma IntendedSecondRow(mains: seq<string>, data: seq<Json>, subheaders: Option<seq<Option<seq<string>>>>)
    requires mains != [] && data != []
    requires subheaders.None? || subheaders.value == [] || |subheaders.value| == |mains|
    ensures IntendedSubcolumnTable(mains, data, subheaders).blocks[0].Table?
    ensures var subs := Layout(mains, if subheaders.Some? then subheaders.value else []);
      var t := IntendedSubcolumnTable(mains, data, subheaders).blocks[0];
      && (AnyColumns(subs) <==> |t.body| == |GridOf(mains, subs, JNull, data).rows| + 1)
      && (AnyColumns(subs) ==> t.body[0] == SubHeaderRow(subs))
      && t.body[|t.body| - |GridOf(mains, subs, JNull, data).rows|..] == GridOf(mains, subs, JNull, data).rows
  {
  }

  /** A record whose value under every sub-columned header is a dict fills exactly the table's width. */
  lemma {:induction false} DictRowFills(headers: seq<string>, subs: seq<seq<string>>, item: Json)
    requires |headers| == |subs| && item.JObj?
    requires forall i :: 0 <= i < |headers| && subs[i] != [] ==> Lookup(item, headers[i], JNull).JObj?
    requires forall i :: 0 <= i < |headers| && subs[i] == [] && headers[i] == "Description" ==>
      Lookup(item, headers[i], JNull) != JList([])
    ensures RowOf(headers, subs, JNull, item).error == None
    ensures |RowOf(headers, subs, JNull, item).cells| == Width(subs)
  {
    if headers != [] {
      var n := |headers| - 1;
      DictRowFills(headers[..n], subs[..n], item);
      assert subs[..n] == subs[..|subs| - 1];
    }
  }

  /**
   * A value that is not a dict under a header with several sub-columns takes a
   * single cell, so the row ends short of the width and later values shift left.
   */
  lemma ShortRow(headers: seq<string>, subs: seq<seq<string>>, item: Json, k: nat)
    requires |headers| == |subs| && item.JObj? && k < |headers|
    requires |subs[k]| >= 2 && !Lookup(item, headers[k], JNull).JObj?
    requires RowOf(headers, subs, JNull, item).error == None
    ensures |RowOf(headers, subs, JNull, item).cells| < Width(subs)
  {
    assert headers[..|headers|] == headers && subs[..|subs|] == subs;
    ShortPrefix(headers, subs, item, k, |headers|);
  }

  lemma {:induction false} ShortPrefix(headers: seq<string>, subs: seq<seq<string>>, item: Json, k: nat, m: nat)
    requires |headers| == |subs| && item.JObj? && k < m <= |headers|
    requires |subs[k]| >= 2 && !Lookup(item, headers[k], JNull).JObj?
    requires RowOf(headers[..m], subs[..m], JNull, item).error == None
    ensures |RowOf(headers[..m], subs[..m], JNull, item).cells| < Width(subs[..m])
  {
    var hs, ss := headers[..m], subs[..m];
    assert hs[..m - 1] == headers[..m - 1] && ss[..m - 1] == subs[..m - 1];
    assert ss[..m - 1] == ss[..|ss| - 1];
    if k < m - 1 {
      ShortPrefix(headers, subs, item, k, m - 1);
    }
  }

  // ---------------------------------------------------------------------------
  // The builders, as the document sees them
  // ---------------------------------------------------------------------------

  /** The header loop: `col_index` advances by each header's span. */
  method HeaderRow(mains: seq<string>, subs: seq<seq<string>>) returns (cells: seq<HeaderCell>, width: nat)
    requires |mains| == |subs|
    ensures cells == SpanHeaders(mains, subs) && width == Width(subs)
  {
    cells, width := [], 0;
    for i := 0 to |mains|
      invariant width == Width(subs[..i])
      invariant cells == SpanHeaders(mains[..i], subs[..i])
    {
      SpanHeadersStep(mains, subs, i);
      cells := cells + [HeaderCell(mains[i], width, Span(subs[i]))];
      WidthStep(subs, i);
      width := width + Span(subs[i]);
    }
    assert mains[..|mains|] == mains && subs[..|subs|] == subs;
  }

  /** Writes `cs` into `row` from column `at` on, one cell at a time. */
  method WriteCells(row: array<string>, at: nat, cs: seq<string>)
    requires at + |cs| <= row.Length
    modifies row
    ensures row[..] == old(row[..])[..at] + cs + old(row[..])[at + |cs|..]
  {
    for j := 0 to |cs|
      invariant row[..] == old(row[..])[..at] + cs[..j] + old(row[..])[at + j..]
    {
      row[at + j] := cs[j];
      assert cs[..j + 1] == cs[..j] + [cs[j]];
    }
    assert cs[..|cs|] == cs;
  }

  /** Writes `cs` just after the cells `done` already written into a padded row. */
  method WriteAfter(row: array<string>, at: nat, ghost done: seq<string>, cs: seq<string>)
    requires at == |done| && at + |cs| <= row.Length && row[..] == Pad(done, row.Length)
    modifies row
    ensures row[..] == Pad(done + cs, row.Length)
  {
    WriteCells(row, at, cs);
    PadWrite(done, cs, row.Length);
  }

  /** A padded row already holds an empty cell after its written cells. */
  lemma PadEmptyCell(done: seq<string>, width: nat)
    requires |done| < width
    ensures Pad(done + [""], width) == Pad(done, width)
  {
    PadWrite(done, [""], width);
    var p := Pad(done, width);
    assert p == p[..|done|] + [""] + p[|done| + 1..];
  }

  /** The sub-header loop: names under sub-columned headers, an empty cell under the others. */
  method SubHeaderCells(subs: seq<seq<string>>) returns (cells: seq<string>)
    ensures cells == SubHeaderRow(subs)
  {
    var width := Width(subs);
    var row := new string[width](_ => "");
    var at := 0;
    for i := 0 to |subs|
      invariant at == Width(subs[..i]) <= width
      invariant row[..] == Pad(SubHeaderRow(subs[..i]), width)
    {
      WidthStep(subs, i);
      WidthPrefix(subs, i + 1);
      SubHeaderRowStep(subs, i);
      if subs[i] != [] {
        WriteAfter(row, at, SubHeaderRow(subs[..i]), subs[i]);
      } else {
        PadEmptyCell(SubHeaderRow(subs[..i]), width);
      }
      at := at + Span(subs[i]);
    }
    assert subs[..|subs|] == subs;
    cells := row[..];
  }

  /**
   * The body of the cell loop for one header: look the value up, then write its
   * cells from column `at` on. `prev` is the row written so far.
   */
  method WriteColumn(row: array<string>, at: nat, header: string, sub: seq<string>, default: Json, item: Json, ghost prev: Row)
    returns (written: nat, error: Option<PyError>)
    requires prev.error == None && at == |prev.cells| && at + Span(sub) <= row.Length
    requires row[..] == Pad(prev.cells, row.Length)
    modifies row
    ensures var next := Extend(prev, header, sub, default, item);
      row[..] == Pad(next.cells, row.Length) && error == next.error
      && (error == None ==> at + written == |next.cells|)
  {
    var value := Get(item, header, default);
    if value.Raised? {
      return 0, Some(value.error);
    }
    var cs := ColumnCells(header, sub, value.value);
    if cs.Raised? {
      return 0, Some(cs.error);
    }
    ExtendOk(prev, header, sub, default, item, value.value);
    WriteAfter(row, at, prev.cells, cs.value);
    return |cs.value|, None;
  }

  /** The cell loop of one data row, with `at` for the source's `cell_index`. */
  method FillRow(headers: seq<string>, subs: seq<seq<string>>, default: Json, item: Json) returns (cells: seq<string>, error: Option<PyError>)
    requires |headers| == |subs|
    ensures cells == Pad(RowOf(headers, subs, default, item).cells, Width(subs))
    ensures error == RowOf(headers, subs, default, item).error
  {
    var width := Width(subs);
    var row := new string[width](_ => "");
    var at := 0;
    for i := 0 to |headers|
      invariant RowOf(headers[..i], subs[..i], default, item).error == None
      invariant at == |RowOf(headers[..i], subs[..i], default, item).cells| <= Width(subs[..i]) <= width
      invariant row[..] == Pad(RowOf(headers[..i], subs[..i], default, item).cells, width)
    {
      RowStep(headers, subs, default, item, i);
      WidthStep(subs, i);
      WidthPrefix(subs, i + 1);
      var written, err := WriteColumn(row, at, headers[i], subs[i], default, item, RowOf(headers[..i], subs[..i], default, item));
      if err.Some? {
        PrefixStops(headers, subs, default, item, i + 1);
        return row[..], err;
      }
      at := at + written;
    }
    assert headers[..|headers|] == headers && subs[..|subs|] == subs;
    return row[..], None;
  }

  /** Once a prefix of the headers raises, the whole row is that prefix's. */
  lemma {:induction false} PrefixStops(headers: seq<string>, subs: seq<seq<string>>, default: Json, item: Json, k: nat)
    requires |headers| == |subs| && k <= |headers|
    requires RowOf(headers[..k], subs[..k], default, item).error.Some?
    ensures RowOf(headers, subs, default, item) == RowOf(headers[..k], subs[..k], default, item)
    decreases |headers| - k
  {
    if k < |headers| {
      var n := |headers| - 1;
      assert headers[..n][..k] == headers[..k] && subs[..n][..k] == subs[..k];
      PrefixStops(headers[..n], subs[..n], default, item, k);
    } else {
      assert headers[..k] == headers && subs[..k] == subs;
    }
  }

  /** The record loop: one padded row per record, stopping after the first that raises. */
  method FillRows(headers: seq<string>, subs: seq<seq<string>>, default: Json, data: seq<Json>) returns (rows: seq<seq<string>>, error: Option<PyError>)
    requires |headers| == |subs|
    ensures rows == GridOf(headers, subs, default, data).rows
    ensures error == GridOf(headers, subs, default, data).error
  {
    rows := [];
    for r := 0 to |data|
      invariant GridOf(headers, subs, default, data[..r]) == Grid(rows, None)
    {
      var cells, err := FillRow(headers, subs, default, data[r]);
      GridAdd(headers, subs, default, data, r, rows, cells, err);
      rows := rows + [cells];
      if err.Some? {
        GridPrefix(headers, subs, default, data, r + 1);
        return rows, err;
      }
    }
    assert data[..|data|] == data;
    return rows, None;
  }

  /** One step of the record loop: the row of record `r` and its error, added to an unstopped grid. */
  lemma GridAdd(headers: seq<string>, subs: seq<seq<string>>, default: Json, data: seq<Json>, r: nat,
                rows: seq<seq<string>>, cells: seq<string>, err: Option<PyError>)
    requires |headers| == |subs| && r < |data|
    requires GridOf(headers, subs, default, data[..r]) == Grid(rows, None)
    requires cells == Pad(RowOf(headers, subs, default, data[r]).cells, Width(subs))
    requires err == RowOf(headers, subs, default, data[r]).error
    ensures GridOf(headers, subs, default, data[..r + 1]) == Grid(rows + [cells], err)
  {
    GridStep(headers, subs, default, data, r);
  }

  /** A grid that raised keeps the rows and error of the prefix where it raised. */
  lemma {:induction false} GridPrefix(headers: seq<string>, subs: seq<seq<string>>, default: Json, data: seq<Json>, k: nat)
    requires |headers| == |subs| && k <= |data|
    requires GridOf(headers, subs, default, data[..k]).error.Some?
    ensures GridOf(headers, subs, default, data) == GridOf(headers, subs, default, data[..k])
    decreases |data| - k
  {
    if k < |data| {
      var n := |data| - 1;
      assert data[..n][..k] == data[..k];
      GridPrefix(headers, subs, default, data[..n], k);
    } else {
      assert data[..k] == data;
    }
  }

  /** `create_table(document, headers, data)`. */
  method CreateTable(doc: Document, headers: seq<string>, data: seq<Json>) returns (error: Option<PyError>)
    modifies doc
    ensures doc.blocks == old(doc.blocks) + PlainTable(headers, data).blocks
    ensures error == PlainTable(headers, data).error
  {
    if headers == [] || data == [] {
      doc.Add(NoData);
      return None;
    }
    var subs := NoSubs(|headers|);
    var header, width := HeaderRow(headers, subs);
    WidthNoSubs(|headers|, |headers|);
    assert subs[..|headers|] == subs;
    var rows;
    rows, error := FillRows(headers, subs, JStr(""), data);
    doc.Add(Table(width, header, rows));
  }

  /**
   * `create_table_with_subcolumns(document, main_headers, data, subheaders)`
   * with the two defects of the source corrected: `None` means no sub-columns,
   * and the sub-header row is written as the table's second row.
   */
  method CreateTableWithSubcolumns(doc: Document, mains: seq<string>, data: seq<Json>, subheaders: Option<seq<Option<seq<string>>>>)
    returns (error: Option<PyError>)
    modifies doc
    ensures doc.blocks == old(doc.blocks) + IntendedSubcolumnTable(mains, data, subheaders).blocks
    ensures error == IntendedSubcolumnTable(mains, data, subheaders).error
  {
    if mains == [] || data == [] {
      doc.Add(NoData);
      return None;
    }
    if subheaders.Some? && subheaders.value != [] && |mains| != |subheaders.value| {
      return Some(ValueError);
    }
    var subs := Layout(mains, if subheaders.Some? then subheaders.value else []);
    var header, width := HeaderRow(mains, subs);
    var top := [];
    if AnyColumns(subs) {
      var second := SubHeaderCells(subs);
      top := [second];
    }
    var rows;
    rows, error := FillRows(mains, subs, JNull, data);
    doc.Add(Table(width, header, top + rows));
  }
}
