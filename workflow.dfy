/**
 * The workflow engine of the wizard: the state table read from a CSV file,
 * its guard conditions, the choice of the next step and the effects of a
 * step on the collected answers.
 */
module Workflow {
  import opened Wrappers
  import opened Text
  import opened JsonValue
  import opened Prompts

  /** One row of the state table: a candidate for the step called `name`. */
  datatype State = State(
    name: string,
    previousState: Option<string>,
    condition: Option<string>,
    questions: seq<string>,
    variables: seq<string>,
    promptActions: seq<string>,
    promptFields: seq<string>,
    variableActions: seq<string>,
    nextState: Option<string>)

  // ---------------------------------------------------------------------------
  // Row splitting
  // ---------------------------------------------------------------------------

  /**
   * The bracket flag after reading `s`: set by `[`, cleared by `]`, so the
   * last bracket character decides (a flag, not a nesting depth).
   */
  predicate InArrayAfter(s: string)
    decreases |s|
  {
    if s == [] then false
    else if s[|s| - 1] == '[' then true
    else if s[|s| - 1] == ']' then false
    else InArrayAfter(s[..|s| - 1])
  }

  /** The character at `i` is a comma outside brackets: a field separator. */
  predicate SplitsAt(line: string, i: int)
    requires 0 <= i < |line|
  {
    line[i] == ',' && !InArrayAfter(line[..i])
  }

  /**
   * `s` cut at every separating comma, the last piece included even when
   * empty; pieces are built left to right, one character at a time.
   */
  function Pieces(s: string): (p: seq<string>)
    ensures |p| >= 1
    decreases |s|
  {
    if s == [] then [""]
    else
      var init := s[..|s| - 1];
      var p := Pieces(init);
      if SplitsAt(s, |s| - 1) then p + [""]
      else p[..|p| - 1] + [p[|p| - 1] + [s[|s| - 1]]]
  }

  /** The fields of a row: the pieces, without an empty last piece. */
  function Fields(line: string): seq<string> {
    var p := Pieces(line);
    if p[|p| - 1] == "" then p[..|p| - 1] else p
  }

  /** Python's `parse_csv_line(line)`. */
  method ParseCsvLine(line: string) returns (parts: seq<string>)
    ensures parts == Fields(line)
  {
    parts := [];
    var current := "";
    var inArray := false;
    for k := 0 to |line|
      invariant parts + [current] == Pieces(line[..k])
      invariant inArray == InArrayAfter(line[..k])
    {
      var c := line[k];
      assert line[..k + 1][..k] == line[..k];
      if c == '[' {
        inArray := true;
      } else if c == ']' {
        inArray := false;
      }
      if c == ',' && !inArray {
        parts := parts + [current];
        current := "";
      } else {
        current := current + [c];
      }
    }
    assert line[..|line|] == line;
    if current != "" {
      parts := parts + [current];
    }
  }

  /** Appending a character to the last piece appends it to the joined text. */
  lemma JoinExtendLast(p: seq<string>, c: char, sep: string)
    requires |p| >= 1
    ensures Join(p[..|p| - 1] + [p[|p| - 1] + [c]], sep) == Join(p, sep) + [c]
  {
    var n := |p|;
    if n == 1 {
      assert p[..0] + [p[0] + [c]] == [p[0] + [c]];
    } else {
      JoinSnoc(p[..n - 1], p[n - 1] + [c], sep);
      JoinSnoc(p[..n - 1], p[n - 1], sep);
      assert p[..n - 1] + [p[n - 1]] == p;
    }
  }

  /** Joining the pieces with commas gives back the text. */
  lemma {:induction false} PiecesJoin(s: string)
    ensures Join(Pieces(s), ",") == s
    decreases |s|
  {
    if s != [] {
      var init := s[..|s| - 1];
      PiecesJoin(init);
      var p := Pieces(init);
      if SplitsAt(s, |s| - 1) {
        JoinSnoc(p, "", ",");
      } else {
        JoinExtendLast(p, s[|s| - 1], ",");
      }
      assert init + [s[|s| - 1]] == s;
    }
  }

  /** The row ends with a separating comma, whose empty last field is dropped. */
  predicate EndsWithSeparator(line: string) {
    line != [] && SplitsAt(line, |line| - 1)
  }

  /**
   * Joining the fields with commas gives back the row, except that a
   * trailing separating comma is lost.
   */
  lemma FieldsJoin(line: string)
    ensures Join(Fields(line), ",") + (if EndsWithSeparator(line) then "," else "") == line
  {
    PiecesJoin(line);
    var p := Pieces(line);
    if line == [] {
    } else if EndsWithSeparator(line) {
      assert p == Pieces(line[..|line| - 1]) + [""];
      JoinSnoc(p[..|p| - 1], "", ",");
      assert p[..|p| - 1] + [""] == p;
    } else {
      assert p[|p| - 1] != "";
    }
  }

  /** Without a `[`, the bracket flag is never set. */
  lemma {:induction false} NoBracketNoArray(s: string)
    requires '[' !in s
    ensures !InArrayAfter(s)
    decreases |s|
  {
    if s != [] && s[|s| - 1] != ']' {
      NoBracketNoArray(s[..|s| - 1]);
    }
  }

  /** In a row without brackets every comma separates: no piece holds a comma. */
  lemma {:induction false} PiecesWithoutBrackets(s: string)
    requires '[' !in s
    ensures forall f :: f in Pieces(s) ==> ',' !in f
    decreases |s|
  {
    if s != [] {
      var init := s[..|s| - 1];
      assert '[' !in init;
      PiecesWithoutBrackets(init);
      NoBracketNoArray(init);
      var p := Pieces(init);
      if !SplitsAt(s, |s| - 1) {
        assert s[|s| - 1] != ',';
        assert p[|p| - 1] in p;
        forall f | f in Pieces(s) ensures ',' !in f {
          if f != p[|p| - 1] + [s[|s| - 1]] {
            assert f in p[..|p| - 1];
          }
        }
      }
    }
  }

  /** One more character: how the pieces and the bracket flag evolve. */
  lemma PiecesSnoc(s: string, c: char)
    ensures InArrayAfter(s + [c]) == (c == '[' || (c != ']' && InArrayAfter(s)))
    ensures Pieces(s + [c]) ==
      var p := Pieces(s);
      if c == ',' && !InArrayAfter(s) then p + [""] else p[..|p| - 1] + [p[|p| - 1] + [c]]
  {
    assert (s + [c])[..|s|] == s;
  }

  /** A character that does not separate extends the last piece. */
  lemma PiecesExtend(s: string, c: char, done: seq<string>, last: string)
    requires Pieces(s) == done + [last]
    requires !(c == ',' && !InArrayAfter(s))
    ensures Pieces(s + [c]) == done + [last + [c]]
    ensures InArrayAfter(s + [c]) == (c == '[' || (c != ']' && InArrayAfter(s)))
  {
    PiecesSnoc(s, c);
    var p := done + [last];
    assert p[..|p| - 1] == done;
  }

  /** A separating comma starts a new, empty piece. */
  lemma PiecesSeparate(s: string, done: seq<string>, last: string)
    requires Pieces(s) == done + [last]
    requires !InArrayAfter(s)
    ensures Pieces(s + [',']) == done + [last, ""]
    ensures !InArrayAfter(s + [','])
  {
    PiecesSnoc(s, ',');
  }

  /**
   * Once a `[` is read, nothing up to the next `]` separates: commas inside a
   * bracketed list stay in the current field.
   */
  lemma {:induction false} BracketKeepsField(s: string, y: string)
    requires ']' !in y
    ensures var p := Pieces(s); Pieces(s + "[" + y) == p[..|p| - 1] + [p[|p| - 1] + "[" + y]
    ensures InArrayAfter(s + "[" + y)
    decreases |y|
  {
    var p := Pieces(s);
    if y == [] {
      assert s + "[" + y == s + ['['];
      PiecesExtend(s, '[', p[..|p| - 1], p[|p| - 1]);
      assert p[|p| - 1] + "[" + y == p[|p| - 1] + ['['];
    } else {
      var y' := y[..|y| - 1];
      var c := y[|y| - 1];
      assert ']' !in y';
      BracketKeepsField(s, y');
      var t := s + "[" + y';
      assert y == y' + [c];
      assert s + "[" + (y' + [c]) == s + "[" + y' + [c];
      PiecesExtend(t, c, p[..|p| - 1], p[|p| - 1] + "[" + y');
      assert p[|p| - 1] + "[" + (y' + [c]) == p[|p| - 1] + "[" + y' + [c];
    }
  }

  // ---------------------------------------------------------------------------
  // Reading the state table
  // ---------------------------------------------------------------------------

  /** The literal `null` in an optional text column means "absent". */
  function NullToNone(field: string): (r: Option<string>)
    ensures r == None <==> field == "null"
    ensures r.Some? ==> r.value == field
  {
    if field == "null" then None else Some(field)
  }

  /**
   * `json.loads` of the list columns 3 to 7, in order, from column `k` on:
   * a missing column raises IndexError, a column that fails to decode stops
   * the row with `Ok(None)` (it is skipped).
   */
  function DecodeLists(row: seq<string>, k: nat, decode: string -> Option<seq<string>>): (r: Result<Option<seq<seq<string>>>>)
    requires 3 <= k <= 8 && k <= |row|
    ensures r.Raised? ==> r.error == IndexError && |row| < 8
    ensures r.Ok? && r.value.Some? ==> (|row| >= 8 && |r.value.value| == 8 - k
      && forall j :: 0 <= j < 8 - k ==> decode(row[k + j]) == Some(r.value.value[j]))
    ensures r.Raised? <==> |row| < 8 && forall j :: k <= j < |row| ==> decode(row[j]).Some?
    ensures r == Ok(None) <==> exists j :: k <= j < 8 && j < |row| && decode(row[j]).None?
    ensures |row| >= 8 && (forall j :: k <= j < 8 ==> decode(row[j]).Some?) ==> r.Ok? && r.value.Some?
    decreases 8 - k
  {
    if k == 8 then Ok(Some([]))
    else if |row| <= k then Raised(IndexError)
    else match decode(row[k])
      case None => Ok(None)
      case Some(v) =>
        match DecodeLists(row, k + 1, decode)
        case Raised(e) => Raised(e)
        case Ok(None) => Ok(None)
        case Ok(Some(vs)) => Ok(Some([v] + vs))
  }

  /**
   * One line of the table file: `Ok(None)` when the line is blank or a list
   * column fails to decode, IndexError when a column is missing before a
   * decode fails, and a state when all nine columns are there and decode.
   */
  function ParseRow(line: string, decode: string -> Option<seq<string>>): (r: Result<Option<State>>)
    ensures Strip(line) == "" ==> r == Ok(None)
    ensures r.Raised? ==> r.error == IndexError
    ensures r.Ok? && r.value.Some? ==>
      var s := r.value.value;
      var row := Fields(Strip(line));
      |row| >= 9 && s.name == row[0]
      && s.previousState == NullToNone(row[1]) && s.condition == NullToNone(row[2])
      && decode(row[3]) == Some(s.questions) && decode(row[4]) == Some(s.variables)
      && decode(row[5]) == Some(s.promptActions) && decode(row[6]) == Some(s.promptFields)
      && decode(row[7]) == Some(s.variableActions) && s.nextState == NullToNone(row[8])
    ensures Strip(line) != "" && |Fields(Strip(line))| >= 9 ==>
      (r == Ok(None) <==> exists j :: 3 <= j < 8 && decode(Fields(Strip(line))[j]).None?)
    ensures var row := Fields(Strip(line));
      r.Raised? <==> Strip(line) != "" && |row| < 9 && forall j :: 3 <= j < |row| && j < 8 ==> decode(row[j]).Some?
    ensures var row := Fields(Strip(line));
      Strip(line) != "" && |row| >= 9 && (forall j :: 3 <= j < 8 ==> decode(row[j]).Some?) ==> r.Ok? && r.value.Some?
  {
    var text := Strip(line);
    if text == "" then Ok(None)
    else
      var row := Fields(text);
      if |row| < 3 then Raised(IndexError)
      else match DecodeLists(row, 3, decode)
        case Raised(e) => Raised(e)
        case Ok(None) => Ok(None)
        case Ok(Some(vs)) =>
          if |row| < 9 then Raised(IndexError)
          else Ok(Some(State(row[0], NullToNone(row[1]), NullToNone(row[2]),
                             vs[0], vs[1], vs[2], vs[3], vs[4], NullToNone(row[8]))))
  }

  /** The rows of the first lines of the file, in file order, or the first crash. */
  function ParsedRows(lines: seq<string>, decode: string -> Option<seq<string>>): (r: Result<seq<State>>)
    ensures r.Ok? ==> (|r.value| <= |lines|
      && forall s :: s in r.value ==> exists i :: 0 <= i < |lines| && ParseRow(lines[i], decode) == Ok(Some(s)))
    decreases |lines|
  {
    if lines == [] then Ok([])
    else
      var init := lines[..|lines| - 1];
      match ParsedRows(init, decode)
      case Raised(e) => Raised(e)
      case Ok(rows) =>
        match ParseRow(lines[|lines| - 1], decode)
        case Raised(e) => Raised(e)
        case Ok(None) => Ok(rows)
        case Ok(Some(s)) => Ok(rows + [s])
  }

  /** Reading one more line of the file. */
  lemma ParsedRowsSnoc(lines: seq<string>, k: nat, decode: string -> Option<seq<string>>)
    requires k < |lines|
    ensures ParsedRows(lines[..k + 1], decode) ==
      match ParsedRows(lines[..k], decode)
      case Raised(e) => Raised(e)
      case Ok(rows) =>
        match ParseRow(lines[k], decode)
        case Raised(e) => Raised(e)
        case Ok(None) => Ok(rows)
        case Ok(Some(s)) => Ok(rows + [s])
  {
    assert lines[..k + 1][..k] == lines[..k];
  }

  /** A crash while reading a prefix of the file is the crash of the whole file. */
  lemma {:induction false} ParsedRowsCrashPersists(lines: seq<string>, k: nat, decode: string -> Option<seq<string>>)
    requires k <= |lines| && ParsedRows(lines[..k], decode).Raised?
    ensures ParsedRows(lines, decode) == ParsedRows(lines[..k], decode)
    decreases |lines| - k
  {
    if k < |lines| {
      assert lines[..k + 1][..k] == lines[..k];
      ParsedRowsCrashPersists(lines, k + 1, decode);
    } else {
      assert lines[..k] == lines;
    }
  }

  /** The candidates named `name`, in the order of `rows`. */
  function Named(rows: seq<State>, name: string): (r: seq<State>)
    ensures forall s :: s in r <==> s in rows && s.name == name
    ensures |r| <= |rows|
    decreases |rows|
  {
    if rows == [] then []
    else if rows[|rows| - 1].name == name then Named(rows[..|rows| - 1], name) + [rows[|rows| - 1]]
    else Named(rows[..|rows| - 1], name)
  }

  /** No row carries `name`: it has no candidates. */
  lemma {:induction false} NamedNone(rows: seq<State>, name: string)
    requires forall s :: s in rows ==> s.name != name
    ensures Named(rows, name) == []
    decreases |rows|
  {
    if rows != [] {
      var init := rows[..|rows| - 1];
      assert forall s :: s in init ==> s in rows;
      NamedNone(init, name);
    }
  }

  /** The state table: each step name maps to its candidates in file order. */
  function GroupByName(rows: seq<State>): (table: map<string, seq<State>>)
    ensures forall n :: n in table <==> exists s :: s in rows && s.name == n
    ensures forall n :: n in table ==> table[n] == Named(rows, n) && table[n] != []
  {
    map n | n in (set s | s in rows :: s.name) :: Named(rows, n)
  }

  /** Appending a row to the file appends it to its own name's candidates only. */
  lemma GroupByNameSnoc(rows: seq<State>, s: State)
    ensures GroupByName(rows + [s]) ==
      GroupByName(rows)[s.name := (if s.name in GroupByName(rows) then GroupByName(rows)[s.name] else []) + [s]]
  {
    var before := GroupByName(rows);
    var after := GroupByName(rows + [s]);
    var expected := before[s.name := (if s.name in before then before[s.name] else []) + [s]];
    assert (rows + [s])[..|rows|] == rows;
    forall n | n in after ensures n in expected && after[n] == expected[n] {
      if n != s.name {
        var x :| x in rows + [s] && x.name == n;
        assert x in rows;
      } else if s.name !in before {
        NamedNone(rows, n);
      }
    }
    forall n | n in expected ensures n in after {
      if n != s.name {
        var x :| x in rows && x.name == n;
        assert x in rows + [s];
      } else {
        assert s in rows + [s];
      }
    }
  }

  /** Python's `parse_state_machine`, over the lines of the table file. */
  method ParseStateMachine(lines: seq<string>, decode: string -> Option<seq<string>>)
    returns (r: Result<map<string, seq<State>>>)
    ensures match ParsedRows(lines, decode)
      case Raised(e) => r == Raised(e)
      case Ok(rows) => r == Ok(GroupByName(rows))
  {
    var states: map<string, seq<State>> := map[];
    ghost var rows: seq<State> := [];
    for k := 0 to |lines|
      invariant ParsedRows(lines[..k], decode) == Ok(rows)
      invariant states == GroupByName(rows)
    {
      ParsedRowsSnoc(lines, k, decode);
      match ParseRow(lines[k], decode)
      case Raised(e) =>
        ParsedRowsCrashPersists(lines, k + 1, decode);
        return Raised(e);
      case Ok(None) =>
      case Ok(Some(s)) =>
        GroupByNameSnoc(rows, s);
        var group := if s.name in states then states[s.name] else [];
        states := states[s.name := group + [s]];
        rows := rows + [s];
    }
    assert lines[..|lines|] == lines;
    r := Ok(states);
  }

  // ---------------------------------------------------------------------------
  // Guard conditions and the choice of a candidate
  // ---------------------------------------------------------------------------

  /** `s.lstrip(c)`: `s` without its leading run of `c`. */
  function DropLeading(s: string, c: char): (r: string)
    ensures |r| <= |s| && r == s[|s| - |r|..]
    ensures forall i :: 0 <= i < |s| - |r| ==> s[i] == c
    ensures r == [] || r[0] != c
  {
    if s != [] && s[0] == c then DropLeading(s[1..], c) else s
  }

  /** The answer text as the guard compares it: trimmed and lower-cased. */
  function Normalized(s: string): string {
    Lower(Strip(s))
  }

  /** The readings that make a positive condition hold. */
  predicate Affirmative(v: string) {
    v == "yes" || v == "true" || v == "1"
  }

  /** The readings that make a negated condition hold. */
  predicate Negative(v: string) {
    v == "no" || v == "false" || v == "0" || v == ""
  }

  /** The answer stored for `key` under a guard: an absent key reads as the empty string. */
  function GuardValue(key: string, data: map<string, Json>): Json {
    if key in data then data[key] else JStr("")
  }

  /**
   * Python's `evaluate_condition`: no condition holds; `x` holds when the
   * answer reads yes/true/1; `!x` holds when it reads no/false/0 or is empty.
   * A non-text answer (a list, a dict, a number or null) has no `strip` and
   * raises AttributeError.
   */
  function EvaluateCondition(condition: Option<string>, data: map<string, Json>): (r: Result<bool>)
    ensures r.Raised? ==> r.error == AttributeError
    ensures condition == None || condition == Some("") ==> r == Ok(true)
  {
    if condition == None || condition.value == "" then Ok(true)
    else
      var c := condition.value;
      var value := GuardValue(DropLeading(c, '!'), data);
      if !value.JStr? then Raised(AttributeError)
      else
        var v := Normalized(value.str);
        if c[0] == '!' then Ok(Negative(v)) else Ok(Affirmative(v))
  }

  /** A guard crashes exactly when it reads a stored answer that is not text. */
  lemma ConditionCrashes(condition: Option<string>, data: map<string, Json>)
    ensures EvaluateCondition(condition, data).Raised? <==>
      (condition.Some? && condition.value != "" && !GuardValue(DropLeading(condition.value, '!'), data).JStr?)
  {
  }

  lemma DropBang(x: string)
    requires x != [] && x[0] != '!'
    ensures DropLeading("!" + x, '!') == x && DropLeading(x, '!') == x
  {
    assert ("!" + x)[1..] == x;
  }

  /** A condition naming an absent key: `x` is false, `!x` is true. */
  lemma ConditionAbsentKey(x: string, data: map<string, Json>)
    requires x != [] && x[0] != '!' && x !in data
    ensures EvaluateCondition(Some(x), data) == Ok(false)
    ensures EvaluateCondition(Some("!" + x), data) == Ok(true)
  {
    DropBang(x);
    assert Normalized("") == "" by { assert Strip("") == ""; }
  }

  /** `x` and `!x` never hold together. */
  lemma ConditionExclusive(x: string, data: map<string, Json>)
    requires x != [] && x[0] != '!'
    ensures !(EvaluateCondition(Some(x), data) == Ok(true) && EvaluateCondition(Some("!" + x), data) == Ok(true))
  {
    DropBang(x);
  }

  /** On a text answer both `x` and `!x` evaluate, to the reading of the trimmed, lower-cased answer. */
  lemma ConditionReadings(x: string, data: map<string, Json>)
    requires x != [] && x[0] != '!' && x in data && data[x].JStr?
    ensures EvaluateCondition(Some(x), data) == Ok(Affirmative(Normalized(data[x].str)))
    ensures EvaluateCondition(Some("!" + x), data) == Ok(Negative(Normalized(data[x].str)))
  {
    DropBang(x);
  }

  /** All leading `!` are dropped for the lookup: `!!x` reads the same as `!x`. */
  lemma ConditionManyBangs(x: string, data: map<string, Json>)
    ensures EvaluateCondition(Some("!!" + x), data) == EvaluateCondition(Some("!" + x), data)
  {
    assert ("!!" + x)[1..] == "!" + x;
  }

  /**
   * Python's list comprehension over the candidates, for a guard `eval`:
   * the candidates whose guard holds, in order; every guard is evaluated, and
   * the first crash propagates.
   */
  function Filtered(options: seq<State>, eval: Option<string> -> Result<bool>): (r: Result<seq<State>>)
    ensures r.Ok? <==> forall i :: 0 <= i < |options| ==> eval(options[i].condition).Ok?
    decreases |options|
  {
    if options == [] then Ok([])
    else
      match eval(options[0].condition)
      case Raised(e) => Raised(e)
      case Ok(holds) =>
        match Filtered(options[1..], eval)
        case Raised(e) => Raised(e)
        case Ok(rest) => Ok(if holds then [options[0]] + rest else rest)
  }

  /** Nothing passes exactly when every guard evaluates to false. */
  lemma {:induction false} FilteredEmpty(options: seq<State>, eval: Option<string> -> Result<bool>)
    ensures Filtered(options, eval) == Ok([]) <==>
      forall i :: 0 <= i < |options| ==> eval(options[i].condition) == Ok(false)
    decreases |options|
  {
    if options != [] {
      FilteredEmpty(options[1..], eval);
      assert forall i :: 0 <= i < |options[1..]| ==> options[1..][i] == options[i + 1];
    }
  }

  /** The first candidate to pass is the first whose guard holds; every earlier guard is false. */
  lemma {:induction false} FilteredHead(options: seq<State>, eval: Option<string> -> Result<bool>)
    requires Filtered(options, eval).Ok? && Filtered(options, eval).value != []
    ensures exists i :: (0 <= i < |options| && options[i] == Filtered(options, eval).value[0]
      && eval(options[i].condition) == Ok(true)
      && forall j :: 0 <= j < i ==> eval(options[j].condition) == Ok(false))
    decreases |options|
  {
    var first := Filtered(options, eval).value[0];
    if eval(options[0].condition) == Ok(true) {
      assert options[0] == first;
    } else {
      FilteredHead(options[1..], eval);
      var i :| 0 <= i < |options[1..]| && options[1..][i] == first
        && eval(options[1..][i].condition) == Ok(true)
        && forall j :: 0 <= j < i ==> eval(options[1..][j].condition) == Ok(false);
      forall j | 0 <= j < i + 1 ensures eval(options[j].condition) == Ok(false) {
        if j > 0 { assert options[j] == options[1..][j - 1]; }
      }
      assert options[i + 1] == first;
    }
  }

  /** What passes is exactly the candidates whose guard holds. */
  lemma {:induction false} FilteredMembers(options: seq<State>, eval: Option<string> -> Result<bool>)
    requires Filtered(options, eval).Ok?
    ensures forall s :: s in Filtered(options, eval).value <==> s in options && eval(s.condition) == Ok(true)
    decreases |options|
  {
    if options != [] {
      FilteredMembers(options[1..], eval);
      assert options == [options[0]] + options[1..];
    }
  }

  /** The valid candidates under the collected answers `data`. */
  function ValidStates(options: seq<State>, data: map<string, Json>): Result<seq<State>> {
    Filtered(options, c => EvaluateCondition(c, data))
  }

  /** The selected candidate: the first valid one, if any. */
  function Select(options: seq<State>, data: map<string, Json>): Result<Option<State>> {
    match ValidStates(options, data)
    case Raised(e) => Raised(e)
    case Ok(valid) => if valid == [] then Ok(None) else Ok(Some(valid[0]))
  }

  /**
   * First-match selection: the chosen candidate's condition holds and every
   * earlier candidate's condition is false; nothing is chosen exactly when
   * every condition is false; a crash in any guard, even after a valid
   * candidate, is a crash of the selection.
   */
  lemma SelectFirstMatch(options: seq<State>, data: map<string, Json>)
    ensures Select(options, data).Raised? <==>
      exists i :: 0 <= i < |options| && EvaluateCondition(options[i].condition, data).Raised?
    ensures Select(options, data) == Ok(None) <==>
      forall i :: 0 <= i < |options| ==> EvaluateCondition(options[i].condition, data) == Ok(false)
    ensures Select(options, data).Ok? && Select(options, data).value.Some? ==>
      exists i :: (0 <= i < |options| && options[i] == Select(options, data).value.value
        && EvaluateCondition(options[i].condition, data) == Ok(true)
        && forall j :: 0 <= j < i ==> EvaluateCondition(options[j].condition, data) == Ok(false))
  {
    var eval := c => EvaluateCondition(c, data);
    FilteredEmpty(options, eval);
    if Filtered(options, eval).Ok? && Filtered(options, eval).value != [] {
      FilteredHead(options, eval);
    }
  }

  /** A candidate without a condition is always selectable once no guard crashes. */
  lemma SelectUnconditioned(options: seq<State>, data: map<string, Json>, i: nat)
    requires i < |options| && options[i].condition == None
    requires ValidStates(options, data).Ok?
    ensures Select(options, data).Ok? && Select(options, data).value.Some?
  {
    var eval := c => EvaluateCondition(c, data);
    FilteredMembers(options, eval);
    assert options[i] in Filtered(options, eval).value;
  }

  /** The candidates stored under the current step; none when the step is unnamed or unknown. */
  function Candidates(states: map<string, seq<State>>, current: Option<string>): seq<State> {
    if current.Some? && current.value in states then states[current.value] else []
  }

  // ---------------------------------------------------------------------------
  // Effects of a step on the collected answers
  // ---------------------------------------------------------------------------

  /** The value a `key=value` action stores: null for the literal `null`, else the text. */
  function ActionValue(text: string): (v: Json)
    ensures v == JNull <==> text == "null"
    ensures v != JNull ==> v == JStr(text)
  {
    if text == "null" then JNull else JStr(text)
  }

  /**
   * `var, value = action.split("=")`: exactly one `=` is accepted; any other
   * count fails to unpack with ValueError.
   */
  function ParseAction(action: string): (r: Result<(string, Json)>)
    ensures r.Raised? ==> r.error == ValueError
    ensures r.Ok? ==> var k := |r.value.0|;
      k < |action| && action[k] == '=' && action[..k] == r.value.0 && '=' !in r.value.0
      && '=' !in action[k + 1..] && r.value.1 == ActionValue(action[k + 1..])
    ensures r.Raised? ==> forall i :: 0 <= i < |action| && action[i] == '=' ==>
      '=' in action[..i] || '=' in action[i + 1..]
  {
    var parts := Split(action, '=');
    if |parts| != 2 then
      SplitNotTwo(action);
      Raised(ValueError)
    else
      SplitTwo(action);
      Ok((parts[0], ActionValue(parts[1])))
  }

  /** Two pieces: the text is the first piece, `=`, the second piece. */
  lemma SplitTwo(s: string)
    requires |Split(s, '=')| == 2
    ensures var parts := Split(s, '=');
      |parts[0]| < |s| && s[|parts[0]|] == '=' && s[..|parts[0]|] == parts[0] && s[|parts[0]| + 1..] == parts[1]
  {
    var parts := Split(s, '=');
    assert parts[1..] == [parts[1]];
    assert s == parts[0] + "=" + parts[1];
  }

  /** Not two pieces: no `=` is the only one. */
  lemma SplitNotTwo(s: string)
    requires |Split(s, '=')| != 2
    ensures forall i :: 0 <= i < |s| && s[i] == '=' ==> '=' in s[..i] || '=' in s[i + 1..]
  {
    forall i | 0 <= i < |s| && s[i] == '=' && '=' !in s[..i]
      ensures '=' in s[i + 1..]
    {
      SplitAtOnly(s, i);
    }
  }

  /** Splitting at the first `=` when no other follows gives exactly two pieces. */
  lemma SplitAtOnly(s: string, i: nat)
    requires i < |s| && s[i] == '=' && '=' !in s[..i]
    requires |Split(s, '=')| != 2
    ensures '=' in s[i + 1..]
  {
    assert IndexOf(s, '=') == Some(i);
  }

  /**
   * The variable actions of a step applied in order: the answers after the
   * actions that succeeded, and the error of the first one that failed.
   */
  function ApplyActions(data: map<string, Json>, actions: seq<string>): (r: (map<string, Json>, Option<PyError>))
    decreases |actions|
  {
    if actions == [] then (data, None)
    else
      match ParseAction(actions[0])
      case Raised(e) => (data, Some(e))
      case Ok(kv) => ApplyActions(data[kv.0 := kv.1], actions[1..])
  }

  /** The key an action assigns, when it parses. */
  function ActionKey(action: string): Option<string> {
    match ParseAction(action)
    case Ok(kv) => Some(kv.0)
    case Raised(_) => None
  }

  /**
   * Only the keys the actions name change: any other key keeps its presence
   * and its value.
   */
  lemma {:induction false} ApplyActionsFrame(data: map<string, Json>, actions: seq<string>, key: string)
    requires forall i :: 0 <= i < |actions| ==> ActionKey(actions[i]) != Some(key)
    ensures var after := ApplyActions(data, actions).0;
      (key in after <==> key in data) && (key in data ==> after[key] == data[key])
    decreases |actions|
  {
    if actions != [] {
      match ParseAction(actions[0])
      case Raised(_) =>
      case Ok(kv) =>
        assert ActionKey(actions[0]) == Some(kv.0);
        assert forall i :: 0 <= i < |actions[1..]| ==> actions[1..][i] == actions[i + 1];
        ApplyActionsFrame(data[kv.0 := kv.1], actions[1..], key);
    }
  }

  /** When every action parses, each assigned key ends up present. */
  lemma {:induction false} ApplyActionsAssigns(data: map<string, Json>, actions: seq<string>)
    ensures ApplyActions(data, actions).1 == None ==>
      forall i :: 0 <= i < |actions| ==> ParseAction(actions[i]).Ok? && ParseAction(actions[i]).value.0 in ApplyActions(data, actions).0
    decreases |actions|
  {
    if actions != [] {
      match ParseAction(actions[0])
      case Raised(_) =>
      case Ok(kv) =>
        ApplyActionsAssigns(data[kv.0 := kv.1], actions[1..]);
        var rest := ApplyActions(data[kv.0 := kv.1], actions[1..]);
        if rest.1 == None {
          ApplyActionsKeeps(data[kv.0 := kv.1], actions[1..], kv.0);
          forall i | 1 <= i < |actions| ensures ParseAction(actions[i]).Ok? && ParseAction(actions[i]).value.0 in rest.0 {
            assert actions[i] == actions[1..][i - 1];
          }
        }
    }
  }

  /** Actions only add or overwrite keys: a present key stays present. */
  lemma {:induction false} ApplyActionsKeeps(data: map<string, Json>, actions: seq<string>, key: string)
    requires key in data
    ensures key in ApplyActions(data, actions).0
    decreases |actions|
  {
    if actions != [] {
      match ParseAction(actions[0])
      case Raised(_) =>
      case Ok(kv) => ApplyActionsKeeps(data[kv.0 := kv.1], actions[1..], key);
    }
  }

  /** The answers typed for the questions of `s`, from pair `k` on, zipped with its variables. */
  function AnswersFrom(data: map<string, Json>, s: State, k: nat, ask: string -> string): map<string, Json>
    decreases |s.questions| - k
  {
    if k >= |s.questions| || k >= |s.variables| then data
    else AnswersFrom(data[s.variables[k] := JStr(ask(s.questions[k]))], s, k + 1, ask)
  }

  /** The services a prompt action relies on: the default fragments, the model and `json.loads`. */
  datatype Oracles = Oracles(
    defaults: map<string, Json>,
    complete: string -> Option<string>,
    parseJson: string -> Option<Json>)

  /** A cleaned reply as stored: its JSON value when it decodes, else the text itself. */
  function Decoded(text: string, parseJson: string -> Option<Json>): Json {
    match parseJson(text)
    case Some(v) => v
    case None => JStr(text)
  }

  /**
   * Prompt action `i` of `s`: the prompt with its markers replaced is sent to
   * the model, and the cleaned reply is stored under field `i`. Nothing is
   * stored when there is no field `i` (or, with `skipBlank`, when it is
   * empty) or when the call fails.
   */
  function PromptStep(data: map<string, Json>, s: State, i: nat, env: Oracles, skipBlank: bool): map<string, Json>
    requires i < |s.promptActions|
  {
    var prompt := ReplaceMarkers(s.promptActions[i], data, env.defaults);
    if i >= |s.promptFields| || (skipBlank && s.promptFields[i] == "") then data
    else
      match env.complete(prompt)
      case None => data
      case Some(raw) => data[s.promptFields[i] := Decoded(CleanResponse(raw), env.parseJson)]
  }

  /** The prompt actions of `s` from action `i` on, each seeing the answers the previous ones stored. */
  function PromptsFrom(data: map<string, Json>, s: State, i: nat, env: Oracles, skipBlank: bool): map<string, Json>
    decreases |s.promptActions| - i
  {
    if i >= |s.promptActions| then data
    else PromptsFrom(PromptStep(data, s, i, env, skipBlank), s, i + 1, env, skipBlank)
  }

  /** Prompt actions write only prompt fields: any other key keeps its presence and value. */
  lemma {:induction false} PromptsFrame(data: map<string, Json>, s: State, i: nat, env: Oracles, skipBlank: bool, key: string)
    requires key !in s.promptFields
    ensures var after := PromptsFrom(data, s, i, env, skipBlank);
      (key in after <==> key in data) && (key in data ==> after[key] == data[key])
    decreases |s.promptActions| - i
  {
    if i < |s.promptActions| {
      PromptsFrame(PromptStep(data, s, i, env, skipBlank), s, i + 1, env, skipBlank, key);
    }
  }

  /** A stored reply that is not JSON is the cleaned text: trimmed at both ends. */
  lemma PromptStepStoresCleanText(data: map<string, Json>, s: State, i: nat, env: Oracles, skipBlank: bool)
    requires i < |s.promptActions| && i < |s.promptFields|
    requires !(skipBlank && s.promptFields[i] == "")
    requires env.complete(ReplaceMarkers(s.promptActions[i], data, env.defaults)).Some?
    ensures var raw := env.complete(ReplaceMarkers(s.promptActions[i], data, env.defaults)).value;
      var stored := PromptStep(data, s, i, env, skipBlank)[s.promptFields[i]];
      stored == Decoded(CleanResponse(raw), env.parseJson)
      && (env.parseJson(CleanResponse(raw)).None? ==> stored.JStr? && IsStripped(stored.str))
  {
  }

  /**
   * The command-line run (which stores under any field) and the web run
   * (which skips empty field names) agree when no field name is empty.
   */
  lemma {:induction false} PromptsSkipBlankIrrelevant(data: map<string, Json>, s: State, i: nat, env: Oracles)
    requires "" !in s.promptFields
    ensures PromptsFrom(data, s, i, env, true) == PromptsFrom(data, s, i, env, false)
    decreases |s.promptActions| - i
  {
    if i < |s.promptActions| {
      if i < |s.promptFields| {
        assert s.promptFields[i] in s.promptFields;
      }
      assert PromptStep(data, s, i, env, true) == PromptStep(data, s, i, env, false);
      PromptsSkipBlankIrrelevant(PromptStep(data, s, i, env, true), s, i + 1, env);
    }
  }

  /**
   * Python's `run_prompt_actions(state, user_data)` (with `skipBlank`) and the
   * prompt loop of `run_state_machine` (without it), returning the updated answers.
   */
  method RunPromptActions(data: map<string, Json>, s: State, env: Oracles, skipBlank: bool)
    returns (updated: map<string, Json>)
    ensures updated == PromptsFrom(data, s, 0, env, skipBlank)
  {
    updated := data;
    for i := 0 to |s.promptActions|
      invariant PromptsFrom(updated, s, i, env, skipBlank) == PromptsFrom(data, s, 0, env, skipBlank)
    {
      var prompt := ReplaceMarkers(s.promptActions[i], updated, env.defaults);
      var next := updated;
      if i < |s.promptFields| && !(skipBlank && s.promptFields[i] == "") {
        var reply := env.complete(prompt);
        if reply.Some? {
          next := updated[s.promptFields[i] := Decoded(CleanResponse(reply.value), env.parseJson)];
        }
      }
      assert next == PromptStep(updated, s, i, env, skipBlank);
      updated := next;
    }
  }

  /** How one iteration of `run_state_machine` ends. */
  datatype StepOutcome = Moved | Halted | Crashed(error: PyError)

  /** The command-line wizard: the collected answers and the current step. */
  class Wizard {
    var userData: map<string, Json>
    var current: Option<string>

    /** A run starts with no answers at step `q1`. */
    constructor()
      ensures userData == map[] && current == Some("q1")
    {
      userData := map[];
      current := Some("q1");
    }

    /**
     * One iteration of the `while current_state` loop: select the first valid
     * candidate, apply its variable actions, store the typed answers, run
     * its prompt actions, then move to its next step. The loop stops on an
     * empty or missing step name, an unknown step or no valid candidate.
     */
    method Step(states: map<string, seq<State>>, ask: string -> string, env: Oracles) returns (outcome: StepOutcome)
      modifies this
      ensures var options := Candidates(states, old(current));
        if old(current) == None || old(current) == Some("") || options == [] then
          outcome == Halted && userData == old(userData) && current == old(current)
        else match Select(options, old(userData))
          case Raised(e) => outcome == Crashed(e) && userData == old(userData) && current == old(current)
          case Ok(None) => outcome == Halted && userData == old(userData) && current == old(current)
          case Ok(Some(s)) =>
            var applied := ApplyActions(old(userData), s.variableActions);
            if applied.1.Some? then
              outcome == Crashed(applied.1.value) && userData == applied.0 && current == old(current)
            else
              outcome == Moved && current == s.nextState
              && userData == PromptsFrom(AnswersFrom(applied.0, s, 0, ask), s, 0, env, false)
    {
      if current == None || current.value == "" {
        return Halted;
      }
      var options := Candidates(states, current);
      if options == [] {
        return Halted;
      }
      var selected := Select(options, userData);
      if selected.Raised? {
        return Crashed(selected.error);
      }
      if selected.value == None {
        return Halted;
      }
      var s := selected.value.value;
      var failure := ApplyVariableActions(s.variableActions);
      if failure.Some? {
        return Crashed(failure.value);
      }
      StoreAnswers(s, ask);
      userData := RunPromptActions(userData, s, env, false);
      current := s.nextState;
      outcome := Moved;
    }

    /** `user_data[var] = value` for each `key=value` action in turn, stopping at the first malformed one. */
    method ApplyVariableActions(actions: seq<string>) returns (failure: Option<PyError>)
      modifies this
      ensures (userData, failure) == ApplyActions(old(userData), actions)
      ensures current == old(current)
    {
      ghost var before := userData;
      for k := 0 to |actions|
        invariant ApplyActions(userData, actions[k..]) == ApplyActions(before, actions)
        invariant current == old(current)
      {
        assert actions[k..][1..] == actions[k + 1..];
        var parsed := ParseAction(actions[k]);
        if parsed.Raised? {
          return Some(parsed.error);
        }
        userData := userData[parsed.value.0 := parsed.value.1];
      }
      assert ApplyActions(userData, actions[|actions|..]) == (userData, None);
      failure := None;
    }

    /** The typed answer to each question, stored under the variable paired with it. */
    method StoreAnswers(s: State, ask: string -> string)
      modifies this
      ensures userData == AnswersFrom(old(userData), s, 0, ask)
      ensures current == old(current)
    {
      var pairs := if |s.questions| < |s.variables| then |s.questions| else |s.variables|;
      for k := 0 to pairs
        invariant AnswersFrom(userData, s, k, ask) == AnswersFrom(old(userData), s, 0, ask)
        invariant current == old(current)
      {
        userData := userData[s.variables[k] := JStr(ask(s.questions[k]))];
      }
    }
  }
}
