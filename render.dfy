/**
 * The free-text renderers of the report generator: the recursive dispatcher
 * `process_text_with_subheadings`, `process_ict_requirements` and
 * `format_supply_demand_analysis`. Each is a method that appends to a
 * `Document`, proved equal to a function giving the blocks it appends; the
 * properties of the rendering are lemmas about those functions.
 */
module Render {
  import opened Wrappers
  import opened Text
  import opened JsonValue
  import opened Docx

  /** The blocks of `f(x)` for each `x` of `xs`, in order. */
  function Concat<T>(xs: seq<T>, f: T -> seq<Block>): seq<Block> {
    if xs == [] then [] else Concat(xs[..|xs| - 1], f) + f(xs[|xs| - 1])
  }

  lemma ConcatStep<T>(xs: seq<T>, k: nat, f: T -> seq<Block>)
    requires k < |xs|
    ensures Concat(xs[..k + 1], f) == Concat(xs[..k], f) + f(xs[k])
  {
    assert xs[..k + 1][..k] == xs[..k];
  }

  /** `s.replace('_', ' ').title()`, how keys are turned into labels. */
  function Label(key: string): string {
    Title(ReplaceChar(key, '_', ' '))
  }

  // ---------------------------------------------------------------------------
  // Lines of text
  // ---------------------------------------------------------------------------

  /**
   * The subheading test `':' in line and len(line.split(':')[0].strip()) < 30`:
   * when it passes, the text before and after the first colon.
   */
  function Subheading(line: string): (r: Option<(string, string)>)
    ensures ':' !in line ==> r.None?
    ensures r.Some? ==> line == r.value.0 + ":" + r.value.1 && ':' !in r.value.0 && |Strip(r.value.0)| < 30
  {
    match IndexOf(line, ':')
    case None => None
    case Some(i) =>
      var before := line[..i];
      var after := line[i + 1..];
      assert line == before + ":" + after;
      if |Strip(before)| < 30 then Some((before, after)) else None
  }

  /** A line is split at its FIRST colon, and the test looks only at the text before it. */
  lemma SubheadingAt(line: string, before: string, after: string)
    requires line == before + ":" + after && ':' !in before
    ensures Subheading(line) == if |Strip(before)| < 30 then Some((before, after)) else None
  {
    IndexOfJoin(before, after, ':');
    assert line[..|before|] == before && line[|before| + 1..] == after;
  }

  /** The paragraph of a subheading line: bold `before + ": "`, then the rest stripped. */
  function SubheadingPara(before: string, after: string): Block {
    Para([Run(before + ": ", true), Run(Strip(after), false)])
  }

  /** One non-blank stripped line of `process_text_with_subheadings`: subheading, bullet or plain. */
  function LineBlock(line: string): Block {
    match Subheading(line)
    case Some((before, after)) => SubheadingPara(before, after)
    case None => if "- " <= line then Bullet(Strip(line[2..])) else PlainPara(line)
  }

  /** The marker some ICT texts put before a subheading: a middle dot and three no-break spaces. */
  const DotMarker: string := "\U{B7}\U{A0}\U{A0}\U{A0}"

  /** One non-blank stripped line of `process_ict_requirements`: the bullet test comes first. */
  function IctLineBlock(line: string): Block {
    if "- " <= line then Bullet(Strip(line[2..]))
    else if DotMarker <= line then
      match Subheading(Strip(line[4..]))
      case Some((before, after)) => SubheadingPara(before, after)
      case None => PlainPara(line)
    else
      match Subheading(line)
      case Some((before, after)) => SubheadingPara(before, after)
      case None => PlainPara(line)
  }

  /** The lines of a text: stars removed, ends stripped, split at newlines. */
  function CleanLines(s: string): seq<string> {
    Split(Strip(RemoveChar(s, '*')), '\n')
  }

  /** What the line loop appends: each line stripped, blank ones skipped, the rest rendered. */
  function LinesBlocks(lines: seq<string>, render: string -> Block): seq<Block> {
    if lines == [] then []
    else
      var line := Strip(lines[|lines| - 1]);
      var init := LinesBlocks(lines[..|lines| - 1], render);
      if line == [] then init else init + [render(line)]
  }

  /** The non-blank lines, stripped, in order. */
  function NonBlank(lines: seq<string>): (r: seq<string>)
    ensures forall i :: 0 <= i < |r| ==> r[i] != [] && IsStripped(r[i])
  {
    if lines == [] then []
    else
      var line := Strip(lines[|lines| - 1]);
      var init := NonBlank(lines[..|lines| - 1]);
      assert IsStripped(line);
      if line == [] then init else init + [line]
  }

  /** Blank lines emit nothing and every other line exactly one block, in order. */
  lemma {:induction false} LinesBlocksMap(lines: seq<string>, render: string -> Block)
    ensures |LinesBlocks(lines, render)| == |NonBlank(lines)|
    ensures forall i :: 0 <= i < |NonBlank(lines)| ==> LinesBlocks(lines, render)[i] == render(NonBlank(lines)[i])
  {
    if lines != [] {
      LinesBlocksMap(lines[..|lines| - 1], render);
    }
  }

  /** The string case of `process_text_with_subheadings`. */
  function StringBlocks(s: string): seq<Block> {
    LinesBlocks(CleanLines(s), LineBlock)
  }

  /** No text of the block holds a star. */
  predicate StarFree(b: Block) {
    match b
    case Para(runs) => forall i :: 0 <= i < |runs| ==> '*' !in runs[i].text
    case Bullet(t) => '*' !in t
    case Table(_, _, _) => true
  }

  lemma {:induction false} JoinKeepsChars(parts: seq<string>, sep: string, k: nat, c: char)
    requires k < |parts| && c in parts[k]
    ensures c in Join(parts, sep)
  {
    if k > 0 {
      JoinKeepsChars(parts[1..], sep, k - 1, c);
    }
  }

  /** A character missing from a string is missing from the string stripped. */
  lemma StripNoChar(s: string, c: char)
    requires c !in s
    ensures c !in Strip(s)
  {
    StripChars(s);
  }

  lemma SubheadingParaStarFree(before: string, after: string)
    requires '*' !in before && '*' !in after
    ensures StarFree(SubheadingPara(before, after))
  {
    StripNoChar(after, '*');
    var t := Strip(after);
    assert SubheadingPara(before, after) == Para([Run(before + ": ", true), Run(t, false)]);
  }

  lemma LineBlockStarFree(line: string)
    requires '*' !in line
    ensures StarFree(LineBlock(line))
  {
    match Subheading(line)
    case Some((before, after)) =>
      assert before == line[..|before|] && after == line[|before| + 1..];
      SubheadingParaStarFree(before, after);
    case None =>
      if "- " <= line {
        StripNoChar(line[2..], '*');
      }
  }

  /** Every star is removed from a text before its lines are rendered. */
  lemma StringBlocksStarFree(s: string)
    ensures forall b :: b in StringBlocks(s) ==> StarFree(b)
  {
    var clean := Strip(RemoveChar(s, '*'));
    StripChars(RemoveChar(s, '*'));
    var lines := CleanLines(s);
    forall k | 0 <= k < |lines|
      ensures '*' !in lines[k]
    {
      if '*' in lines[k] {
        JoinKeepsChars(lines, "\n", k, '*');
      }
    }
    NonBlankStarFree(lines);
    LinesBlocksMap(lines, LineBlock);
    forall i | 0 <= i < |NonBlank(lines)|
      ensures StarFree(StringBlocks(s)[i])
    {
      LineBlockStarFree(NonBlank(lines)[i]);
    }
  }

  lemma {:induction false} NonBlankStarFree(lines: seq<string>)
    requires forall k :: 0 <= k < |lines| ==> '*' !in lines[k]
    ensures forall i :: 0 <= i < |NonBlank(lines)| ==> '*' !in NonBlank(lines)[i]
  {
    if lines != [] {
      NonBlankStarFree(lines[..|lines| - 1]);
      StripChars(lines[|lines| - 1]);
    }
  }

  /**
   * The subheading test comes before the bullet test in `process_text_with_subheadings`
   * and after it in `process_ict_requirements`: `"- Cost: 5"` is a subheading in the
   * first and a bullet in the second.
   */
  lemma DashedSubheading(item: string, after: string)
    requires ':' !in item && |Strip("- " + item)| < 30
    ensures LineBlock("- " + item + ":" + after) == SubheadingPara("- " + item, after)
    ensures IctLineBlock("- " + item + ":" + after) == Bullet(Strip(item + ":" + after))
  {
    var line := "- " + item + ":" + after;
    SubheadingAt(line, "- " + item, after);
    assert line[2..] == item + ":" + after;
  }

  /** A line without a colon that starts with `"- "` is a bullet of the rest, stripped. */
  lemma BulletLine(line: string)
    requires "- " <= line && ':' !in line
    ensures LineBlock(line) == Bullet(Strip(line[2..]))
  {
  }

  // ---------------------------------------------------------------------------
  // process_text_with_subheadings
  // ---------------------------------------------------------------------------

  const SupplyDemandKey: string := "Supply_and_Demand_Analysis"

  /** The blocks `process_text_with_subheadings(f"{key}: {value}")` appends for a dict entry. */
  function EntryBlocks(entry: (string, Json)): seq<Block> {
    StringBlocks(entry.0 + ": " + PyStr(entry.1))
  }

  /** What `process_text_with_subheadings(document, v)` appends, and what it raises. */
  function TextBlocks(v: Json): (r: Emitted)
    ensures r.error.Some? ==> r.error == Some(AttributeError)
    ensures Falsy(v) ==> r == Done([])
    ensures (v.JInt? || v.JBool?) && !Falsy(v) ==> r == Emitted([], Some(AttributeError))
    ensures v.JStr? || v.JObj? ==> r.error == None
    decreases v, 1, 0
  {
    if Falsy(v) then Done([])
    else match v
      case JObj(kvs) =>
        if SupplyDemandKey in Keys(kvs) then Done(SupplyDemandBlocks(Find(kvs, SupplyDemandKey).value))
        else Done(Concat(kvs, EntryBlocks))
      case JList(items) => ListBlocks(v, |items|)
      case JStr(s) => Done(StringBlocks(s))
      case _ => Emitted([], Some(AttributeError))  // `.replace` on an int or a bool
  }

  /** The blocks of the first `n` elements of a list, stopping at the first that raises. */
  function ListBlocks(v: Json, n: nat): (r: Emitted)
    requires v.JList? && n <= |v.items|
    ensures r.error.Some? ==> r.error == Some(AttributeError)
    decreases v, 0, n
  {
    if n == 0 then Done([]) else Then(ListBlocks(v, n - 1), TextBlocks(v.items[n - 1]))
  }

  /**
   * One more element of a list that has not raised yet, after the blocks `start`;
   * if the element raises, it is the last one rendered.
   */
  lemma ListBlocksStep(start: seq<Block>, v: Json, k: nat)
    requires v.JList? && k < |v.items| && ListBlocks(v, k).error == None
    ensures start + ListBlocks(v, k + 1).blocks == start + ListBlocks(v, k).blocks + TextBlocks(v.items[k]).blocks
    ensures ListBlocks(v, k + 1).error == TextBlocks(v.items[k]).error
    ensures TextBlocks(v.items[k]).error.Some? ==> ListBlocks(v, |v.items|) == ListBlocks(v, k + 1)
  {
    AppendAssoc(start, ListBlocks(v, k).blocks, TextBlocks(v.items[k]).blocks);
    if TextBlocks(v.items[k]).error.Some? {
      assert v == JList(v.items);
      ListStopsAtCrash(v.items, k, |v.items|);
    }
  }

  /** The blocks an element of a list appends. */
  function TextOut(v: Json): seq<Block> {
    TextBlocks(v).blocks
  }

  /** A list renders as the blocks of its elements in order, as long as none raises. */
  lemma {:induction false} ListInOrder(items: seq<Json>, n: nat)
    requires n <= |items|
    requires forall i :: 0 <= i < n ==> TextBlocks(items[i]).error == None
    ensures ListBlocks(JList(items), n) == Done(Concat(items[..n], TextOut))
  {
    if n > 0 {
      ListInOrder(items, n - 1);
      ConcatStep(items, n - 1, TextOut);
    }
  }

  /** Once an element raises, the later ones are not rendered. */
  lemma {:induction false} ListStopsAtCrash(items: seq<Json>, k: nat, n: nat)
    requires k < n <= |items|
    requires ListBlocks(JList(items), k + 1).error.Some?
    ensures ListBlocks(JList(items), n) == ListBlocks(JList(items), k + 1)
  {
    if n > k + 1 {
      ListStopsAtCrash(items, k, n - 1);
    }
  }

  /**
   * A list whose element `k` is the first to raise renders the elements before it,
   * then what element `k` appended before raising, and raises that error.
   */
  lemma ListFirstCrash(items: seq<Json>, k: nat)
    requires k < |items|
    requires forall i :: 0 <= i < k ==> TextBlocks(items[i]).error == None
    requires TextBlocks(items[k]).error.Some?
    ensures TextBlocks(JList(items)) ==
      Emitted(Concat(items[..k], TextOut) + TextBlocks(items[k]).blocks, TextBlocks(items[k]).error)
  {
    ListInOrder(items, k);
    ListStopsAtCrash(items, k, |items|);
  }

  lemma {:induction false} FindAppend(kvs: seq<(string, Json)>, extra: seq<(string, Json)>, key: string)
    requires key in Keys(kvs)
    ensures Find(kvs + extra, key) == Find(kvs, key)
  {
    assert (kvs + extra)[0] == kvs[0];
    if kvs[0].0 != key {
      assert Keys(kvs) == [kvs[0].0] + Keys(kvs[1..]);
      assert (kvs + extra)[1..] == kvs[1..] + extra;
      FindAppend(kvs[1..], extra, key);
    }
  }

  /**
   * A dict holding the supply/demand key renders only that value, whatever
   * other keys follow it; the first block is the section's bold title.
   */
  lemma SupplyDemandOnly(kvs: seq<(string, Json)>, extra: seq<(string, Json)>)
    requires SupplyDemandKey in Keys(kvs)
    ensures TextBlocks(JObj(kvs + extra)) == TextBlocks(JObj(kvs))
    ensures TextBlocks(JObj(kvs)).error == None
    ensures TextBlocks(JObj(kvs)).blocks[0] == BoldPara(SupplyDemandTitle)
  {
    FindAppend(kvs, extra, SupplyDemandKey);
    var k :| 0 <= k < |kvs| && Keys(kvs)[k] == SupplyDemandKey;
    assert Keys(kvs + extra)[k] == SupplyDemandKey;
    SupplyDemandDict(kvs);
    SupplyDemandDict(kvs + extra);
  }

  /** A dict holding the supply/demand key renders as that value's section. */
  lemma SupplyDemandDict(kvs: seq<(string, Json)>)
    requires SupplyDemandKey in Keys(kvs)
    ensures TextBlocks(JObj(kvs)) == Done(SupplyDemandBlocks(Find(kvs, SupplyDemandKey).value))
  {
    assert !Falsy(JObj(kvs));
  }

  /**
   * An entry of any other dict with a short key and a one-line text value renders
   * as one paragraph: the key in bold followed by `": "`, then the value.
   */
  lemma ShortEntry(key: string, value: string)
    requires key != [] && !IsSpace(key[0]) && |key| < 30
    requires ':' !in key && '*' !in key && '\n' !in key
    requires value != [] && !IsSpace(value[|value| - 1]) && '*' !in value && '\n' !in value
    ensures EntryBlocks((key, JStr(value))) == [Para([Run(key + ": ", true), Run(Strip(value), false)])]
  {
    var line := key + ": " + value;
    assert line == key + ":" + (" " + value);
    assert line[0] == key[0] && line[|line| - 1] == value[|value| - 1];
    SingleLine(line);
    assert |Strip(key)| <= |key| by {
      assert Strip(key) == StripRight(StripLeft(key));
    }
    SubheadingAt(line, key, " " + value);
    StripSpaceBefore(value);
  }

  /** A stripped one-line text without stars renders as that line's block alone. */
  lemma SingleLine(line: string)
    requires line != [] && IsStripped(line) && '*' !in line && '\n' !in line
    ensures StringBlocks(line) == [LineBlock(line)]
  {
    assert RemoveChar(line, '*') == line;
    StripStripped(line);
    assert Split(line, '\n') == [line];
    assert LinesBlocks([line], LineBlock) == LinesBlocks([], LineBlock) + [LineBlock(line)];
  }

  /** A space in front of a text is stripped with the rest of its leading whitespace. */
  lemma StripSpaceBefore(value: string)
    ensures Strip(" " + value) == Strip(value)
  {
    assert StripLeft(" " + value) == StripLeft(value) by {
      assert (" " + value)[1..] == value;
    }
  }

  // ---------------------------------------------------------------------------
  // format_supply_demand_analysis
  // ---------------------------------------------------------------------------

  const SupplyDemandTitle: string := "Supply and Demand Analysis"

  /** Number of leading decimal digits. */
  function DigitCount(t: string): (n: nat)
    ensures n <= |t| && AllDigits(t[..n]) && (n == |t| || !IsDigit(t[n]))
  {
    if t != [] && IsDigit(t[0]) then
      var n := 1 + DigitCount(t[1..]);
      assert t[..n] == [t[0]] + t[1..][..n - 1];
      n
    else 0
  }

  /** `re.sub(r'^\d+\.\s*', '', title)`: a leading `"12. "` numbering removed. */
  function StripNumbering(t: string): string {
    var n := DigitCount(t);
    if 0 < n < |t| && t[n] == '.' then StripLeft(t[n + 1..]) else t
  }

  lemma {:induction false} StripLeftSpaces(spaces: string, rest: string)
    requires forall i :: 0 <= i < |spaces| ==> IsSpace(spaces[i])
    requires rest == [] || !IsSpace(rest[0])
    ensures StripLeft(spaces + rest) == rest
  {
    if spaces != [] {
      assert (spaces + rest)[1..] == spaces[1..] + rest;
      StripLeftSpaces(spaces[1..], rest);
    }
  }

  lemma {:induction false} DigitCountPrefix(digits: string, rest: string)
    requires AllDigits(digits) && (rest == [] || !IsDigit(rest[0]))
    ensures DigitCount(digits + rest) == |digits|
  {
    if digits != [] {
      assert (digits + rest)[1..] == digits[1..] + rest;
      DigitCountPrefix(digits[1..], rest);
    }
  }

  /** A title `"<digits>.<spaces><rest>"` loses its numbering, and only that. */
  lemma NumberedTitle(digits: string, spaces: string, rest: string)
    requires digits != [] && AllDigits(digits)
    requires forall i :: 0 <= i < |spaces| ==> IsSpace(spaces[i])
    requires rest == [] || !IsSpace(rest[0])
    ensures StripNumbering(digits + "." + spaces + rest) == rest
  {
    var t := digits + "." + spaces + rest;
    DigitCountPrefix(digits, "." + spaces + rest);
    assert digits + ("." + spaces) == digits + "." + spaces;
    assert digits + ("." + spaces + rest) == digits + ("." + spaces) + rest;
    assert t == digits + ("." + spaces + rest);
    assert t[|digits| + 1..] == spaces + rest;
    StripLeftSpaces(spaces, rest);
  }

  /** A title that does not start with a digit is kept as it is. */
  lemma UnnumberedTitle(t: string)
    requires t == [] || !IsDigit(t[0])
    ensures StripNumbering(t) == t
  {
  }

  /** Bullets `prefix + str(item)`, one per list item. */
  function ItemBullets(prefix: string, items: seq<Json>): (r: seq<Block>)
    ensures |r| == |items|
  {
    if items == [] then []
    else ItemBullets(prefix, items[..|items| - 1]) + [Bullet(prefix + PyStr(items[|items| - 1]))]
  }

  /** Bullets `prefix + "Key Label: " + str(value)`, one per dict entry. */
  function PairBullets(prefix: string, kvs: seq<(string, Json)>): (r: seq<Block>)
    ensures |r| == |kvs|
  {
    if kvs == [] then []
    else
      var kv := kvs[|kvs| - 1];
      PairBullets(prefix, kvs[..|kvs| - 1]) + [Bullet(prefix + Label(kv.0) + ": " + PyStr(kv.1))]
  }

  /** A subsection: its bold label, then its value as bullets or on the same line. */
  function SubsectionBlocks(entry: (string, Json)): seq<Block> {
    var head := "  " + Label(entry.0) + ": ";
    var content := entry.1;
    if content.JObj? then [BoldPara(head)] + PairBullets("    \U{2022} ", content.fields)
    else if content.JList? then [BoldPara(head)] + ItemBullets("    \U{2022} ", content.items)
    else [Para([Run(head, true), Run(PyStr(content), false)])]
  }

  /** A section: its title without numbering, then its content. */
  function SectionBlocks(entry: (string, Json)): seq<Block> {
    var content := entry.1;
    [BoldPara(Title(StripNumbering(entry.0)))] +
    if content.JObj? then Concat(content.fields, SubsectionBlocks)
    else if content.JList? then ItemBullets("\U{2022} ", content.items)
    else [PlainPara(PyStr(content))]
  }

  /** What `format_supply_demand_analysis(document, data)` appends. */
  function SupplyDemandBlocks(data: Json): (r: seq<Block>)
    ensures r != [] && r[0] == BoldPara(SupplyDemandTitle)
  {
    // A string is processed as text, any other non-dict as its `str()`; since
    // `str(s)` is `s` for a string, both are the text of `str(data)`.
    [BoldPara(SupplyDemandTitle)] +
    if data.JObj? then Concat(data.fields, SectionBlocks) else StringBlocks(PyStr(data))
  }

  /** A section whose content is a list: the title, then one bullet per item. */
  lemma ListSection(title: string, items: seq<Json>)
    ensures |SectionBlocks((title, JList(items)))| == 1 + |items|
    ensures forall i :: 0 <= i < |items| ==>
      SectionBlocks((title, JList(items)))[1 + i] == Bullet("\U{2022} " + PyStr(items[i]))
  {
    ItemBulletsAt("\U{2022} ", items);
  }

  /** One bullet per item, in order. */
  lemma {:induction false} ItemBulletsAt(prefix: string, items: seq<Json>)
    ensures forall i :: 0 <= i < |items| ==> ItemBullets(prefix, items)[i] == Bullet(prefix + PyStr(items[i]))
  {
    if items != [] {
      ItemBulletsAt(prefix, items[..|items| - 1]);
    }
  }

  // ---------------------------------------------------------------------------
  // process_ict_requirements
  // ---------------------------------------------------------------------------

  /** One entry of a category dict: a nested dict as a bold label and bullets, else one bullet. */
  function SpecBlocks(entry: (string, Json)): seq<Block> {
    var spec := entry.1;
    if spec.JObj? then [BoldPara("  " + Label(entry.0) + ":")] + PairBullets("    \U{2022} ", spec.fields)
    else [Bullet("  \U{2022} " + Label(entry.0) + ": " + PyStr(spec))]
  }

  /** One category: its bold label, then its details. */
  function CategoryBlocks(entry: (string, Json)): seq<Block> {
    var details := entry.1;
    [BoldPara(Label(entry.0) + ":")] +
    if details.JObj? then Concat(details.fields, SpecBlocks)
    else if details.JList? then ItemBullets("  \U{2022} ", details.items)
    else [Bullet("  \U{2022} " + PyStr(details))]
  }

  /** What `process_ict_requirements(document, v)` appends, and what it raises. */
  function IctBlocks(v: Json): (r: Emitted)
    ensures r.error.Some? <==> !Falsy(v) && !v.JObj? && !v.JStr?
    ensures r.error.Some? ==> r == Emitted([], Some(AttributeError))
  {
    if Falsy(v) then Done([])
    else match v
      case JObj(kvs) => Done(Concat(kvs, CategoryBlocks))
      case JStr(s) => Done(LinesBlocks(CleanLines(s), IctLineBlock))
      case _ => Emitted([], Some(AttributeError))
  }

  /** Every category opens with its label in bold, before any of its details. */
  lemma {:induction false} CategoriesOpenWithLabel(kvs: seq<(string, Json)>)
    ensures |Concat(kvs, CategoryBlocks)| >= |kvs|
    ensures kvs != [] ==> Concat(kvs, CategoryBlocks)[0] == BoldPara(Label(kvs[0].0) + ":")
  {
    if |kvs| > 1 {
      CategoriesOpenWithLabel(kvs[..|kvs| - 1]);
      assert kvs[..|kvs| - 1][0] == kvs[0];
    } else if |kvs| == 1 {
      assert kvs[..0] == [];
    }
  }

  // ---------------------------------------------------------------------------
  // The renderers, appending to a document
  // ---------------------------------------------------------------------------

  /** The line loop shared by both text renderers. */
  method AddLines(doc: Document, lines: seq<string>, render: string -> Block)
    modifies doc
    ensures doc.blocks == old(doc.blocks) + LinesBlocks(lines, render)
  {
    ghost var start := doc.blocks;
    for k := 0 to |lines|
      invariant doc.blocks == start + LinesBlocks(lines[..k], render)
    {
      assert lines[..k + 1][..k] == lines[..k];
      var line := Strip(lines[k]);
      if line != [] {
        doc.Add(render(line));
        AppendAssoc(start, LinesBlocks(lines[..k], render), [render(line)]);
      }
    }
    assert lines[..|lines|] == lines;
  }

  /** `for item in items: document.add_paragraph(f"{prefix}{item}", style='List Bullet')`. */
  method AddItemBullets(doc: Document, prefix: string, items: seq<Json>)
    modifies doc
    ensures doc.blocks == old(doc.blocks) + ItemBullets(prefix, items)
  {
    ghost var start := doc.blocks;
    for k := 0 to |items|
      invariant doc.blocks == start + ItemBullets(prefix, items[..k])
    {
      assert items[..k + 1][..k] == items[..k];
      var b := Bullet(prefix + PyStr(items[k]));
      doc.Add(b);
      AppendAssoc(start, ItemBullets(prefix, items[..k]), [b]);
    }
    assert items[..|items|] == items;
  }

  /** `for key, value in kvs: document.add_paragraph(f"{prefix}{label}: {value}", ...)`. */
  method AddPairBullets(doc: Document, prefix: string, kvs: seq<(string, Json)>)
    modifies doc
    ensures doc.blocks == old(doc.blocks) + PairBullets(prefix, kvs)
  {
    ghost var start := doc.blocks;
    for k := 0 to |kvs|
      invariant doc.blocks == start + PairBullets(prefix, kvs[..k])
    {
      assert kvs[..k + 1][..k] == kvs[..k];
      var b := Bullet(prefix + Label(kvs[k].0) + ": " + PyStr(kvs[k].1));
      doc.Add(b);
      AppendAssoc(start, PairBullets(prefix, kvs[..k]), [b]);
    }
    assert kvs[..|kvs|] == kvs;
  }

  /** `process_text_with_subheadings(document, text)`. */
  method ProcessText(doc: Document, v: Json) returns (error: Option<PyError>)
    modifies doc
    ensures doc.blocks == old(doc.blocks) + TextBlocks(v).blocks && error == TextBlocks(v).error
    decreases v, 1
  {
    if Falsy(v) {
      return None;
    }
    match v
    case JObj(kvs) =>
      if SupplyDemandKey in Keys(kvs) {
        FormatSupplyDemand(doc, Find(kvs, SupplyDemandKey).value);
      } else {
        AddEntries(doc, kvs);
      }
      return None;
    case JList(items) =>
      error := ProcessItems(doc, v);
    case JStr(s) =>
      AddLines(doc, CleanLines(s), LineBlock);
      return None;
    case _ =>
      return Some(AttributeError);
  }

  /** `for item in text: process_text_with_subheadings(document, item)`, stopping at a raise. */
  method ProcessItems(doc: Document, v: Json) returns (error: Option<PyError>)
    requires v.JList?
    modifies doc
    ensures doc.blocks == old(doc.blocks) + ListBlocks(v, |v.items|).blocks
    ensures error == ListBlocks(v, |v.items|).error
    decreases v, 0
  {
    var items := v.items;
    ghost var start := doc.blocks;
    for k := 0 to |items|
      invariant doc.blocks == start + ListBlocks(v, k).blocks
      invariant ListBlocks(v, k).error == None
    {
      error := ProcessText(doc, items[k]);
      ListBlocksStep(start, v, k);
      if error.Some? {
        return;
      }
    }
    return None;
  }

  /** `for key, value in text.items(): process_text_with_subheadings(f"{key}: {value}")`. */
  method AddEntries(doc: Document, kvs: seq<(string, Json)>)
    modifies doc
    ensures doc.blocks == old(doc.blocks) + Concat(kvs, EntryBlocks)
  {
    ghost var start := doc.blocks;
    for k := 0 to |kvs|
      invariant doc.blocks == start + Concat(kvs[..k], EntryBlocks)
    {
      AddLines(doc, CleanLines(kvs[k].0 + ": " + PyStr(kvs[k].1)), LineBlock);
      ConcatStep(kvs, k, EntryBlocks);
      AppendAssoc(start, Concat(kvs[..k], EntryBlocks), EntryBlocks(kvs[k]));
    }
    assert kvs[..|kvs|] == kvs;
  }

  /** `format_supply_demand_analysis(document, data)`. */
  method FormatSupplyDemand(doc: Document, data: Json)
    modifies doc
    ensures doc.blocks == old(doc.blocks) + SupplyDemandBlocks(data)
  {
    var title := BoldPara(SupplyDemandTitle);
    doc.Add(title);
    if data.JStr? {
      AddLines(doc, CleanLines(data.str), LineBlock);
      AppendAssoc(old(doc.blocks), [title], StringBlocks(data.str));
    } else if data.JObj? {
      AddSections(doc, data.fields);
      AppendAssoc(old(doc.blocks), [title], Concat(data.fields, SectionBlocks));
    } else {
      AddLines(doc, CleanLines(PyStr(data)), LineBlock);
      AppendAssoc(old(doc.blocks), [title], StringBlocks(PyStr(data)));
    }
  }

  method AddSections(doc: Document, kvs: seq<(string, Json)>)
    modifies doc
    ensures doc.blocks == old(doc.blocks) + Concat(kvs, SectionBlocks)
  {
    ghost var start := doc.blocks;
    for k := 0 to |kvs|
      invariant doc.blocks == start + Concat(kvs[..k], SectionBlocks)
    {
      AddSection(doc, kvs[k]);
      ConcatStep(kvs, k, SectionBlocks);
      AppendAssoc(start, Concat(kvs[..k], SectionBlocks), SectionBlocks(kvs[k]));
    }
    assert kvs[..|kvs|] == kvs;
  }

  method AddSection(doc: Document, entry: (string, Json))
    modifies doc
    ensures doc.blocks == old(doc.blocks) + SectionBlocks(entry)
  {
    var title := BoldPara(Title(StripNumbering(entry.0)));
    doc.Add(title);
    var content := entry.1;
    if content.JObj? {
      AddSubsections(doc, content.fields);
      AppendAssoc(old(doc.blocks), [title], Concat(content.fields, SubsectionBlocks));
    } else if content.JList? {
      AddItemBullets(doc, "\U{2022} ", content.items);
      AppendAssoc(old(doc.blocks), [title], ItemBullets("\U{2022} ", content.items));
    } else {
      doc.Add(PlainPara(PyStr(content)));
      AppendAssoc(old(doc.blocks), [title], [PlainPara(PyStr(content))]);
    }
  }

  method AddSubsections(doc: Document, subs: seq<(string, Json)>)
    modifies doc
    ensures doc.blocks == old(doc.blocks) + Concat(subs, SubsectionBlocks)
  {
    ghost var start := doc.blocks;
    for k := 0 to |subs|
      invariant doc.blocks == start + Concat(subs[..k], SubsectionBlocks)
    {
      AddSubsection(doc, subs[k]);
      ConcatStep(subs, k, SubsectionBlocks);
      AppendAssoc(start, Concat(subs[..k], SubsectionBlocks), SubsectionBlocks(subs[k]));
    }
    assert subs[..|subs|] == subs;
  }

  method AddSubsection(doc: Document, entry: (string, Json))
    modifies doc
    ensures doc.blocks == old(doc.blocks) + SubsectionBlocks(entry)
  {
    var head := "  " + Label(entry.0) + ": ";
    var content := entry.1;
    if content.JObj? {
      doc.Add(BoldPara(head));
      AddPairBullets(doc, "    \U{2022} ", content.fields);
      AppendAssoc(old(doc.blocks), [BoldPara(head)], PairBullets("    \U{2022} ", content.fields));
    } else if content.JList? {
      doc.Add(BoldPara(head));
      AddItemBullets(doc, "    \U{2022} ", content.items);
      AppendAssoc(old(doc.blocks), [BoldPara(head)], ItemBullets("    \U{2022} ", content.items));
    } else {
      doc.Add(Para([Run(head, true), Run(PyStr(content), false)]));
    }
  }

  /** `process_ict_requirements(document, ict_text)`. */
  method ProcessIct(doc: Document, v: Json) returns (error: Option<PyError>)
    modifies doc
    ensures doc.blocks == old(doc.blocks) + IctBlocks(v).blocks && error == IctBlocks(v).error
  {
    if Falsy(v) {
      return None;
    }
    match v
    case JObj(kvs) =>
      AddCategories(doc, kvs);
      return None;
    case JStr(s) =>
      AddLines(doc, CleanLines(s), IctLineBlock);
      return None;
    case _ =>
      return Some(AttributeError);
  }

  method AddCategories(doc: Document, kvs: seq<(string, Json)>)
    modifies doc
    ensures doc.blocks == old(doc.blocks) + Concat(kvs, CategoryBlocks)
  {
    ghost var start := doc.blocks;
    for k := 0 to |kvs|
      invariant doc.blocks == start + Concat(kvs[..k], CategoryBlocks)
    {
      AddCategory(doc, kvs[k]);
      ConcatStep(kvs, k, CategoryBlocks);
      AppendAssoc(start, Concat(kvs[..k], CategoryBlocks), CategoryBlocks(kvs[k]));
    }
    assert kvs[..|kvs|] == kvs;
  }

  method AddCategory(doc: Document, entry: (string, Json))
    modifies doc
    ensures doc.blocks == old(doc.blocks) + CategoryBlocks(entry)
  {
    var head := BoldPara(Label(entry.0) + ":");
    doc.Add(head);
    var details := entry.1;
    if details.JObj? {
      AddSpecs(doc, details.fields);
      AppendAssoc(old(doc.blocks), [head], Concat(details.fields, SpecBlocks));
    } else if details.JList? {
      AddItemBullets(doc, "  \U{2022} ", details.items);
      AppendAssoc(old(doc.blocks), [head], ItemBullets("  \U{2022} ", details.items));
    } else {
      doc.Add(Bullet("  \U{2022} " + PyStr(details)));
      AppendAssoc(old(doc.blocks), [head], [Bullet("  \U{2022} " + PyStr(details))]);
    }
  }

  method AddSpecs(doc: Document, subs: seq<(string, Json)>)
    modifies doc
    ensures doc.blocks == old(doc.blocks) + Concat(subs, SpecBlocks)
  {
    ghost var start := doc.blocks;
    for k := 0 to |subs|
      invariant doc.blocks == start + Concat(subs[..k], SpecBlocks)
    {
      AddSpec(doc, subs[k]);
      ConcatStep(subs, k, SpecBlocks);
      AppendAssoc(start, Concat(subs[..k], SpecBlocks), SpecBlocks(subs[k]));
    }
    assert subs[..|subs|] == subs;
  }

  method AddSpec(doc: Document, entry: (string, Json))
    modifies doc
    ensures doc.blocks == old(doc.blocks) + SpecBlocks(entry)
  {
    var spec := entry.1;
    if spec.JObj? {
      var head := BoldPara("  " + Label(entry.0) + ":");
      doc.Add(head);
      AddPairBullets(doc, "    \U{2022} ", spec.fields);
      AppendAssoc(old(doc.blocks), [head], PairBullets("    \U{2022} ", spec.fields));
    } else {
      doc.Add(Bullet("  \U{2022} " + Label(entry.0) + ": " + PyStr(spec)));
    }
  }
}
