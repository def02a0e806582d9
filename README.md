# PC-1 form wizard: workflow engine, web session and report renderer

This project models the core of a wizard that fills in a PC-1 project form, a
planning document used in Pakistan, and proves properties of that model. It has
three parts.

- **Workflow engine** (`ver2.py`). A state table is read from a CSV file.
  Each row becomes a candidate `State` of the step it names, and candidates are
  grouped by step name in file order. A step's candidates carry guard conditions
  (`x` or `!x` over the collected answers). The first candidate whose guard
  holds is selected. Its `key=value` variable actions are applied, its questions
  are answered, its prompt templates are sent to a language model, and the
  cleaned replies are stored. The wizard then moves to the candidate's next step.
- **Web session** (`main.py`). A single in-memory session record holds the
  answers and the current step. `get_questions` reads it and `submit_answers`
  advances it. `restart` is modelled as written; see Findings.
- **Report renderer** (`sample2.py`). The collected answers become a Word
  document. The model reduces the document to an append-only sequence of
  blocks: paragraphs of runs (bold or not), bullet items, and tables. Each
  table block records its column count, its first header row as
  (title, first column, span) cells, and the text of every further row.

Values are a closed datatype `Json`: strings, integers, booleans, null, lists,
and dicts as ORDERED key/value lists. Dict insertion order decides emission
order and column order. Python exceptions that the code does not catch are
modelled as results. `Result` carries either a value or the `PyError` raised,
and a rendering step yields the blocks it wrote together with the error raised
after them. No precondition excludes an input that the code accepts and then
crashes on.

Every procedure of the source that appends to the document or updates answers
in place is a method on a class: `Docx.Document`, `Workflow.Wizard` or
`WebSession.Session`. Each method is proved equal to a pure specification
function of its inputs and old state. The properties of the code are lemmas
about those functions. Table rows are filled in fixed-size arrays. The
column counters of the source are the method's `at` and `written` counters.

Modules, one per file: `Wrappers`, `Text` (Python string operations),
`JsonValue` (values, `dict.get`, `str()`, `repr()`, `json.dumps`), `Docx`,
`Numbers` (`format_number_with_commas`), `Tables` (the two table builders),
`Render` (the free-text renderers), `Sections` (the row building of
`create_project_document_from_json`), `Prompts` (`replace_markers`,
`clean_response`), `Workflow` and `WebSession`.

Where the code differs from what it is documented to do, the model follows
the code:
- the `^` pass of `replace_markers` scans the output of the `@` pass
  (`Prompts.ReplaceMarkersRescan`);
- an `@name` string value is inserted JSON-quoted, not literally
  (`Prompts.DumpsPlain`);
- a `^name` list value is inserted as Python's `str()`, not as JSON;
- a guard over a key whose value is null or not a string raises
  `AttributeError` at `.strip()` (`Workflow.ConditionCrashes`);
- the answers to a step's questions are paired with its variables up to the
  shorter of the two lists;
- `restart` does not reset the session.

Two defects of `create_table_with_subcolumns` are listed under Findings. The
function `Tables.SubcolumnTable` describes that builder as written, and
`Tables.BlankSecondRow` relates it to the corrected builder. The procedure
`Tables.CreateTableWithSubcolumns`, and the capital-cost tables that use it,
follow the corrected builder `Tables.IntendedSubcolumnTable`. This is the one
place where the model departs from the code on purpose: where the program
writes a blank second row into a capital-cost table with sub-columns, the
model writes the sub-header row (see "## Left out").

## Model

| member | source | states |
|---|---|---|
| Workflow.ParseCsvLine | ver2.py:22-38 | The character loop returns exactly `Fields(line)`, the bracket-aware split whose properties the lemmas below state |
| Workflow.PiecesJoin | ver2.py:22-38 | Joining the split pieces with commas gives back the line |
| Workflow.FieldsJoin | ver2.py:31-38 | `",".join(parse_csv_line(line))` is the line, except that a trailing unbracketed comma is dropped with its empty field |
| Workflow.PiecesSnoc | ver2.py:26-35 | Reading one more character: `[` sets the flag and `]` clears it, the last bracket deciding. An unbracketed comma opens a new field; any other character extends the last one |
| Workflow.BracketKeepsField | ver2.py:26-35 | After a `[` with no later `]`, every character, commas included, stays in the current field |
| Workflow.PiecesWithoutBrackets | ver2.py:26-35 | In a line without `[`, no field contains a comma |
| Workflow.NullToNone | ver2.py:48-59 | A field becomes None exactly when it is the literal `null`, and is otherwise kept as it is |
| Workflow.DecodeLists | ver2.py:50-58 | The five JSON fields decode in order. The row is dropped exactly when one of the fields present fails to decode. Reading past the end raises IndexError exactly when the row is short and every field present decodes |
| Workflow.ParseRow | ver2.py:44-70 | A blank line gives no state. A non-blank row raises IndexError exactly when it has fewer than nine fields and every JSON field present decodes. A full row is skipped exactly when one of its JSON fields fails to decode, and otherwise gives a state. The state's nine fields are the row's fields, null-converted or decoded |
| Workflow.ParsedRows | ver2.py:43-70 | At most one state per line, and every state kept is the parse of one of the lines |
| Workflow.ParsedRowsSnoc | ver2.py:43-70 | Lines are processed in file order: one more line adds its state at the end, adds nothing, or raises |
| Workflow.ParsedRowsCrashPersists | ver2.py:46-59 | An IndexError on one row ends the whole parse with that error |
| Workflow.Named | ver2.py:71-73 | The states with a given name are exactly those rows of that name |
| Workflow.GroupByName | ver2.py:71-73 | The table's keys are exactly the step names that occur. Each entry is the non-empty list of that name's rows |
| Workflow.GroupByNameSnoc | ver2.py:71-73 | A new row is appended to its name's list, which is created empty when missing; no other entry changes |
| Workflow.ParseStateMachine | ver2.py:40-74 | The method's result is the grouping of the parsed rows, or the error the parse raised |
| Workflow.DropLeading | ver2.py:99 | `lstrip("!")`: the result is the suffix left after every leading `!` is removed |
| Workflow.EvaluateCondition | ver2.py:95-100 | An absent or empty condition holds. Evaluating a guard raises nothing but AttributeError |
| Workflow.ConditionCrashes | ver2.py:96-99 | A guard raises exactly when it is non-empty and the looked-up value is present but not a string, so `.strip()` fails |
| Workflow.ConditionAbsentKey | ver2.py:99-100 | With the key absent, `x` is false and `!x` is true |
| Workflow.ConditionReadings | ver2.py:99-100 | `x` holds if and only if the trimmed, lower-cased value is yes, true or 1. `!x` holds if and only if it is no, false, 0 or empty |
| Workflow.ConditionExclusive | ver2.py:99-100 | `x` and `!x` are never both true for the same answers |
| Workflow.ConditionManyBangs | ver2.py:99-100 | All leading `!` are stripped for the lookup, so `!!x` reads like `!x` |
| Workflow.Filtered | ver2.py:163 | The filter succeeds exactly when every candidate's guard evaluates without raising |
| Workflow.FilteredEmpty | ver2.py:163-166 | No candidate is valid exactly when every guard evaluates to false |
| Workflow.FilteredHead | ver2.py:163-168 | The first valid candidate is one whose guard holds and every earlier guard is false |
| Workflow.FilteredMembers | ver2.py:163 | The valid candidates are exactly the candidates whose guard holds |
| Workflow.SelectFirstMatch | ver2.py:163-168 | Selection raises exactly when some guard raises. It selects nothing exactly when every guard is false. Otherwise it selects a candidate whose guard holds with every earlier guard false |
| Workflow.SelectUnconditioned | ver2.py:163-168 | A candidate without a condition guarantees a selection whenever no guard raises |
| Workflow.ActionValue | ver2.py:172 | An action's value is None exactly for the text `null`, else the text itself |
| Workflow.ParseAction | ver2.py:171-172 | An action parses exactly when it has one `=`: the key is the text before it and the value comes from the text after it. Any other count raises ValueError |
| Workflow.ApplyActionsFrame | ver2.py:170-172 | A key that no action assigns keeps its presence and its value |
| Workflow.ApplyActionsAssigns | ver2.py:170-172 | When no action fails, every action parsed and its key is present afterwards |
| Workflow.ApplyActionsKeeps | ver2.py:170-172 | Actions only add or overwrite keys: a present key stays present |
| Workflow.PromptsFrame | ver2.py:113-146 | Prompt actions write only prompt fields: any other key keeps its presence and value |
| Workflow.PromptStepStoresCleanText | ver2.py:139-143 | A successful reply is stored as the JSON value of its cleaned text, or else as that cleaned text, which is stripped |
| Workflow.PromptsSkipBlankIrrelevant | ver2.py:115-118 | When no prompt field is empty, skipping blank fields (the web path) and not skipping them (the CLI path) give the same answers |
| Workflow.RunPromptActions | ver2.py:107-146 | The loop's answers equal the specification: each action in turn, each seeing what the earlier ones stored; an action without a field, or whose model call fails, stores nothing |
| Workflow.Wizard.constructor | ver2.py:153-154 | A run starts with no answers at step `q1` |
| Workflow.Wizard.Step | ver2.py:157-216 | One loop iteration. It halts without change on an empty, missing or unknown step, or when no candidate is valid. It crashes on a guard error, or on a malformed action after the earlier actions were applied. Otherwise it applies the actions, stores the answers, runs the prompts, and moves to the selected candidate's next step |
| Workflow.Wizard.ApplyVariableActions | ver2.py:170-172 | The answers after the loop, and the error that stopped it, are those of applying the actions in order |
| Workflow.Wizard.StoreAnswers | ver2.py:174-176 | Each typed answer is stored under the variable paired with its question, up to the shorter list |
| Prompts.WordPrefix | ver2.py:90-91 | The greedy `\w+` match: the longest prefix made of word characters |
| Prompts.SubstituteNoSigil | ver2.py:90-91 | Text without the sigil is left unchanged by a pass |
| Prompts.SubstituteIdentity | ver2.py:90-91 | Replacing every marker by itself gives back the text, so nothing but markers is changed |
| Prompts.SubstituteMarker | ver2.py:90-91 | The literal text before a marker is copied. The whole word after the sigil is replaced by its value, and scanning resumes after it |
| Prompts.SubstitutePrefix | ver2.py:90-91 | A sigil-free prefix is copied and the rest is substituted independently |
| Prompts.WordPrefixOf | ver2.py:90-91 | A marker's name is its whole word, up to the first non-word character |
| Prompts.ReplaceMarkersPlainText | ver2.py:76-93 | Text containing neither `@` nor `^` is unchanged |
| Prompts.ReplaceMarkersOneCaret | ver2.py:80-91 | A single `^name` is replaced by the answer's text, a dict answer's JSON or `UNKNOWN_name`, and the rest is copied |
| Prompts.ReplaceMarkersRescan | ver2.py:85-91 | The `@` pass runs first and its output is scanned by the `^` pass. An answer `^b` inserted for `@a` is itself replaced by b's value |
| Prompts.DumpsPlain | ver2.py:88 | `json.dumps` of a string without quotes, backslashes or control characters is that string in double quotes |
| Prompts.Find | ver2.py:103 | The position found is an occurrence of the pattern. No position means the pattern does not occur |
| Prompts.CloseTagAfter | ver2.py:103 | The non-greedy match: the first `</think>` after a block's text is the one found |
| Prompts.RemoveThinkNoTag | ver2.py:103 | Text without `<` is left unchanged by the `<think>` removal |
| Prompts.RemoveThinkBlock | ver2.py:103 | A `<think>` block, newlines included, is removed up to its first `</think>`. The text before it is kept and the text after it is processed in turn |
| Prompts.RemoveFencesBlock | ver2.py:104 | An opening `json` fence of either kind (any case) and the closing three backquotes are removed, leaving the body |
| Prompts.RemoveFencesPrefix | ver2.py:104 | Text without backquotes or dashes is kept as it is before the rest is cleaned |
| Prompts.CleanResponse | ver2.py:102-105 | The cleaned reply has no leading or trailing whitespace and is no longer than the raw reply |
| Prompts.CleanResponseTypicalReply | ver2.py:102-105 | A reply made of a think block followed by a fenced JSON body cleans to the stripped body |
| WebSession.Session.constructor | main.py:30-33 | The server starts with no answers at step `q1` |
| WebSession.Session.GetQuestions | main.py:35-51 | It returns the questions, variables and next step of the first valid candidate, or empty lists and no next step when none is valid. It reads the session without changing it |
| WebSession.Session.SubmitAnswers | main.py:53-79 | Answers are merged, submitted keys winning, before the guards are read. With no valid candidate the step stays and completion is reported with the merged answers kept. Otherwise the prompts run and the step becomes the next one, possibly None. Variable actions are not applied |
| WebSession.SubmitFrame | main.py:60-74 | A submission changes only the submitted keys and the selected candidate's prompt fields |
| WebSession.SubmittedAnswerDecides | main.py:60-66 | A submitted answer can turn a guard that was false on the stored answers into a true one |
| WebSession.Session.Restart | main.py:115-120 | As written: it returns "Form restarted" and touches no session state |
| WebSession.RestartKeepsSession | main.py:115-120 | After `restart`, a session that had progressed keeps its answers and its step |
| WebSession.Session.Reset | main.py:115-120 | Corrected: it returns "Form restarted", clears the answers and goes back to `q1` |
| Numbers.GroupShape | sample2.py:17 | `"{:,}"` of a digit string: counting from the right, every fourth character is a comma and the others are digits |
| Numbers.GroupUngroup | sample2.py:17 | Removing the commas from a grouped digit string gives back the digits |
| Numbers.IntFormatting | sample2.py:16-17 | An integer becomes a string: removing its commas gives `str(n)`, it is grouped in threes, and a sign comes first |
| Numbers.FormatNumber | sample2.py:12-28 | A value changes only if it is an int, a bool or a numeric-looking string, and then it becomes a string |
| Numbers.NumericChars | sample2.py:19 | A string that passes the `isdigit` test holds only digits, dots and commas |
| Numbers.DigitStringRegrouped | sample2.py:19-25 | A string of digits and commas is regrouped as the integer its digits spell |
| Numbers.ExampleMisgrouped | sample2.py:19-25 | `"1,00"` is regrouped as `"100"` |
| Numbers.FloatFailureKeepsText | sample2.py:22-28 | A numeric-looking string with two dots, on which `float()` fails, is returned unchanged |
| Numbers.FixedTwoShape | sample2.py:22-23 | A decimal string is printed with a grouped integer part and exactly two fraction digits |
| Numbers.FixedTwoStable | sample2.py:22-23 | Formatting an already formatted decimal string changes nothing |
| Numbers.FormattedNatStable | sample2.py:19-25 | Formatting an already formatted natural number changes nothing |
| Numbers.FormatNumberIdempotent | sample2.py:12-28 | Formatting twice is formatting once |
| Numbers.FormatStringIdempotent | sample2.py:19-26 | Formatting a string twice is formatting it once |
| Tables.Span | sample2.py:119 | A header spans one column per sub-column name, or one column when it has none |
| Tables.WidthAtLeast | sample2.py:119 | The column count is at least the number of headers |
| Tables.SpanHeadersStep | sample2.py:126-141 | Each header cell starts at the sum of the earlier headers' spans and spans its own width |
| Tables.HeadersTile | sample2.py:124-141 | The header cells tile the row: the first starts at 0, each starts where the previous ends, and the last ends at the column count |
| Tables.PlainHeaders | sample2.py:65-67 | Without sub-columns, header i sits at column i and spans one column |
| Tables.SubHeaderRow | sample2.py:142-155 | The sub-header row has exactly one cell per column |
| Tables.SubHeaderRowStep | sample2.py:145-155 | Each header contributes its sub-column names, or one empty cell when it has none |
| Tables.CellText | sample2.py:76-87 | A plain cell raises exactly for a `Description` holding an empty list (IndexError at `p.runs[0]`) |
| Tables.ColumnCells | sample2.py:162-196 | A header writes between one cell and its span. A dict under a sub-columned header fills exactly one cell per sub-column |
| Tables.Extend | sample2.py:161-196 | A row stops growing once a header has raised. Each header adds at most its span of cells |
| Tables.ExtendOk | sample2.py:161-196 | A header whose value is found and whose cells are written extends the row by exactly those cells |
| Tables.RowOf | sample2.py:158-196 | A data row never has more cells than the table has columns |
| Tables.GridOf | sample2.py:158-196 | At most one row per record, and exactly one per record when nothing raises |
| Tables.GridWidths | sample2.py:158-196 | Every data row has exactly the table's column count of cells |
| Tables.GridRow | sample2.py:158-196 | Row k holds record k's cells, left-aligned and padded with empty cells |
| Tables.GridFirstError | sample2.py:158-196 | The first record that raises ends the table with its error, keeping its partly written row |
| Tables.RowErrors | sample2.py:158-196 | A row can raise only AttributeError or IndexError |
| Tables.GridErrors | sample2.py:158-196 | Filling the rows can raise only AttributeError or IndexError |
| Tables.NonDictRecord | sample2.py:76 | A record that is not a dict raises AttributeError at its first `get`, writing no cell |
| Tables.PlainTable | sample2.py:57-91 | Exactly one block. It is the "No data" paragraph exactly when the headers or the data are empty, and then nothing raises |
| Tables.PlainRow | sample2.py:73-87 | A dict record fills one cell per header, each the header's formatted value |
| Tables.PlainGrid | sample2.py:73-91 | Dict records without an empty `Description` list never raise |
| Tables.PlainTableCells | sample2.py:61-87 | A table of one column per header, with header i at column i, and one row per record. Cell (r, i) is record r's value under header i: number-formatted, `str()` of a Description, or a Description list as bullets |
| Tables.SubcolumnTable | sample2.py:112-114 | Empty headers or empty data give exactly the "No data" paragraph |
| Tables.SubcolumnLengths | sample2.py:116-117 | ValueError is raised, before anything is written, exactly when a non-empty sub-header list has the wrong length |
| Tables.DefaultSubheadersRaise | sample2.py:119-120 | As written, the default `subheaders=None` raises TypeError at `any(subheaders)` |
| Tables.IntendedDefault | sample2.py:110-120 | Corrected: with no sub-headers, each header is one plain column |
| Tables.BlankSecondRow | sample2.py:120-143 | As written, the table is created with two rows and the sub-header row is then appended. A blank row separates the two header rows, and the rest is the intended table |
| Tables.IntendedSecondRow | sample2.py:120-196 | Corrected: the sub-header row is the second row exactly when some header has sub-columns, followed by the data rows |
| Tables.DictRowFills | sample2.py:158-196 | When every value under a sub-columned header is a dict, each data row fills exactly the column count |
| Tables.ShortRow | sample2.py:173-179 | A non-dict value under a header with two or more sub-columns writes one cell, so the row's later cells shift left and the row is short |
| Tables.HeaderRow | sample2.py:124-141 | The header loop's cells and final counter are the span headers and the column count |
| Tables.SubHeaderCells | sample2.py:142-155 | The sub-header loop writes exactly the sub-header row |
| Tables.WriteColumn | sample2.py:162-196 | Writing one header's cells at the counter extends the row as specified and advances the counter by the cells written |
| Tables.FillRow | sample2.py:159-196 | The row array holds the record's cells, padded, and the error that stopped it |
| Tables.FillRows | sample2.py:158-196 | The rows and error of the data loop are those of the specification |
| Tables.CreateTable | sample2.py:54-91 | Appends exactly the plain table's blocks and returns its error |
| Tables.CreateTableWithSubcolumns | sample2.py:110-196 | Corrected (see Findings): the loops append exactly the intended sub-column table's blocks and return its error |
| Render.Subheading | sample2.py:229 | A line without a colon is no subheading. A subheading splits the line at its first colon, with the stripped text before it under 30 characters |
| Render.SubheadingAt | sample2.py:229-230 | The split is at the first colon, and the test looks only at the text before it |
| Render.NonBlank | sample2.py:224-227 | The lines kept are non-empty and stripped |
| Render.LinesBlocksMap | sample2.py:223-244 | Blank lines emit nothing and every other line emits exactly one block, in order |
| Render.StringBlocksStarFree | sample2.py:221-244 | No text emitted from a string contains a `*` |
| Render.DashedSubheading | sample2.py:229-240 | `"- Cost: 5"` is a bold-prefix paragraph in free text, where the subheading test comes first, and a bullet in ICT text, where the bullet test comes first |
| Render.BulletLine | sample2.py:237-240 | A `"- "` line without a colon is a bullet of its stripped remainder |
| Render.SingleLine | sample2.py:221-244 | A stripped one-line text without stars renders as that line's single block |
| Render.TextBlocks | sample2.py:198-244 | A falsy value renders nothing. A truthy number or bool raises AttributeError and renders nothing. A string or dict never raises, and no value raises anything but AttributeError |
| Render.ListInOrder | sample2.py:215-218 | A list emits its elements' blocks in order while none raises |
| Render.ListStopsAtCrash | sample2.py:215-218 | Nothing after the element that raises is emitted |
| Render.ListFirstCrash | sample2.py:215-218 | A list emits the blocks of the elements before the first one that raises, then that element's partial output and error |
| Render.SupplyDemandOnly | sample2.py:204-208 | A dict with the supply-and-demand key emits only that value's analysis, whatever its other keys |
| Render.SupplyDemandDict | sample2.py:206-208 | The blocks are exactly the supply-and-demand formatting of that key's value |
| Render.ShortEntry | sample2.py:209-212 | A dict entry with a short key and a one-line value renders as `"key: "` in bold followed by the stripped value |
| Render.NumberedTitle | sample2.py:343 | `^\d+\.\s*` removes the leading number, dot and spaces from a section title |
| Render.UnnumberedTitle | sample2.py:343 | A title not starting with a digit is kept |
| Render.ItemBullets | sample2.py:357-360 | One bullet per list item |
| Render.PairBullets | sample2.py:353-356 | One bullet per dict entry |
| Render.ItemBulletsAt | sample2.py:357-367 | Bullet i is the prefix followed by `str()` of item i |
| Render.ListSection | sample2.py:364-367 | A list section is its title followed by one bullet per item, in order |
| Render.SupplyDemandBlocks | sample2.py:326-371 | The analysis always opens with its bold title |
| Render.IctBlocks | sample2.py:248-323 | ICT rendering raises exactly on a truthy value that is neither a dict nor a string, then writing nothing |
| Render.CategoriesOpenWithLabel | sample2.py:255-260 | Every category emits at least its bold label, and the first block is the first category's label |
| Render.AddLines | sample2.py:223-244 | The line loop appends exactly the blocks of the non-blank lines |
| Render.AddItemBullets | sample2.py:357-360 | The loop appends exactly the item bullets |
| Render.AddPairBullets | sample2.py:353-356 | The loop appends exactly the entry bullets |
| Render.ProcessText | sample2.py:198-244 | Appends exactly the dispatcher's blocks and returns its error |
| Render.ProcessItems | sample2.py:215-218 | The loop over a list appends the elements' blocks in order and stops at the first element that raises, returning its error |
| Render.AddEntries | sample2.py:209-212 | Appends the `"key: value"` rendering of each entry in order |
| Render.FormatSupplyDemand | sample2.py:326-371 | Appends exactly the supply-and-demand blocks |
| Render.AddSections | sample2.py:341-371 | Appends each section's blocks in order |
| Render.AddSection | sample2.py:342-371 | Appends one section's title and content |
| Render.AddSubsections | sample2.py:346-363 | Appends each subsection's blocks in order |
| Render.AddSubsection | sample2.py:347-363 | Appends one subsection's label and content |
| Render.ProcessIct | sample2.py:248-323 | Appends exactly the ICT blocks and returns the error |
| Render.AddCategories | sample2.py:255-282 | Appends each category's blocks in order |
| Render.AddCategory | sample2.py:255-281 | Appends one category's label and details |
| Render.AddSpecs | sample2.py:264-275 | Appends each specification entry's blocks in order |
| Render.AddSpec | sample2.py:265-275 | Appends one specification entry |
| Sections.SubheaderOf | sample2.py:514-520 | A value has sub-columns exactly when it is a dict |
| Sections.SubheadersOf | sample2.py:512-520 | One sub-header entry per key of the first record |
| Sections.CostLayoutOf | sample2.py:508-509 | The first record raises AttributeError exactly when it is not a dict |
| Sections.CostLayoutShape | sample2.py:509-520 | With a dict value present, the layout pairs every key of the first record, in order, with its keys when its value is a dict and None otherwise |
| Sections.CostSubHeaderRow | sample2.py:509-522 | The cost table gets a sub-header row exactly when some value of the first record is a non-empty dict |
| Sections.CostTableErrors | sample2.py:507-525 | A list of cost records can raise only AttributeError or IndexError |
| Sections.DetectColumns | sample2.py:512-520 | The loop's header and sub-header lists are those of the specification |
| Sections.AddCostTable | sample2.py:507-525 | Appends exactly the cost table's blocks and returns its error. With sub-columns it is the corrected table (see Findings). A first record with a dict value selects the sub-column builder, and any other selects `create_table` |
| Sections.KeptRowsExact | sample2.py:546-550 | Every row built comes from a year or total key of the record, and every such key gives its row |
| Sections.FinancialRows | sample2.py:545-550 | Building the rows raises only AttributeError, on a record that is not a dict |
| Sections.FinancialRowsWellFormed | sample2.py:545-553 | Every financial-plan row is a record that fills both columns |
| Sections.FinancialStops | sample2.py:545-546 | The first record that raises ends the loop with its error |
| Sections.FinancialOk | sample2.py:545-546 | Dict records never raise |
| Sections.AppendKept | sample2.py:546-550 | The inner loop appends exactly the record's kept rows |
| Sections.BuildFinancialRows | sample2.py:544-550 | The loop builds exactly the specified rows |
| Sections.FinancialPlanBlocks | sample2.py:542-553 | The financial plan always opens with its bold heading |
| Sections.FinancialPlanSection | sample2.py:542-553 | For dict records the plan never raises, and its table is written exactly when some key is a year or total |
| Sections.OperationsRows | sample2.py:557-563 | Operations is a dict exactly when the rows are built or `zip` raises TypeError. A non-dict raises AttributeError |
| Sections.OperationsZip | sample2.py:557-563 | Row i pairs description i with amount i, up to the shorter list |
| Sections.OperationsRecord | sample2.py:557-566 | An operations row is a record whose amount cell is the number-formatted amount |
| Sections.OperationsTable | sample2.py:555-566 | The operations table has one two-cell row per zipped pair, each with the formatted amount |
| Sections.OperationsBlocks | sample2.py:555-566 | The operations part always opens with its bold heading |
| Sections.AddFinancialPlan | sample2.py:542-553 | Appends exactly the financial-plan blocks |
| Sections.AddOperations | sample2.py:555-566 | Appends exactly the operations blocks |
| Sections.AddMaintenance | sample2.py:541-566 | Appends the financial plan when it is present and non-empty, else the operations when present and non-empty, else nothing |
| Sections.DigMissing | sample2.py:594-610 | A missing outer key reads as `''` however deep the `.get` chain goes |
| Sections.DigEmpty | sample2.py:594-610 | Every `.get` chain into an empty dict reads `''` |
| Sections.BenefitFields | sample2.py:593-611 | The first k entries of a component's row, one per column |
| Sections.BenefitRowKeys | sample2.py:593-611 | A built row has exactly the thirteen table columns as keys, in order |
| Sections.NonDictComponent | sample2.py:594 | A component that is not a dict raises AttributeError |
| Sections.EmptyComponent | sample2.py:593-611 | An empty component gives `''` in every column |
| Sections.BenefitRows | sample2.py:591-611 | One row per component when nothing raises |
| Sections.BuildBenefitRows | sample2.py:591-611 | The loop builds exactly the specified rows |
| Sections.BenefitStops | sample2.py:592-611 | The first component that raises ends the loop with its error |
| Sections.NoComponents | sample2.py:581-612 | An empty component list still gives the heading and the "No data" paragraph |
| Sections.AddBenefits | sample2.py:581-612 | Appends exactly the benefits blocks |

## Left out

- `App.js`, the React Native front end, has no logic of its own to model.
- HTTP routing and CORS are left out. So are the `generate-json`, `generate-docx` and `download-docx` endpoints (main.py:81-113), which write or serve files.
- The JSON and docx file writes and the `main()` driver (ver2.py:218-240) are file I/O.
- The language model is a parameter `complete: string -> Option<string>`. `None` stands for a failed call, which is caught and stores nothing. The Groq client, the streaming and the fixed request parameters are not modelled.
- `input()` is a parameter `ask: string -> string`.
- Reading the CSV file is a sequence of lines passed in.
- The defaults file `prompts_with_json.json` is a map passed in.
- `json.loads` is a parameter, as in `decode` and `parseJson`. A row's list fields are taken to decode to lists of strings. A field that decodes to another JSON type is treated like a decoding failure.
- `json.dumps`, `str()` and `repr()` are concrete functions that follow Python for the `Json` values. Escapes of non-ASCII and control characters are approximated.
- `Json` has no floating-point numbers. `"{:,.2f}"` of a Python float (sample2.py:17) is not modelled.
- FixedTwo: a decimal string is printed with its fraction cut to two digits. Python converts it to a binary float and rounds. A rounding carry can reach the integer part (`1.999` prints as `2.00`, `999.999` as `1,000.00`), and an integer part above 2^53 loses digits. So any digit of the output can differ.
- `\w`, `isdigit`, `lower` and `title` are restricted to ASCII letters and digits. `strip` uses Python's full set of whitespace characters.
- Dict keys are unique in Python. In a `Json` object the first occurrence of a key is the one read.
- The total-row branch of `create_table` (sample2.py:93-108) is not modelled. No caller enables it.
- Styling is not modelled: fonts, sizes, underline, alignment, page width and margins (sample2.py:30-52, 375-393). Neither is the mechanics of merging header cells. A merged header is recorded as its start column and span.
- A `Description` list cell is the text of the paragraph added after the cell's empty first paragraph, rendered as a newline followed by the bullet runs.
- `create_project_document_from_json` (sample2.py:373-643) is modelled only for its data shaping: the capital-cost tables (503-525), the maintenance tables (541-566) and the benefits table (581-612). The rest calls the modelled renderers on fixed titles and looked-up values. This includes the numbered section headings, the fixed paragraphs, the `Download\n` decoding, and each cost section's name and description.
- `completed_states` (ver2.py:155, 215) is written but never read.
- Sections.AddCostTable: a capital-cost table whose first record has a dict value is built by the corrected sub-column builder, with the sub-header row as its second row. The program writes a blank second row there (sample2.py:120-143, reached from 521-522). `Sections.CostTable` is the function it is proved against.
- Tables.CreateTableWithSubcolumns: it builds the corrected table, with the sub-header row as its second row and no sub-columns for `None`. The code as written is `Tables.SubcolumnTable`.
- Workflow.Wizard.Step models one iteration of the `while current_state` loop. The loop itself, which need not terminate on a cyclic table, is not modelled.

## Findings

| source | as written | input that shows it | evidently intended | confidence | as-written member | corrected member |
|---|---|---|---|---|---|---|
| main.py:115-120 | `restart` assigns module-level `user_data` and `current_state`, names the server never reads, and leaves `session_data` untouched | after a submission moves the session to step q2, `POST /restart` followed by `GET /get-questions` still serves q2 with the old answers | clear the answers and return to step q1 | not executed | WebSession.RestartKeepsSession | WebSession.Session.Reset |
| sample2.py:120-143 | the table is created with two rows when some header has sub-columns, and the sub-header row is then added with `add_row()` | headers `["Cost"]`, sub-headers `[["a", "b"]]`, data `[{"Cost": {"a": 1, "b": 2}}]` give rows: header, blank, a b, 1 2 | the sub-header row is the table's second row | not executed | Tables.BlankSecondRow | Tables.IntendedSecondRow |
| sample2.py:110-120 | the default `subheaders=None` passes the length check but reaches `any(subheaders)` | headers `["Cost"]`, data `[{"Cost": 1}]`, no sub-headers: TypeError, no table | no sub-headers means one plain column per header | not executed | Tables.DefaultSubheadersRaise | Tables.IntendedDefault |
