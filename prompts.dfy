/**
 * The prompt-text utilities of the wizard: marker substitution in prompt
 * templates (`replace_markers`) and clean-up of a model reply (`clean_response`).
 */
module Prompts {
  import opened Wrappers
  import opened Text
  import opened JsonValue

  /** A character matched by the regex class `\w` (restricted to ASCII). */
  predicate IsWordChar(c: char) {
    IsLetter(c) || IsDigit(c) || c == '_'
  }

  /** The longest prefix of `s` made of word characters (what the greedy `\w+` takes). */
  function WordPrefix(s: string): (w: string)
    ensures w <= s
    ensures forall i :: 0 <= i < |w| ==> IsWordChar(w[i])
    ensures |w| == |s| || !IsWordChar(s[|w|])
  {
    if s != [] && IsWordChar(s[0]) then [s[0]] + WordPrefix(s[1..]) else []
  }

  /**
   * `re.sub(sigil + r"(\w+)", f, text)`: scanning left to right, each `sigil`
   * followed by a maximal run of word characters is replaced by `f(run)`; all
   * other characters are copied; replaced text is not scanned again.
   */
  function Substitute(text: string, sigil: char, f: string -> string): string
    decreases |text|
  {
    if text == [] then []
    else if text[0] == sigil && |text| > 1 && IsWordChar(text[1]) then
      var name := WordPrefix(text[1..]);
      f(name) + Substitute(text[1 + |name|..], sigil, f)
    else
      [text[0]] + Substitute(text[1..], sigil, f)
  }

  /** What replaces `@name`: the answer, else the default fragment, else a placeholder, JSON-encoded. */
  function AtValue(name: string, userData: map<string, Json>, defaults: map<string, Json>): string {
    Dumps(if name in userData then userData[name]
          else if name in defaults then defaults[name]
          else JStr("UNKNOWN_JSON_" + name))
  }

  /** What replaces `^name`: a dict answer JSON-encoded, any other answer as `str()`, else a placeholder. */
  function CaretValue(name: string, userData: map<string, Json>): string {
    if name !in userData then "UNKNOWN_" + name
    else if userData[name].JObj? then Dumps(userData[name])
    else PyStr(userData[name])
  }

  /**
   * Python's `replace_markers(text, user_data)`, the defaults file passed in as
   * `defaults`. The `@` pass runs first and its output is scanned by the `^` pass.
   */
  function ReplaceMarkers(text: string, userData: map<string, Json>, defaults: map<string, Json>): string {
    var afterAt := Substitute(text, '@', name => AtValue(name, userData, defaults));
    Substitute(afterAt, '^', name => CaretValue(name, userData))
  }

  /** Text without the sigil is copied unchanged. */
  lemma {:induction false} SubstituteNoSigil(text: string, sigil: char, f: string -> string)
    requires sigil !in text
    ensures Substitute(text, sigil, f) == text
  {
    if text != [] {
      SubstituteNoSigil(text[1..], sigil, f);
    }
  }

  /** Replacing each marker by itself gives back the text: everything else is copied verbatim. */
  lemma {:induction false} SubstituteIdentity(text: string, sigil: char)
    ensures Substitute(text, sigil, name => [sigil] + name) == text
    decreases |text|
  {
    var f := name => [sigil] + name;
    if text != [] {
      if text[0] == sigil && |text| > 1 && IsWordChar(text[1]) {
        var name := WordPrefix(text[1..]);
        var rest := text[1 + |name|..];
        assert text[1..][..|name|] == name;
        assert text == [sigil] + name + rest;
        assert Substitute(text, sigil, f) == f(name) + Substitute(rest, sigil, f);
        SubstituteIdentity(rest, sigil);
      } else {
        assert text == [text[0]] + text[1..];
        assert Substitute(text, sigil, f) == [text[0]] + Substitute(text[1..], sigil, f);
        SubstituteIdentity(text[1..], sigil);
      }
    }
  }

  /** A marker at the very start is replaced and scanning resumes after its name. */
  lemma SubstituteAtStart(sigil: char, name: string, rest: string, f: string -> string)
    requires name != [] && forall i :: 0 <= i < |name| ==> IsWordChar(name[i])
    requires rest == [] || !IsWordChar(rest[0])
    ensures Substitute([sigil] + name + rest, sigil, f) == f(name) + Substitute(rest, sigil, f)
  {
    var text := [sigil] + name + rest;
    assert text[1..] == name + rest;
    WordPrefixOf(name, rest);
    assert text[1 + |name|..] == rest;
    assert text[0] == sigil && IsWordChar(text[1]);
  }

  /**
   * The scanning semantics stated declaratively: in `lit + sigil + name + rest`,
   * with no sigil in `lit`, a word `name` and `rest` not continuing the word,
   * the first marker found is `name`, and it is replaced by `f(name)`.
   */
  lemma SubstituteMarker(lit: string, sigil: char, name: string, rest: string, f: string -> string)
    requires sigil !in lit
    requires name != [] && forall i :: 0 <= i < |name| ==> IsWordChar(name[i])
    requires rest == [] || !IsWordChar(rest[0])
    ensures Substitute(lit + [sigil] + name + rest, sigil, f) == lit + f(name) + Substitute(rest, sigil, f)
  {
    var marker := [sigil] + name + rest;
    assert lit + [sigil] + name + rest == lit + marker;
    SubstitutePrefix(lit, marker, sigil, f);
    SubstituteAtStart(sigil, name, rest, f);
    ConcatAssoc(lit, f(name), Substitute(rest, sigil, f));
  }

  /** Text without the sigil in front of `rest` is copied before `rest` is scanned. */
  lemma {:induction false} SubstitutePrefix(lit: string, rest: string, sigil: char, f: string -> string)
    requires sigil !in lit
    ensures Substitute(lit + rest, sigil, f) == lit + Substitute(rest, sigil, f)
    decreases |lit|
  {
    if lit == [] {
      assert lit + rest == rest;
    } else {
      var x, more := lit[0], lit[1..];
      assert lit == [x] + more;
      assert lit + rest == [x] + (more + rest);
      calc {
        Substitute(lit + rest, sigil, f);
        Substitute([x] + (more + rest), sigil, f);
        { SubstituteCons(x, more + rest, sigil, f); }
        [x] + Substitute(more + rest, sigil, f);
        { SubstitutePrefix(more, rest, sigil, f); }
        [x] + (more + Substitute(rest, sigil, f));
        lit + Substitute(rest, sigil, f);
      }
    }
  }

  /** A character other than the sigil is copied and scanning goes on after it. */
  lemma SubstituteCons(x: char, t: string, sigil: char, f: string -> string)
    requires x != sigil
    ensures Substitute([x] + t, sigil, f) == [x] + Substitute(t, sigil, f)
  {
    assert ([x] + t)[1..] == t;
  }

  /** The greedy word run of `name + rest` is exactly `name` when `rest` does not continue it. */
  lemma {:induction false} WordPrefixOf(name: string, rest: string)
    requires forall i :: 0 <= i < |name| ==> IsWordChar(name[i])
    requires rest == [] || !IsWordChar(rest[0])
    ensures WordPrefix(name + rest) == name
  {
    if name != [] {
      assert (name + rest)[1..] == name[1..] + rest;
      WordPrefixOf(name[1..], rest);
    } else {
      assert name + rest == rest;
    }
  }

  /** A template with neither sigil is sent as it is. */
  lemma ReplaceMarkersPlainText(text: string, userData: map<string, Json>, defaults: map<string, Json>)
    requires '@' !in text && '^' !in text
    ensures ReplaceMarkers(text, userData, defaults) == text
  {
    SubstituteNoSigil(text, '@', name => AtValue(name, userData, defaults));
    SubstituteNoSigil(text, '^', name => CaretValue(name, userData));
  }

  /**
   * A single `^name` marker between plain text is replaced by the answer's
   * text (or `UNKNOWN_name`), and nothing else changes.
   */
  lemma ReplaceMarkersOneCaret(lit: string, name: string, rest: string,
                               userData: map<string, Json>, defaults: map<string, Json>)
    requires '@' !in lit && '^' !in lit && '@' !in rest && '^' !in rest
    requires name != [] && forall i :: 0 <= i < |name| ==> IsWordChar(name[i])
    requires rest == [] || !IsWordChar(rest[0])
    ensures ReplaceMarkers(lit + "^" + name + rest, userData, defaults) == lit + CaretValue(name, userData) + rest
  {
    var text := lit + "^" + name + rest;
    assert '@' !in name by {
      forall i | 0 <= i < |name| ensures name[i] != '@' { assert IsWordChar(name[i]); }
    }
    assert '@' !in text;
    SubstituteNoSigil(text, '@', n => AtValue(n, userData, defaults));
    SubstituteMarker(lit, '^', name, rest, n => CaretValue(n, userData));
    SubstituteNoSigil(rest, '^', n => CaretValue(n, userData));
  }

  /** `Dumps` of a string with no character needing an escape just adds quotes. */
  lemma {:induction false} DumpsPlain(s: string)
    requires forall i :: 0 <= i < |s| ==> s[i] != '"' && s[i] != '\\' && s[i] as int >= 0x20
    ensures Dumps(JStr(s)) == "\"" + s + "\""
  {
    EscapeIdentity(s);
  }

  lemma {:induction false} EscapeIdentity(s: string)
    requires forall i :: 0 <= i < |s| ==> s[i] != '"' && s[i] != '\\' && s[i] as int >= 0x20
    ensures ConcatMap(s, JsonEscape) == s
  {
    if s != [] {
      EscapeIdentity(s[1..]);
      assert s == [s[0]] + s[1..];
    }
  }

  /**
   * The `@` output is scanned again by the `^` pass: when the answer to `a`
   * is the text `"^b"`, the template `"@a"` becomes the JSON-quoted answer to `b`.
   */
  lemma ReplaceMarkersRescan(a: string, b: string, v: string, userData: map<string, Json>, defaults: map<string, Json>)
    requires a != [] && forall i :: 0 <= i < |a| ==> IsWordChar(a[i])
    requires b != [] && forall i :: 0 <= i < |b| ==> IsWordChar(b[i])
    requires a in userData && userData[a] == JStr("^" + b)
    requires b in userData && userData[b] == JStr(v)
    ensures ReplaceMarkers("@" + a, userData, defaults) == "\"" + v + "\""
  {
    var caret := "^" + b;
    assert forall i :: 0 <= i < |caret| ==> caret[i] == '^' || IsWordChar(caret[i]);
    DumpsPlain(caret);
    assert "" + "@" + a + "" == "@" + a;
    SubstituteMarker("", '@', a, "", name => AtValue(name, userData, defaults));
    SubstituteNoSigil("", '@', name => AtValue(name, userData, defaults));
    var quoted := Substitute("@" + a, '@', name => AtValue(name, userData, defaults));
    assert quoted == "\"" + "^" + b + "\"";
    SubstituteMarker("\"", '^', b, "\"", name => CaretValue(name, userData));
    SubstituteNoSigil("\"", '^', name => CaretValue(name, userData));
    assert CaretValue(b, userData) == v;
  }

  /** Index of the first occurrence of `pat` in `s`. */
  function Find(s: string, pat: string): (r: Option<nat>)
    ensures r.Some? ==> r.value + |pat| <= |s| && pat <= s[r.value..]
    ensures r.None? ==> !Contains(s, pat)
    decreases |s|
  {
    if pat <= s then Some(0)
    else if s == [] then None
    else match Find(s[1..], pat)
      case None => None
      case Some(i) =>
        assert s[1..][i..] == s[i + 1..];
        Some(i + 1)
  }

  /**
   * `re.sub(r"<think>.*?</think>", "", s, flags=re.DOTALL)`: each `<think>`
   * that has a later `</think>` is removed together with everything up to the
   * first such `</think>`; scanning resumes after it.
   */
  function RemoveThink(s: string): (r: string)
    ensures |r| <= |s|
    decreases |s|
  {
    if s == [] then []
    else if "<think>" <= s then
      match Find(s[7..], "</think>")
      case Some(j) => RemoveThink(s[7 + j + 8..])
      case None => [s[0]] + RemoveThink(s[1..])
    else [s[0]] + RemoveThink(s[1..])
  }

  /** `pat` is a prefix of `s` up to ASCII case. */
  predicate PrefixIgnoringCase(pat: string, s: string) {
    |pat| <= |s| && Lower(s[..|pat|]) == pat
  }

  /**
   * `re.sub(r"(?i)(---json|```json|```)", "", s)`: the alternatives are tried in
   * order at each position, ignoring case.
   */
  function RemoveFences(s: string): (r: string)
    ensures |r| <= |s|
    decreases |s|
  {
    if s == [] then []
    else if PrefixIgnoringCase("---json", s) || PrefixIgnoringCase("```json", s) then RemoveFences(s[7..])
    else if "```" <= s then RemoveFences(s[3..])
    else [s[0]] + RemoveFences(s[1..])
  }

  /** Python's `clean_response(raw_response)`. */
  function CleanResponse(raw: string): (r: string)
    ensures IsStripped(r)
    ensures |r| <= |raw|
  {
    Strip(RemoveFences(RemoveThink(raw)))
  }

  /** Text with no `<` has no think block to remove. */
  lemma {:induction false} RemoveThinkNoTag(s: string)
    requires '<' !in s
    ensures RemoveThink(s) == s
  {
    if s != [] {
      assert s[0] != '<';
      RemoveThinkNoTag(s[1..]);
    }
  }

  /** A think block at the very start is removed, up to the first closing tag. */
  lemma RemoveThinkBlockAtStart(b: string, c: string)
    requires !Contains(b, "</think>")
    ensures RemoveThink("<think>" + b + "</think>" + c) == RemoveThink(c)
  {
    var s := "<think>" + b + "</think>" + c;
    assert s[7..] == b + "</think>" + c;
    CloseTagAfter(b, c);
    assert s[7 + |b| + 8..] == c;
  }

  /** A character other than `<` is copied and scanning goes on after it. */
  lemma RemoveThinkCons(x: char, t: string)
    requires x != '<'
    ensures RemoveThink([x] + t) == [x] + RemoveThink(t)
  {
    assert ([x] + t)[1..] == t;
  }

  /** Text with no `<` in front of `rest` is copied before `rest` is scanned. */
  lemma {:induction false} RemoveThinkPrefix(a: string, rest: string)
    requires '<' !in a
    ensures RemoveThink(a + rest) == a + RemoveThink(rest)
    decreases |a|
  {
    if a == [] {
      assert a + rest == rest;
    } else {
      var x, more := a[0], a[1..];
      assert a == [x] + more;
      assert a + rest == [x] + (more + rest);
      calc {
        RemoveThink(a + rest);
        RemoveThink([x] + (more + rest));
        { RemoveThinkCons(x, more + rest); }
        [x] + RemoveThink(more + rest);
        { RemoveThinkPrefix(more, rest); }
        [x] + (more + RemoveThink(rest));
        a + RemoveThink(rest);
      }
    }
  }

  /** A complete think block is removed, up to the first closing tag after it. */
  lemma RemoveThinkBlock(a: string, b: string, c: string)
    requires '<' !in a
    requires !Contains(b, "</think>")
    ensures RemoveThink(a + "<think>" + b + "</think>" + c) == a + RemoveThink(c)
  {
    var blk := "<think>" + b + "</think>" + c;
    assert a + "<think>" + b + "</think>" + c == a + blk;
    RemoveThinkPrefix(a, blk);
    RemoveThinkBlockAtStart(b, c);
  }

  /**
   * The first closing tag in `b + "</think>" + c` starts right after `b` when
   * `b` holds none: the tag's `<` occurs only at its start, so no occurrence
   * can straddle the boundary.
   */
  lemma {:induction false} CloseTagAfter(b: string, c: string)
    requires !Contains(b, "</think>")
    ensures Find(b + "</think>" + c, "</think>") == Some(|b|)
    decreases |b|
  {
    var pat := "</think>";
    var s := b + pat + c;
    if b == [] {
      assert s == pat + c;
    } else {
      CloseTagNotAtStart(b, c);
      assert s[1..] == b[1..] + pat + c;
      CloseTagAfter(b[1..], c);
    }
  }

  /** A text that does not start with the closing tag does not start with it once the tag follows it. */
  lemma CloseTagNotAtStart(b: string, c: string)
    requires b != [] && !("</think>" <= b)
    ensures !("</think>" <= b + "</think>" + c)
  {
    var pat := "</think>";
    var s := b + pat + c;
    if |b| < |pat| {
      assert s[|b|] == '<';
      assert '<' !in pat[1..];
      assert pat[|b|] == pat[1..][|b| - 1];
    } else {
      assert s[..|pat|] == b[..|pat|];
    }
  }

  /** A character other than a backtick or dash is copied and scanning goes on after it. */
  lemma RemoveFencesCons(x: char, t: string)
    requires x != '`' && x != '-'
    ensures RemoveFences([x] + t) == [x] + RemoveFences(t)
  {
    var s := [x] + t;
    assert s[1..] == t;
    if |s| >= 7 {
      assert Lower(s[..7])[0] == LowerChar(x);
    }
  }

  /** Text with no backtick and no dash in front of `rest` is copied before `rest` is scanned. */
  lemma {:induction false} RemoveFencesPrefix(a: string, rest: string)
    requires '`' !in a && '-' !in a
    ensures RemoveFences(a + rest) == a + RemoveFences(rest)
    decreases |a|
  {
    if a == [] {
      assert a + rest == rest;
    } else {
      var x, more := a[0], a[1..];
      assert a == [x] + more;
      assert a + rest == [x] + (more + rest);
      calc {
        RemoveFences(a + rest);
        RemoveFences([x] + (more + rest));
        { RemoveFencesCons(x, more + rest); }
        [x] + RemoveFences(more + rest);
        { RemoveFencesPrefix(more, rest); }
        [x] + (more + RemoveFences(rest));
        a + RemoveFences(rest);
      }
    }
  }

  /**
   * A reply wrapped in a fenced block opened by "```json" or "---json" in any
   * letter case and closed by "```" loses both fence markers.
   */
  lemma RemoveFencesBlock(open: string, body: string)
    requires |open| == 7 && Lower(open) in {"```json", "---json"}
    requires '`' !in body && '-' !in body
    ensures RemoveFences(open + body + "```") == body
  {
    var s := open + body + "```";
    assert s[..7] == open;
    assert s[7..] == body + "```";
    RemoveFencesPrefix(body, "```");
    assert "```"[3..] == [];
  }

  /**
   * A typical model reply, a think block followed by a fenced JSON block,
   * is cleaned down to the stripped JSON text.
   */
  lemma CleanResponseTypicalReply(thought: string, open: string, body: string)
    requires !Contains(thought, "</think>")
    requires |open| == 7 && Lower(open) in {"```json", "---json"}
    requires '`' !in body && '-' !in body && '<' !in body && '<' !in open
    ensures CleanResponse("<think>" + thought + "</think>" + (open + body + "```")) == Strip(body)
  {
    var rest := open + body + "```";
    var whole := "<think>" + thought + "</think>" + rest;
    assert whole == [] + "<think>" + thought + "</think>" + rest;
    RemoveThinkBlock([], thought, rest);
    assert '<' !in rest;
    RemoveThinkPrefix(rest, []);
    assert rest + [] == rest;
    assert RemoveThink(whole) == rest;
    RemoveFencesBlock(open, body);
  }
}
