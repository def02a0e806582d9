/**
 * `format_number_with_commas` of the report renderer: integers and digit
 * strings get a comma every three digits from the right, decimal strings get
 * two fraction digits, and every other value comes back unchanged.
 */
module Numbers {
  import opened Wrappers
  import opened Text
  import opened JsonValue

  /** The digits `d` with a comma inserted every three digits from the right (`"{:,}"`). */
  function Group(d: string): string
    decreases |d|
  {
    if |d| <= 3 then d else Group(d[..|d| - 3]) + "," + d[|d| - 3..]
  }

  /**
   * The shape `"{:,}"` produces for a natural number: counting from the right,
   * every fourth character is a comma and every other one a digit.
   */
  predicate GroupedDigits(g: string) {
    |g| >= 1 && forall i :: 0 <= i < |g| ==> if (|g| - i) % 4 == 0 then g[i] == ',' else IsDigit(g[i])
  }

  /** Grouping puts a comma after every third digit counted from the right. */
  lemma {:induction false} GroupShape(d: string)
    requires |d| >= 1 && AllDigits(d)
    ensures GroupedDigits(Group(d))
  {
    if |d| > 3 {
      var p, t := d[..|d| - 3], d[|d| - 3..];
      GroupShape(p);
      var gp := Group(p);
      var g := Group(d);
      assert g == gp + [','] + t;
      forall i | 0 <= i < |g|
        ensures if (|g| - i) % 4 == 0 then g[i] == ',' else IsDigit(g[i])
      {
        if i < |gp| {
          assert g[i] == gp[i];
          ModFour(|gp| - i);
        } else if i > |gp| {
          assert g[i] == t[i - |gp| - 1];
        }
      }
    }
  }

  lemma ModFour(k: int)
    requires k > 0
    ensures (k + 4) % 4 == k % 4
  {
  }

  /** Deleting the commas of a grouped number gives back its digits. */
  lemma {:induction false} GroupUngroup(d: string)
    requires AllDigits(d)
    ensures RemoveChar(Group(d), ',') == d
  {
    if |d| > 3 {
      var p, t := d[..|d| - 3], d[|d| - 3..];
      var gp := Group(p);
      assert Group(d) == gp + [','] + t;
      assert ',' !in t;
      calc {
        RemoveChar(gp + [','] + t, ',');
        { RemoveCharConcat(gp + [','], t, ','); }
        RemoveChar(gp + [','], ',') + RemoveChar(t, ',');
        { RemoveCharConcat(gp, [','], ','); }
        RemoveChar(gp, ',') + RemoveChar([','], ',') + t;
        { GroupUngroup(p); }
        p + RemoveChar([','], ',') + t;
        { assert RemoveChar([','], ',') == []; }
        p + t;
        { assert d == p + t; }
        d;
      }
    }
  }

  /** `"{:,}".format(n)` for any Python int, the sign in front. */
  function GroupInt(n: int): string {
    if n < 0 then "-" + Group(NatToString(-n)) else Group(NatToString(n))
  }

  /** `value.replace('.', '').replace(',', '').isdigit()`. */
  predicate LooksNumeric(s: string) {
    var bare := RemoveChar(RemoveChar(s, '.'), ',');
    bare != [] && AllDigits(bare)
  }

  /** Every character of a numeric-looking string is a digit, a dot or a comma. */
  lemma NumericChars(s: string)
    requires LooksNumeric(s)
    ensures forall i :: 0 <= i < |s| ==> IsDigit(s[i]) || s[i] == '.' || s[i] == ','
  {
    var bare := RemoveChar(RemoveChar(s, '.'), ',');
    RemoveCharChars(s, '.');
    RemoveCharChars(RemoveChar(s, '.'), ',');
    forall i | 0 <= i < |s| && s[i] != '.' && s[i] != ','
      ensures IsDigit(s[i])
    {
      assert s[i] in RemoveChar(s, '.');
      assert s[i] in bare;
    }
  }

  /** The first two fraction digits, padded with zeros. */
  function TwoFractionDigits(f: string): (r: string)
    ensures |r| == 2
    ensures AllDigits(f) ==> AllDigits(r)
  {
    if |f| >= 2 then f[..2] else f + seq(2 - |f|, _ => '0')
  }

  /** `"{:,.2f}".format(float(ip + "." + fp))`, fraction truncated to two digits. */
  function FixedTwo(ip: string, fp: string): string
    requires AllDigits(ip) && AllDigits(fp)
  {
    Group(NatToString(DigitsValue(ip))) + "." + TwoFractionDigits(fp)
  }

  /**
   * The string branch: `clean` is the numeric-looking text with its commas
   * removed; without a dot it is re-grouped as an `int`, with one dot it gets two
   * fraction digits, and with more dots `float()` raises and the text is kept.
   */
  function FormatClean(s: string, clean: string): string
    requires forall i :: 0 <= i < |clean| ==> IsDigit(clean[i]) || clean[i] == '.'
  {
    match IndexOf(clean, '.')
    case None => Group(NatToString(DigitsValue(clean)))
    case Some(k) =>
      if '.' in clean[k + 1..] then s  // float() raises ValueError, which is caught
      else
        assert forall i :: 0 <= i < k ==> clean[..k][i] == clean[i];
        FixedTwo(clean[..k], clean[k + 1..])
  }

  /** `format_number_with_commas` on a string: re-grouped when numeric-looking, else kept. */
  function FormatString(s: string): string {
    if !LooksNumeric(s) then s
    else
      NumericChars(s);
      var clean := RemoveChar(s, ',');
      RemoveCharChars(s, ',');
      assert forall i :: 0 <= i < |clean| ==> IsDigit(clean[i]) || clean[i] == '.';
      FormatClean(s, clean)
  }

  /** Python's `format_number_with_commas(value)`. */
  function FormatNumber(v: Json): (r: Json)
    ensures r != v ==> r.JStr?
    ensures r == v || v.JInt? || v.JBool? || (v.JStr? && LooksNumeric(v.str))
  {
    match v
    case JInt(n) => JStr(GroupInt(n))
    case JBool(b) => JStr(if b then "1" else "0")  // bool is an int subclass: "{:,}" gives 1 or 0
    case JStr(s) => JStr(FormatString(s))
    case _ => v
  }

  /** An integer is printed as its decimal digits, sign first, with a comma every three digits. */
  lemma IntFormatting(n: int)
    ensures FormatNumber(JInt(n)).JStr?
    ensures RemoveChar(FormatNumber(JInt(n)).str, ',') == IntToString(n)
    ensures n >= 0 ==> GroupedDigits(FormatNumber(JInt(n)).str)
    ensures n < 0 ==> FormatNumber(JInt(n)).str[0] == '-' && GroupedDigits(FormatNumber(JInt(n)).str[1..])
  {
    var d := NatToString(if n < 0 then -n else n);
    GroupShape(d);
    GroupUngroup(d);
    if n < 0 {
      RemoveCharConcat("-", Group(d), ',');
      assert ("-" + Group(d))[1..] == Group(d);
    }
  }

  /** Every character of `s` is a digit, except perhaps for `c`. */
  lemma RemoveCharDigits(s: string, c: char)
    requires forall i :: 0 <= i < |s| ==> IsDigit(s[i]) || s[i] == c
    ensures AllDigits(RemoveChar(s, c))
  {
    var r := RemoveChar(s, c);
    RemoveCharChars(s, c);
    forall i | 0 <= i < |r| ensures IsDigit(r[i]) {
      assert r[i] in s && r[i] != c;
    }
  }

  /**
   * A string of digits and commas with at least one digit is re-grouped as the
   * integer its digits spell: `"1,00"` is formatted exactly like `100`.
   */
  lemma DigitStringRegrouped(s: string)
    requires forall i :: 0 <= i < |s| ==> IsDigit(s[i]) || s[i] == ','
    requires RemoveChar(s, ',') != []
    ensures AllDigits(RemoveChar(s, ','))
    ensures FormatNumber(JStr(s)) == FormatNumber(JInt(DigitsValue(RemoveChar(s, ','))))
  {
    RemoveCharDigits(s, ',');
    assert '.' !in s;
    assert LooksNumeric(s);
  }

  /** Formatting an already formatted value changes nothing. */
  lemma FormatNumberIdempotent(v: Json)
    ensures FormatNumber(FormatNumber(v)) == FormatNumber(v)
  {
    match v
    case JInt(n) =>
      if n >= 0 {
        FormattedNatStable(n);
      } else {
        var g := GroupInt(n);
        IntFormatting(n);
        assert g[0] in RemoveChar(g, '.');
        assert g[0] in RemoveChar(RemoveChar(g, '.'), ',');
        assert FormatString(g) == g;
      }
    case JBool(b) =>
      FormattedNatStable(if b then 1 else 0);
    case JStr(s) =>
      FormatStringIdempotent(s);
    case JNull =>
    case JList(_) =>
    case JObj(_) =>
  }

  /** The string branch is idempotent. */
  lemma FormatStringIdempotent(s: string)
    ensures FormatString(FormatString(s)) == FormatString(s)
  {
    if LooksNumeric(s) {
      NumericChars(s);
      var clean := RemoveChar(s, ',');
      RemoveCharChars(s, ',');
      assert forall i :: 0 <= i < |clean| ==> IsDigit(clean[i]) || clean[i] == '.';
      match IndexOf(clean, '.')
      case None =>
        RemoveCharDigits(clean, '.');
        FormattedNatStable(DigitsValue(clean));
      case Some(k) =>
        if '.' !in clean[k + 1..] {
          var ip, fp := clean[..k], clean[k + 1..];
          assert forall i :: 0 <= i < k ==> ip[i] == clean[i];
          FixedTwoStable(ip, fp);
        }
    }
  }

  /** A grouped number holds digits and commas only. */
  lemma {:induction false} GroupNoDot(d: string)
    requires AllDigits(d)
    ensures '.' !in Group(d) && RemoveChar(Group(d), '.') == Group(d)
  {
    if |d| > 3 {
      var p, t := d[..|d| - 3], d[|d| - 3..];
      GroupNoDot(p);
      assert '.' !in t;
      assert Group(d) == Group(p) + [','] + t;
    } else {
      assert '.' !in d;
    }
  }

  /** The grouped form of a natural number formats to itself (also as an int). */
  lemma FormattedNatStable(n: nat)
    ensures FormatString(Group(NatToString(n))) == Group(NatToString(n))
    ensures FormatNumber(FormatNumber(JInt(n))) == FormatNumber(JInt(n))
  {
    var d := NatToString(n);
    GroupNoDot(d);
    GroupUngroup(d);
    assert LooksNumeric(Group(d));
    NatToStringValue(n);
  }

  /** Deleting `c` from `g + [x] + f` when only `g` may hold it. */
  lemma RemoveAround(g: string, x: char, f: string, c: char)
    requires x != c && c !in f
    ensures RemoveChar(g + [x] + f, c) == RemoveChar(g, c) + [x] + f
  {
    RemoveCharConcat(g + [x], f, c);
    RemoveCharConcat(g, [x], c);
  }

  /** A two-decimal result looks numeric and loses exactly its commas. */
  lemma FixedTwoShape(ip: string, fp: string)
    requires AllDigits(ip) && AllDigits(fp)
    ensures LooksNumeric(FixedTwo(ip, fp))
    ensures RemoveChar(FixedTwo(ip, fp), ',')
         == NatToString(DigitsValue(ip)) + "." + TwoFractionDigits(fp)
  {
    var d := NatToString(DigitsValue(ip));
    var g := Group(d);
    var f := TwoFractionDigits(fp);
    GroupNoDot(d);
    GroupUngroup(d);
    assert RemoveChar(g + "." + f, '.') == g + f by {
      RemoveCharConcat(g, ".", '.');
      RemoveCharConcat(g + ".", f, '.');
    }
    assert RemoveChar(g + f, ',') == d + f by {
      RemoveCharConcat(g, f, ',');
    }
    RemoveAround(g, '.', f, ',');
  }

  /** A two-decimal result formats to itself. */
  lemma FixedTwoStable(ip: string, fp: string)
    requires AllDigits(ip) && AllDigits(fp)
    ensures FormatString(FixedTwo(ip, fp)) == FixedTwo(ip, fp)
  {
    var d := NatToString(DigitsValue(ip));
    var f := TwoFractionDigits(fp);
    FixedTwoShape(ip, fp);
    var clean := d + "." + f;
    IndexOfJoin(d, f, '.');
    assert clean[..|d|] == d && clean[|d| + 1..] == f;
    NatToStringValue(DigitsValue(ip));
    assert FormatClean(FixedTwo(ip, fp), clean) == FixedTwo(ip, fp);
  }

  /** `"1,00"` is re-grouped as the integer 100. */
  lemma ExampleMisgrouped()
    ensures FormatNumber(JStr("1,00")) == JStr("100")
  {
    assert RemoveChar("1,00", ',') == "100";
    assert DigitsValue("100") == 100 by {
      assert "100"[..2] == "10" && "10"[..1] == "1" && "1"[..0] == "";
    }
    assert GroupInt(100) == "100" by {
      assert NatToString(100) == "100";
    }
    DigitStringRegrouped("1,00");
  }

  /**
   * A numeric-looking string with two dots once its commas are gone, such as
   * `"1.2.3"`, makes `float()` raise; the error is caught and the text is kept.
   */
  lemma FloatFailureKeepsText(s: string, i: nat, j: nat)
    requires LooksNumeric(s)
    requires i < j < |RemoveChar(s, ',')|
    requires RemoveChar(s, ',')[i] == '.' && RemoveChar(s, ',')[j] == '.'
    ensures FormatNumber(JStr(s)) == JStr(s)
  {
    NumericChars(s);
    var clean := RemoveChar(s, ',');
    var k := IndexOf(clean, '.').value;
    assert clean[k + 1..][j - k - 1] == '.';
  }
}
