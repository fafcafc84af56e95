/** The blood-pressure shorthand parser of
    telegram-bot/src/utils/parsers/presion.ts: "120/80", "120/80 75",
    "120 80 75", "120-80-75" and the like. */
module PresionParser {
  import opened Wrappers
  import opened JsText

  /** A parsed measurement; `pulso` is absent when the text had no third
      group. */
  datatype PresionResult = PresionResult(sistolica: int, diastolica: int, pulso: Option<int>)

  /** The class `[\/\s,-]` of the pattern. */
  predicate IsSeparator(c: char) {
    c == '/' || c == ',' || c == '-' || IsJsSpace(c)
  }

  lemma DigitIsNotSeparator(c: char)
    requires IsDigit(c)
    ensures !IsSeparator(c)
  {
    DigitIsNotSpace(c);
  }

  lemma SeparatorIsNotDigit(c: char)
    requires IsSeparator(c)
    ensures !IsDigit(c)
  {
    if IsDigit(c) {
      DigitIsNotSeparator(c);
    }
  }

  /** `\d{2,3}` */
  predicate IsGroup(g: string) {
    2 <= |g| <= 3 && AllDigits(g)
  }

  /** `[\/\s,-]+` */
  predicate IsSeparatorRun(r: string) {
    |r| >= 1 && forall i :: 0 <= i < |r| ==> IsSeparator(r[i])
  }

  /** The optional `(?:[\/\s,-]+(\d{2,3}))` part. */
  datatype Tail = Tail(sep: string, digits: string)

  /** The pieces of a text the anchored pattern
      `^(\d{2,3})[\/\s,-]+(\d{2,3})(?:[\/\s,-]+(\d{2,3}))?$` matches: the
      three capture groups and the separator runs between them. */
  datatype Tokens = Tokens(first: string, sep: string, second: string, third: Option<Tail>)

  predicate WellFormed(m: Tokens) {
    && IsGroup(m.first)
    && IsSeparatorRun(m.sep)
    && IsGroup(m.second)
    && (m.third.Some? ==> IsSeparatorRun(m.third.value.sep) && IsGroup(m.third.value.digits))
  }

  /** The text a token sequence spells. */
  function Spell(m: Tokens): string {
    m.first + m.sep + m.second + (if m.third.Some? then m.third.value.sep + m.third.value.digits else "")
  }

  /** The text of two groups is their concatenation with the run. */
  lemma SpellWithoutPulse(a: string, b: string, c: string)
    ensures Spell(Tokens(a, b, c, None)) == a + (b + c)
  {
  }

  /** The text of three groups is their concatenation with the runs. */
  lemma SpellWithPulse(a: string, b: string, c: string, d: string, e: string)
    ensures Spell(Tokens(a, b, c, Some(Tail(d, e)))) == a + b + c + d + e
  {
    assert a + b + c + (d + e) == a + b + c + d + e;
  }

  /** Cutting a text after its separator run. */
  lemma SpellSplitPair(first: string, t: string, b: nat)
    requires b <= |t|
    ensures Spell(Tokens(first, t[..b], t[b..], None)) == first + t
  {
    SpellWithoutPulse(first, t[..b], t[b..]);
    assert t[..b] + t[b..] == t;
  }

  /** Cutting a text after its separator run and its second group. */
  lemma SpellSplitTriple(first: string, t: string, b: nat, c: nat, tl: Tail)
    requires b <= |t| && c <= |t| - b
    requires tl.sep + tl.digits == t[b..][c..]
    ensures Spell(Tokens(first, t[..b], t[b..][..c], Some(tl))) == first + t
  {
    var u := t[b..];
    SpellWithPulse(first, t[..b], u[..c], tl.sep, tl.digits);
    assert u[..c] + u[c..] == u;
    assert t[..b] + u == t;
    assert t[..b] + u[..c] + tl.sep + tl.digits == t[..b] + (u[..c] + (tl.sep + tl.digits));
  }

  /** The optional part: a separator run, then a group that ends the text. */
  function MatchTail(t: string): (r: Option<Tail>)
    ensures r.Some? ==> IsSeparatorRun(r.value.sep) && IsGroup(r.value.digits)
    ensures r.Some? ==> r.value.sep + r.value.digits == t
  {
    var d := Span(t, IsSeparator);
    var rest := t[d..];
    var e := Span(rest, IsDigit);
    if d == 0 || !(2 <= e <= 3) || e != |rest| then None
    else
      assert t == t[..d] + rest;
      Some(Tail(t[..d], rest))
  }

  /** What follows the first group: a separator run, the second group, and
      either the end of the text or the optional part. */
  function MatchAfterFirst(first: string, t: string): (r: Option<Tokens>)
    requires IsGroup(first)
    ensures r.Some? ==> WellFormed(r.value) && Spell(r.value) == first + t
  {
    var b := Span(t, IsSeparator);
    var u := t[b..];
    var c := Span(u, IsDigit);
    if b == 0 || !(2 <= c <= 3) then None
    else if c == |u| then
      SpellSplitPair(first, t, b);
      Some(Tokens(first, t[..b], u, None))
    else
      match MatchTail(u[c..])
      case None => None
      case Some(tl) =>
        SpellSplitTriple(first, t, b, c, tl);
        Some(Tokens(first, t[..b], u[..c], Some(tl)))
  }

  /** The anchored match of
      `^(\d{2,3})[\/\s,-]+(\d{2,3})(?:[\/\s,-]+(\d{2,3}))?$`, as a scanner.
      The digit class and the separator class share no character, so every
      run the pattern can match is a maximal run and the match never depends
      on backtracking. */
  function Match(t: string): (r: Option<Tokens>)
    ensures r.Some? ==> WellFormed(r.value) && Spell(r.value) == t
  {
    var a := Span(t, IsDigit);
    if !(2 <= a <= 3) then None
    else
      assert t == t[..a] + t[a..];
      MatchAfterFirst(t[..a], t[a..])
  }

  lemma MatchTailSpell(tl: Tail)
    requires IsSeparatorRun(tl.sep) && IsGroup(tl.digits)
    ensures MatchTail(tl.sep + tl.digits) == Some(tl)
  {
    var t := tl.sep + tl.digits;
    DigitIsNotSeparator(tl.digits[0]);
    SpanOfRun(tl.sep, tl.digits, IsSeparator);
    assert t[|tl.sep|..] == tl.digits;
    assert tl.digits + "" == tl.digits;
    SpanOfRun(tl.digits, "", IsDigit);
    assert t[..|tl.sep|] == tl.sep;
  }

  lemma MatchAfterFirstSpell(m: Tokens)
    requires WellFormed(m)
    ensures MatchAfterFirst(m.first, Spell(m)[|m.first|..]) == Some(m)
  {
    if m.third.Some? {
      MatchAfterFirstSpellTriple(m);
    } else {
      MatchAfterFirstSpellPair(m);
    }
  }

  lemma MatchAfterFirstSpellPair(m: Tokens)
    requires WellFormed(m) && m.third.None?
    ensures MatchAfterFirst(m.first, Spell(m)[|m.first|..]) == Some(m)
  {
    var t := m.sep + m.second;
    assert Spell(m) == m.first + t;
    assert Spell(m)[|m.first|..] == t;
    SeparatorCut(m.sep, m.second);
    assert m.second == m.second + "";
    GroupCut(m.second, "");
  }

  lemma MatchAfterFirstSpellTriple(m: Tokens)
    requires WellFormed(m) && m.third.Some?
    ensures MatchAfterFirst(m.first, Spell(m)[|m.first|..]) == Some(m)
  {
    var tl := m.third.value;
    var tail := tl.sep + tl.digits;
    var u := m.second + tail;
    SpellNested(m);
    assert Spell(m)[|m.first|..] == m.sep + u;
    SeparatorCut(m.sep, u);
    SeparatorIsNotDigit(tl.sep[0]);
    GroupCut(m.second, tail);
    MatchTailSpell(tl);
  }

  /** A separator run followed by a digit is cut exactly at the digit. */
  lemma SeparatorCut(sep: string, u: string)
    requires IsSeparatorRun(sep) && u != [] && IsDigit(u[0])
    ensures Span(sep + u, IsSeparator) == |sep|
    ensures (sep + u)[..|sep|] == sep && (sep + u)[|sep|..] == u
  {
    DigitIsNotSeparator(u[0]);
    SpanOfRun(sep, u, IsSeparator);
  }

  /** A group followed by the end or a non-digit is cut exactly there. */
  lemma GroupCut(g: string, tail: string)
    requires IsGroup(g) && (tail == [] || !IsDigit(tail[0]))
    ensures Span(g + tail, IsDigit) == |g|
    ensures (g + tail)[..|g|] == g && (g + tail)[|g|..] == tail
  {
    SpanOfRun(g, tail, IsDigit);
  }

  /** `Spell` of a sequence with a pulse, nested to the right. */
  lemma SpellNested(m: Tokens)
    requires m.third.Some?
    ensures Spell(m) == m.first + (m.sep + (m.second + (m.third.value.sep + m.third.value.digits)))
  {
  }

  /** Every well-formed token sequence is matched, and split back into the
      same tokens: together with the postcondition of `Match`, the texts
      `Match` accepts are exactly the texts of the pattern's language. */
  lemma MatchSpell(m: Tokens)
    requires WellFormed(m)
    ensures Match(Spell(m)) == Some(m)
  {
    var t := Spell(m);
    var rest := t[|m.first|..];
    assert t == m.first + rest;
    assert rest[0] == m.sep[0];
    SpanOfRun(m.first, rest, IsDigit);
    assert t[..|m.first|] == m.first;
    MatchAfterFirstSpell(m);
  }

  /** `parseInt` of a capture group. */
  function GroupValue(g: string): nat
    requires IsGroup(g)
  {
    DecimalValue(g)
  }

  /** The measurement a match reads, before any range check. */
  function Read(m: Tokens): PresionResult
    requires WellFormed(m)
  {
    PresionResult(
      GroupValue(m.first),
      GroupValue(m.second),
      if m.third.Some? then Some(GroupValue(m.third.value.digits)) else None)
  }

  /** The range and ordering checks applied after the match. */
  predicate Plausible(r: PresionResult) {
    && 60 <= r.sistolica <= 300
    && 30 <= r.diastolica <= 200
    && r.sistolica > r.diastolica
    && (r.pulso.Some? ==> 30 <= r.pulso.value <= 250)
  }

  /** `parsePresionInput`. */
  function ParsePresionInput(input: string): (r: Option<PresionResult>)
    ensures r.Some? ==> 60 <= r.value.sistolica <= 300 && 30 <= r.value.diastolica <= 200
    ensures r.Some? ==> r.value.sistolica > r.value.diastolica
    ensures r.Some? && r.value.pulso.Some? ==> 30 <= r.value.pulso.value <= 250
  {
    if input == "" then None
    else
      var cleanInput := Trim(input);
      match Match(cleanInput)
      case None => None
      case Some(m) =>
        var sistolica := GroupValue(m.first);
        var diastolica := GroupValue(m.second);
        var pulso := if m.third.Some? then Some(GroupValue(m.third.value.digits)) else None;
        if sistolica < 60 || sistolica > 300 then None
        else if diastolica < 30 || diastolica > 200 then None
        else if sistolica <= diastolica then None
        else if pulso.Some? && (pulso.value < 30 || pulso.value > 250) then None
        else Some(PresionResult(sistolica, diastolica, pulso))
  }

  /** `isPresionFormat`. */
  predicate IsPresionFormat(input: string) {
    ParsePresionInput(input) != None
  }

  /** A group is read the way `parseInt(group, 10)` reads it. */
  lemma GroupValueIsParseInt(g: string)
    requires IsGroup(g)
    ensures ParseInt(g) == Some(GroupValue(g) as int)
  {
    assert g + "" == g;
    ParseIntOfDigits(g, "");
  }

  /** Empty input gives no measurement. */
  lemma EmptyIsNull()
    ensures ParsePresionInput("") == None
  {
  }

  /** Surrounding whitespace is ignored. */
  lemma ParseIgnoresSurroundingSpace(input: string)
    ensures ParsePresionInput(Trim(input)) == ParsePresionInput(input)
  {
    var t := Trim(input);
    TrimIdempotent(input);
    if t == [] {
      assert Match(t) == None by { BlankHasNoMatch(t); }
    } else {
      assert t != "" && Trim(t) == t;
    }
  }

  /** The empty text is not of the pattern's form. */
  lemma BlankHasNoMatch(t: string)
    requires t == []
    ensures Match(t) == None
  {
  }

  /** Soundness: a measurement comes only from a trimmed text of the
      pattern's form, and it is the one that text reads. */
  lemma ParseSound(input: string)
    requires ParsePresionInput(input).Some?
    ensures Match(Trim(input)).Some?
    ensures var m := Match(Trim(input)).value;
      WellFormed(m) && Spell(m) == Trim(input)
      && ParsePresionInput(input).value == Read(m) && Plausible(Read(m))
  {
  }

  /** Completeness: a text of the pattern's form, possibly surrounded by
      whitespace, whose values pass the checks, gives exactly those values. */
  lemma ParseComplete(input: string, m: Tokens)
    requires WellFormed(m) && Trim(input) == Spell(m)
    requires Plausible(Read(m))
    ensures ParsePresionInput(input) == Some(Read(m))
  {
    MatchSpell(m);
  }

  /** Both directions at once: the format check accepts exactly the texts of
      the pattern's form whose values pass the range and ordering checks. */
  lemma FormatCharacterised(input: string)
    ensures IsPresionFormat(input) <==>
      (Match(Trim(input)).Some? && Plausible(Read(Match(Trim(input)).value)))
  {
  }

  /** Whatever a text spells, values outside the ranges, or a systolic value
      not above the diastolic one, give no measurement. */
  lemma ImplausibleIsNull(m: Tokens)
    requires WellFormed(m) && !Plausible(Read(m))
    ensures ParsePresionInput(Spell(m)) == None
  {
    MatchSpell(m);
    SpellEndsInDigit(m);
    DigitIsNotSpace(Spell(m)[0]);
    DigitIsNotSpace(Spell(m)[|Spell(m)| - 1]);
    TrimOfTrimmed(Spell(m));
  }

  lemma SpellEndsInDigit(m: Tokens)
    requires WellFormed(m)
    ensures var t := Spell(m); |t| > 0 && IsDigit(t[|t| - 1]) && IsDigit(t[0])
  {
    var t := Spell(m);
    if m.third.Some? {
      assert t[|t| - 1] == m.third.value.digits[|m.third.value.digits| - 1];
    } else {
      assert t[|t| - 1] == m.second[|m.second| - 1];
    }
    assert t[0] == m.first[0];
  }

  /** The digits of a value in a range of two- and three-digit numbers form a
      group that reads back as that value. */
  lemma GroupOf(n: nat)
    requires 10 <= n < 1000
    ensures IsGroup(NatToString(n)) && GroupValue(NatToString(n)) == n
  {
    NatToStringWidth(n);
    DecimalValueOfNatToString(n);
  }

  /** Round trip without a pulse: rendering a plausible measurement with any
      separator run and parsing the text gives the measurement back. */
  lemma RoundTripPair(s: nat, d: nat, sep: string)
    requires Plausible(PresionResult(s, d, None)) && IsSeparatorRun(sep)
    ensures ParsePresionInput(NatToString(s) + sep + NatToString(d)) == Some(PresionResult(s, d, None))
  {
    GroupOf(s);
    GroupOf(d);
    var m := Tokens(NatToString(s), sep, NatToString(d), None);
    assert Spell(m) == NatToString(s) + sep + NatToString(d);
    Renders(m);
  }

  /** Round trip with a pulse. */
  lemma RoundTripTriple(s: nat, d: nat, p: nat, sep1: string, sep2: string)
    requires Plausible(PresionResult(s, d, Some(p)))
    requires IsSeparatorRun(sep1) && IsSeparatorRun(sep2)
    ensures ParsePresionInput(NatToString(s) + sep1 + NatToString(d) + sep2 + NatToString(p))
      == Some(PresionResult(s, d, Some(p)))
  {
    GroupOf(s);
    GroupOf(d);
    GroupOf(p);
    var m := Tokens(NatToString(s), sep1, NatToString(d), Some(Tail(sep2, NatToString(p))));
    assert WellFormed(m);
    assert Read(m) == PresionResult(s, d, Some(p));
    SpellWithPulse(NatToString(s), sep1, NatToString(d), sep2, NatToString(p));
    Renders(m);
  }

  /** A plausible well-formed text parses to what it reads. */
  lemma Renders(m: Tokens)
    requires WellFormed(m) && Plausible(Read(m))
    ensures ParsePresionInput(Spell(m)) == Some(Read(m))
  {
    SpellEndsInDigit(m);
    DigitIsNotSpace(Spell(m)[0]);
    DigitIsNotSpace(Spell(m)[|Spell(m)| - 1]);
    TrimOfTrimmed(Spell(m));
    ParseComplete(Spell(m), m);
  }

  /** The three shapes without a pulse that the source documents, "s/d",
      "s d" and "s-d", read back as the values written. */
  lemma DocumentedPairShapes(s: nat, d: nat)
    requires Plausible(PresionResult(s, d, None))
    ensures ParsePresionInput(NatToString(s) + "/" + NatToString(d)) == Some(PresionResult(s, d, None))
    ensures ParsePresionInput(NatToString(s) + " " + NatToString(d)) == Some(PresionResult(s, d, None))
    ensures ParsePresionInput(NatToString(s) + "-" + NatToString(d)) == Some(PresionResult(s, d, None))
  {
    assert IsSeparatorRun("/") && IsSeparatorRun(" ") && IsSeparatorRun("-");
    RoundTripPair(s, d, "/");
    RoundTripPair(s, d, " ");
    RoundTripPair(s, d, "-");
  }

  /** The three shapes with a pulse that the source documents, "s/d p",
      "s d p" and "s-d-p", read back as the values written. */
  lemma DocumentedShapes(s: nat, d: nat, p: nat)
    requires Plausible(PresionResult(s, d, Some(p)))
    ensures ParsePresionInput(NatToString(s) + "/" + NatToString(d) + " " + NatToString(p))
      == Some(PresionResult(s, d, Some(p)))
    ensures ParsePresionInput(NatToString(s) + " " + NatToString(d) + " " + NatToString(p))
      == Some(PresionResult(s, d, Some(p)))
    ensures ParsePresionInput(NatToString(s) + "-" + NatToString(d) + "-" + NatToString(p))
      == Some(PresionResult(s, d, Some(p)))
  {
    assert IsSeparatorRun("/") && IsSeparatorRun(" ") && IsSeparatorRun("-");
    assert ParsePresionInput(NatToString(s) + "/" + NatToString(d) + " " + NatToString(p))
      == Some(PresionResult(s, d, Some(p))) by {
      RoundTripTriple(s, d, p, "/", " ");
    }
    assert ParsePresionInput(NatToString(s) + " " + NatToString(d) + " " + NatToString(p))
      == Some(PresionResult(s, d, Some(p))) by {
      RoundTripTriple(s, d, p, " ", " ");
    }
    assert ParsePresionInput(NatToString(s) + "-" + NatToString(d) + "-" + NatToString(p))
      == Some(PresionResult(s, d, Some(p))) by {
      RoundTripTriple(s, d, p, "-", "-");
    }
  }

  /** "80/120": a systolic value below the diastolic one gives nothing. */
  lemma InvertedIsNull()
    ensures ParsePresionInput("80/120") == None
  {
    var m := Tokens("80", "/", "120", None);
    assert Spell(m) == "80/120";
    assert DecimalValue("8") == 8;
    assert DecimalValue("80") == 80;
    assert DecimalValue("12") == 12;
    assert DecimalValue("120") == 120;
    ImplausibleIsNull(m);
  }

  /** "90/90": equal values give nothing. */
  lemma EqualIsNull()
    ensures ParsePresionInput("90/90") == None
  {
    var m := Tokens("90", "/", "90", None);
    assert Spell(m) == "90/90";
    assert DecimalValue("9") == 9;
    assert DecimalValue("90") == 90;
    ImplausibleIsNull(m);
  }
}
