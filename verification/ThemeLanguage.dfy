/** Theme identifiers, lengths, durations and colours: the scanners of the host against the regular
    expressions of the contracts, over ASCII text. What number a decimal text denotes is a parameter
    (`None` when it is not finite), the same for both sides. */
module ThemeLanguage {
  import opened Regex
  import opened Text
  import opened Wrappers

  // ---- identifiers ----

  const ALNUM := Chr(LowerAlnum)
  const SEPARATED_RUN := Cat(Chr(Among(".-")), Plus(ALNUM))
  const THEME_ID := Cat(Plus(ALNUM), Plus(SEPARATED_RUN))

  /** What the scan decides about the rest of the text from its two flags. */
  predicate ScanThemeId(s: string, containsSeparator: bool, previousWasSeparator: bool) {
    if s == "" then containsSeparator && !previousWasSeparator
    else if s[0] == '.' || s[0] == '-' then !previousWasSeparator && ScanThemeId(s[1..], true, true)
    else In(s[0], LowerAlnum) && ScanThemeId(s[1..], containsSeparator, false)
  }

  /** The residual expression each pair of flags stands for. */
  function Residual(containsSeparator: bool, previousWasSeparator: bool): Re {
    match (containsSeparator, previousWasSeparator)
    case (false, true) => THEME_ID
    case (false, false) => Cat(Star(ALNUM), Plus(SEPARATED_RUN))
    case (true, true) => Cat(Plus(ALNUM), Star(SEPARATED_RUN))
    case (true, false) => Cat(Star(ALNUM), Star(SEPARATED_RUN))
  }

  lemma ResidualStep(c: char, containsSeparator: bool, previousWasSeparator: bool)
    ensures Deriv(Residual(containsSeparator, previousWasSeparator), c) ==
            if c == '.' || c == '-' then (if previousWasSeparator then Empty else Residual(true, true))
            else if In(c, LowerAlnum) then Residual(containsSeparator, false)
            else Empty
  {
    var separator := c == '.' || c == '-';
    assert In(c, Among(".-")) <==> separator;
    assert Deriv(SEPARATED_RUN, c) == if separator then Plus(ALNUM) else Empty;
    assert Deriv(Star(SEPARATED_RUN), c) == if separator then Residual(true, true) else Empty;
    assert Deriv(Plus(SEPARATED_RUN), c) == Deriv(Star(SEPARATED_RUN), c);
    assert Deriv(Star(ALNUM), c) == Deriv(Plus(ALNUM), c) == if In(c, LowerAlnum) then Star(ALNUM) else Empty;
  }

  lemma {:induction false} ScanFollowsExpression(s: string, containsSeparator: bool, previousWasSeparator: bool)
    ensures ScanThemeId(s, containsSeparator, previousWasSeparator)
            <==> Accepts(Residual(containsSeparator, previousWasSeparator), s)
  {
    if s != "" {
      hide Residual;
      ResidualStep(s[0], containsSeparator, previousWasSeparator);
      EmptyAcceptsNothing(s[1..]);
      ScanFollowsExpression(s[1..], true, true);
      ScanFollowsExpression(s[1..], containsSeparator, false);
    }
  }

  /** `is_theme_id`: accepts exactly the language of the contract's expression. */
  method IsThemeId(value: string) returns (accepted: bool)
    ensures accepted <==> Matches(THEME_ID, value)
  {
    ScanFollowsExpression(value, false, true);
    AcceptsIsSound(THEME_ID, value);
    var containsSeparator := false;
    var previousWasSeparator := true;
    for i := 0 to |value|
      invariant ScanThemeId(value, false, true) <==> ScanThemeId(value[i..], containsSeparator, previousWasSeparator)
    {
      var character := value[i];
      assert value[i..][1..] == value[i + 1..];
      if character == '.' || character == '-' {
        if previousWasSeparator { return false; }
        containsSeparator := true;
        previousWasSeparator := true;
      } else if 'a' <= character <= 'z' || '0' <= character <= '9' {
        previousWasSeparator := false;
      } else {
        return false;
      }
    }
    return containsSeparator && !previousWasSeparator;
  }

  // ---- unsafe text ----

  function Kept(c: char): string { if IsSpace(c) then "" else [c] }

  function Compact(s: string): string {
    if s == "" then "" else Kept(s[0]) + Compact(s[1..])
  }

  predicate Structural(c: char) { c in "<>;{}" }

  predicate IsMarker(word: string) {
    word == "url(" || word == "@import" || word == "javascript:" || word == "expression("
  }

  predicate Marked(compact: string) {
    || Contains(compact, "url(") || Contains(compact, "@import")
    || Contains(compact, "javascript:") || Contains(compact, "expression(")
  }

  /** `is_safe_token`: no control character, no structural character, and none of the markers even
      when the blanks are dropped. */
  predicate IsSafeToken(value: string) {
    && (forall i :: 0 <= i < |value| ==> !IsControl(value[i]) && !Structural(value[i]))
    && !Marked(Compact(Lower(value)))
  }

  /** A word, blanks, and the character that makes it dangerous. */
  function Marker(word: string, last: char): Re { Cat(Lit(word), Cat(Star(Chr(Blank)), Chr(Only(last)))) }

  const UNSAFE_WORD := Alt(Alt(Marker("url", '('), Lit("@import")),
      Alt(Marker("javascript", ':'), Marker("expression", '(')))
  const UNSAFE_CSS := Alt(Chr(Among("<>;{}")), UNSAFE_WORD)

  /** The contract's test: the expression is found somewhere, whatever the letter case. */
  ghost predicate UnsafeCss(value: string) {
    exists i, j | 0 <= i <= j <= |value| :: Matches(UNSAFE_CSS, Lower(value)[i..j])
  }

  lemma {:induction false} CompactOfBlanks(s: string)
    requires forall i :: 0 <= i < |s| ==> IsSpace(s[i])
    ensures Compact(s) == ""
  {
    if s != "" { CompactOfBlanks(s[1..]); }
  }

  lemma CompactOfCons(c: char, s: string)
    ensures Compact([c] + s) == Kept(c) + Compact(s)
  {
    assert ([c] + s)[1..] == s;
  }

  lemma {:induction false} CompactSplits(s: string, t: string)
    ensures Compact(s + t) == Compact(s) + Compact(t)
  {
    hide Compact, Kept;
    if s == "" {
      CompactOfBlanks("");
      assert "" + t == t;
    } else {
      CompactSplits(s[1..], t);
      CompactOfCons(s[0], s[1..]);
      CompactOfCons(s[0], s[1..] + t);
      assert s == [s[0]] + s[1..] && s + t == [s[0]] + (s[1..] + t);
    }
  }

  lemma {:induction false} CompactOfPlain(s: string)
    requires forall i :: 0 <= i < |s| ==> !IsSpace(s[i])
    ensures Compact(s) == s
  {
    if s != "" {
      CompactOfPlain(s[1..]);
      assert s == [s[0]] + s[1..];
    }
  }

  lemma MarkerShape(word: string, last: char, m: string) returns (blanks: string)
    requires Matches(Marker(word, last), m)
    ensures m == word + blanks + [last] && forall i :: 0 <= i < |blanks| ==> IsSpace(blanks[i])
  {
    hide Matches, Lit;
    var i := CatParts(Lit(word), Cat(Star(Chr(Blank)), Chr(Only(last))), m);
    LitMatches(word, m[..i]);
    var rest := m[i..];
    var j := CatParts(Star(Chr(Blank)), Chr(Only(last)), rest);
    StarMatches(Blank, rest[..j]);
    blanks := rest[..j];
    ChrMatches(Only(last), rest[j..]);
    assert rest[j..] == [last];
    assert m == m[..i] + (rest[..j] + rest[j..]);
  }

  lemma MarkerCompacts(word: string, last: char, m: string)
    requires Matches(Marker(word, last), m) && !IsSpace(last)
    requires forall i :: 0 <= i < |word| ==> !IsSpace(word[i])
    ensures Compact(m) == word + [last]
  {
    hide Compact;
    var blanks := MarkerShape(word, last, m);
    CompactOfPlain(word);
    CompactOfBlanks(blanks);
    CompactOfPlain([last]);
    CompactSplits(word, blanks);
    CompactSplits(word + blanks, [last]);
    assert word + "" == word;
  }

  lemma ContainsTheMiddle(before: string, marker: string, after: string)
    ensures Contains(before + marker + after, marker)
  {
    assert (before + marker + after)[|before|..] == marker + after;
  }

  lemma CompactContains(s: string, i: nat, j: nat)
    requires i <= j <= |s|
    ensures Contains(Compact(s), Compact(s[i..j]))
  {
    hide Compact, Contains;
    CompactSplits(s[..i], s[i..j]);
    CompactSplits(s[..j], s[j..]);
    assert s == s[..j] + s[j..] && s[..j] == s[..i] + s[i..j];
    ContainsTheMiddle(Compact(s[..i]), Compact(s[i..j]), Compact(s[j..]));
  }

  lemma UnsafeTextHasAMarker(m: string)
    requires Matches(UNSAFE_CSS, m)
    ensures (|m| == 1 && Structural(m[0])) || IsMarker(Compact(m))
  {
    hide Compact, Matches, Lit, Marker;
    ChrMatches(Among("<>;{}"), m);
    AltMatches(Chr(Among("<>;{}")), UNSAFE_WORD, m);
    var first, second := Alt(Marker("url", '('), Lit("@import")),
        Alt(Marker("javascript", ':'), Marker("expression", '('));
    AltMatches(first, second, m);
    AltMatches(Marker("url", '('), Lit("@import"), m);
    AltMatches(Marker("javascript", ':'), Marker("expression", '('), m);
    LitMatches("@import", m);
    if m == "@import" { CompactOfPlain(m); }
    if Matches(Marker("url", '('), m) { MarkerCompacts("url", '(', m); }
    if Matches(Marker("javascript", ':'), m) { MarkerCompacts("javascript", ':', m); }
    if Matches(Marker("expression", '('), m) { MarkerCompacts("expression", '(', m); }
  }

  lemma LoweringKeepsStructure(c: char)
    ensures Structural(LowerChar(c)) <==> Structural(c)
  {
  }

  lemma ContainedMarkerMarks(compact: string, word: string)
    requires IsMarker(word) && Contains(compact, word)
    ensures Marked(compact)
  {
    hide Contains;
  }

  lemma UnsafeAnywhereIsCaught(value: string, i: nat, j: nat)
    requires i <= j <= |value| && Matches(UNSAFE_CSS, Lower(value)[i..j])
    ensures !IsSafeToken(value)
  {
    hide Contains, Compact, Matches, Structural, LowerChar, Lower, Marked, Lit, Marker, IsMarker;
    var m := Lower(value)[i..j];
    UnsafeTextHasAMarker(m);
    if |m| == 1 && Structural(m[0]) {
      assert m[0] == LowerChar(value[i]);
      LoweringKeepsStructure(value[i]);
    } else {
      CompactContains(Lower(value), i, j);
      ContainedMarkerMarks(Compact(Lower(value)), Compact(m));
    }
  }

  /** Whatever the host lets through, the contract finds safe too. */
  lemma {:induction false} HostSafetyIsContractSafety(value: string)
    requires IsSafeToken(value)
    ensures !UnsafeCss(value)
  {
    hide IsSafeToken, Matches, Lit, Marker;
    if i, j :| 0 <= i <= j <= |value| && Matches(UNSAFE_CSS, Lower(value)[i..j]) {
      UnsafeAnywhereIsCaught(value, i, j);
    }
  }

  lemma MarkerWordMatches(word: string, last: char)
    ensures Matches(Marker(word, last), word + [last])
  {
    hide Matches, Lit;
    LitMatches(word, word);
    StarMatches(Blank, "");
    ChrMatches(Only(last), [last]);
    CatJoins(Star(Chr(Blank)), Chr(Only(last)), "", [last]);
    CatJoins(Lit(word), Cat(Star(Chr(Blank)), Chr(Only(last))), word, "" + [last]);
    assert "" + [last] == [last];
  }

  lemma MarkerIsUnsafe(m: string)
    requires IsMarker(m)
    ensures Matches(UNSAFE_CSS, m)
  {
    hide Matches, Lit, Marker;
    var first, second := Alt(Marker("url", '('), Lit("@import")),
        Alt(Marker("javascript", ':'), Marker("expression", '('));
    AltMatches(Chr(Among("<>;{}")), UNSAFE_WORD, m);
    AltMatches(first, second, m);
    AltMatches(Marker("url", '('), Lit("@import"), m);
    AltMatches(Marker("javascript", ':'), Marker("expression", '('), m);
    LitMatches("@import", m);
    MarkerWordMatches("url", '(');
    MarkerWordMatches("javascript", ':');
    MarkerWordMatches("expression", '(');
    assert "url" + "(" == "url(" && "javascript" + ":" == "javascript:" && "expression" + "(" == "expression(";
  }

  lemma ContainedMarkerIsUnsafe(value: string, m: string)
    requires IsMarker(m) && Contains(Lower(value), m)
    ensures UnsafeCss(value)
  {
    hide Matches, Lit, Marker, IsMarker, Lower;
    var i :| 0 <= i <= |value| && m <= Lower(value)[i..];
    assert Lower(value)[i..i + |m|] == m;
    MarkerIsUnsafe(m);
  }

  lemma StructuralIsUnsafe(value: string, i: nat)
    requires i < |value| && Structural(value[i])
    ensures UnsafeCss(value)
  {
    hide Matches, Lower, LowerChar;
    var m := Lower(value)[i..i + 1];
    LoweringKeepsStructure(value[i]);
    ChrMatches(Among("<>;{}"), m);
    AltMatches(Chr(Among("<>;{}")), UNSAFE_WORD, m);
  }

  lemma LoweringKeepsBlanks(c: char)
    ensures IsSpace(LowerChar(c)) <==> IsSpace(c)
  {
  }

  /** The two tests differ only on blanks and control characters: without any they are one test. */
  lemma SafetyAgreesWithoutBlanks(value: string)
    requires forall i :: 0 <= i < |value| ==> !IsSpace(value[i]) && !IsControl(value[i])
    ensures IsSafeToken(value) <==> !UnsafeCss(value)
  {
    hide Contains, Structural, UnsafeCss, LowerChar, IsSpace, Lower;
    if IsSafeToken(value) {
      HostSafetyIsContractSafety(value);
    } else if i :| 0 <= i < |value| && Structural(value[i]) {
      StructuralIsUnsafe(value, i);
    } else {
      forall i | 0 <= i < |value| ensures !IsSpace(Lower(value)[i]) { LoweringKeepsBlanks(value[i]); }
      CompactOfPlain(Lower(value));
      var s := Lower(value);
      var m := if Contains(s, "url(") then "url(" else if Contains(s, "@import") then "@import"
               else if Contains(s, "javascript:") then "javascript:" else "expression(";
      ContainedMarkerIsUnsafe(value, m);
    }
  }

  // ---- lengths ----

  datatype ThemeLength = Number(value: real) | Text(text: string)

  const DIGITS := Plus(Chr(Digit))
  const DOT := Chr(Only('.'))
  const FRACTION := Cat(DOT, Star(Chr(Digit)))
  const MAGNITUDE := Alt(Cat(DIGITS, Opt(FRACTION)), Cat(DOT, DIGITS))
  const NUMBER := Cat(Opt(Chr(Only('-'))), MAGNITUDE)
  const UNIT := Alt(Alt(Lit("px"), Lit("rem")), Alt(Lit("em"), Lit("%")))
  const LENGTH := Cat(NUMBER, Opt(UNIT))

  predicate AllDigits(s: string) { forall i :: 0 <= i < |s| ==> In(s[i], Digit) }

  predicate IsMagnitude(text: string) {
    var dot := IndexOf(text, '.');
    var fraction := if dot < |text| then text[dot + 1..] else "";
    AllDigits(text[..dot]) && AllDigits(fraction) && (dot > 0 || fraction != "")
  }

  /** The texts of digits, dots and hyphens that parse as a number: a sign, and digits around at
      most one dot. */
  predicate ParsesAsNumber(text: string) {
    IsMagnitude(if text != "" && text[0] == '-' then text[1..] else text)
  }

  predicate HostBounds(number: real, unit: string, minimum: real, maximum: real, allowNegative: bool) {
    && (allowNegative || number >= 0.0)
    && if unit == "" || unit == "px" then minimum <= number <= maximum
       else if unit == "rem" || unit == "em" then minimum / 16.0 <= number <= maximum / 16.0
       else unit == "%" && minimum >= 0.0 && 0.0 <= number <= 100.0
  }

  /** `parse_length`: the number ends at the first other character. */
  function ParseLength(value: string, number: string -> Option<real>): Option<(real, string)> {
    if !IsSafeToken(value) || value == "" then None else
    var split := Run(value, NumberChar);
    if !ParsesAsNumber(value[..split]) then None else
    match number(value[..split])
    case None => None
    case Some(n) => Some((n, value[split..]))
  }

  /** `validate_optional_length` on a length that is present. */
  predicate HostLength(value: ThemeLength, minimum: real, maximum: real, allowNegative: bool,
      number: string -> Option<real>) {
    match value
    case Number(n) => HostBounds(n, "", minimum, maximum, allowNegative)
    case Text(text) =>
      match ParseLength(text, number)
      case None => false
      case Some((n, unit)) => HostBounds(n, unit, minimum, maximum, allowNegative)
  }

  predicate ContractBounds(number: real, unit: string, minimum: real, maximum: real, allowNegative: bool) {
    if !allowNegative && number < 0.0 then false
    else if unit == "" || unit == "px" then number >= minimum && number <= maximum
    else if unit == "rem" || unit == "em" then number >= minimum / 16.0 && number <= maximum / 16.0
    else minimum >= 0.0 && unit == "%" && number >= 0.0 && number <= 100.0
  }

  /** The first group of the second expression is greedy: the longest prefix that is a number. */
  ghost predicate Captures(value: string, end: int) {
    && 0 <= end <= |value| && Matches(NUMBER, value[..end])
    && forall longer :: end < longer <= |value| ==> !Matches(NUMBER, value[..longer])
  }

  ghost predicate ContractLength(value: ThemeLength, minimum: real, maximum: real, allowNegative: bool,
      number: string -> Option<real>) {
    match value
    case Number(n) => ContractBounds(n, "", minimum, maximum, allowNegative)
    case Text(text) =>
      && !UnsafeCss(text) && Matches(LENGTH, text)
      && exists end :: && Captures(text, end) && number(text[..end]).Some?
                       && ContractBounds(number(text[..end]).value, text[end..], minimum, maximum, allowNegative)
  }

  lemma DigitsEndAtTheDot(s: string)
    ensures AllDigits(s[..IndexOf(s, '.')]) <==> Run(s, Digit) == IndexOf(s, '.')
  {
    hide Run, IndexOf;
    var run, dot := Run(s, Digit), IndexOf(s, '.');
    if run < dot {
      assert s[..dot][run] == s[run];
    }
  }

  lemma NoDigits()
    ensures AllDigits("")
  {
  }

  lemma MagnitudeShape(s: string)
    ensures var run := Run(s, Digit);
            IsMagnitude(s) <==>
            if run == |s| then s != "" else s[run] == '.' && AllDigits(s[run + 1..]) && |s| > 1
  {
    hide Run, IndexOf, AllDigits;
    DigitsEndAtTheDot(s);
    NoDigits();
  }

  lemma WholePartMatches(s: string)
    ensures var run := Run(s, Digit);
            Matches(Cat(DIGITS, Opt(FRACTION)), s) <==>
            run > 0 && (run == |s| || (s[run] == '.' && AllDigits(s[run + 1..])))
  {
    hide Matches;
    var run := Run(s, Digit);
    CatEndsAtRun(DIGITS, Opt(FRACTION), Digit, s);
    PlusMatches(Digit, s[..run]);
    OptMatches(FRACTION, s[run..]);
    ChrCat(Only('.'), Star(Chr(Digit)), s[run..]);
    if run < |s| {
      StarMatches(Digit, s[run + 1..]);
      assert s[run..][1..] == s[run + 1..];
    }
  }

  lemma MagnitudeMatches(s: string)
    ensures Matches(MAGNITUDE, s) <==> IsMagnitude(s)
  {
    hide Matches, IsMagnitude;
    AltMatches(Cat(DIGITS, Opt(FRACTION)), Cat(DOT, DIGITS), s);
    MagnitudeShape(s);
    WholePartMatches(s);
    ChrCat(Only('.'), DIGITS, s);
    if s != "" { PlusMatches(Digit, s[1..]); }
  }

  lemma NumberMatches(s: string)
    ensures Matches(NUMBER, s) <==> ParsesAsNumber(s)
  {
    hide Matches;
    OptChrCat(Only('-'), MAGNITUDE, s);
    MagnitudeMatches(if s != "" && s[0] == '-' then s[1..] else s);
  }

  predicate IsUnit(unit: string) { unit == "px" || unit == "rem" || unit == "em" || unit == "%" }

  lemma UnitMatches(unit: string)
    ensures Matches(Opt(UNIT), unit) <==> unit == "" || IsUnit(unit)
  {
    hide Matches, Lit;
    OptMatches(UNIT, unit);
    AltMatches(Alt(Lit("px"), Lit("rem")), Alt(Lit("em"), Lit("%")), unit);
    AltMatches(Lit("px"), Lit("rem"), unit);
    AltMatches(Lit("em"), Lit("%"), unit);
    LitMatches("px", unit);
    LitMatches("rem", unit);
    LitMatches("em", unit);
    LitMatches("%", unit);
  }

  lemma LengthMatches(text: string)
    ensures var split := Run(text, NumberChar);
            Matches(LENGTH, text) <==>
            ParsesAsNumber(text[..split]) && (text[split..] == "" || IsUnit(text[split..]))
  {
    hide Matches, Lit, ParsesAsNumber, IsUnit;
    var split := Run(text, NumberChar);
    UnitsStartOutside();
    CatEndsAtRun(NUMBER, Opt(UNIT), NumberChar, text);
    NumberMatches(text[..split]);
    UnitMatches(text[split..]);
  }

  lemma UnitsStartOutside()
    ensures StartsOutside(Opt(UNIT), NumberChar)
  {
    assert forall word :: word in {"px", "rem", "em", "%"} ==> StartsOutside(Lit(word), NumberChar);
  }

  lemma CaptureEndsAtRun(text: string, end: int)
    requires Matches(NUMBER, text[..Run(text, NumberChar)])
    ensures Captures(text, end) <==> end == Run(text, NumberChar)
  {
    hide Matches, Run;
    var split := Run(text, NumberChar);
    forall longer | split < longer <= |text| ensures !Matches(NUMBER, text[..longer]) {
      if Matches(NUMBER, text[..longer]) {
        MatchesStayOver(NUMBER, NumberChar, text[..longer]);
      }
    }
  }

  /** Characters no marker, blank or structural test looks for. */
  predicate Harmless(c: char) {
    !IsSpace(c) && !IsControl(c) && !Structural(c) && c != '(' && c != '@' && c != ':'
  }

  lemma HarmlessHasNoMarker(s: string, word: string)
    requires IsMarker(word) && forall i :: 0 <= i < |s| ==> Harmless(s[i])
    ensures !Contains(s, word)
  {
    var at := if word == "url(" then 3 else if word == "@import" then 0 else 10;
    assert !Harmless(word[at]);
    forall i | 0 <= i <= |s| ensures !(word <= s[i..]) {
      if i + at < |s| { assert s[i..][at] == s[i + at]; }
    }
  }

  lemma HarmlessIsSafe(s: string)
    requires forall i :: 0 <= i < |s| ==> Harmless(s[i])
    ensures IsSafeToken(s) && !UnsafeCss(s)
  {
    hide Compact, Contains, Lower, UnsafeCss;
    forall i | 0 <= i < |s| ensures Harmless(Lower(s)[i]) { assert Harmless(s[i]); LoweringKeepsStructure(s[i]); }
    CompactOfPlain(Lower(s));
    HarmlessHasNoMarker(Lower(s), "url(");
    HarmlessHasNoMarker(Lower(s), "@import");
    HarmlessHasNoMarker(Lower(s), "javascript:");
    HarmlessHasNoMarker(Lower(s), "expression(");
    HostSafetyIsContractSafety(s);
  }

  lemma PlainIsSafe(s: string)
    requires forall i :: 0 <= i < |s| ==> In(s[i], PlainChar)
    ensures IsSafeToken(s) && !UnsafeCss(s)
  {
    forall i | 0 <= i < |s| ensures Harmless(s[i]) { assert In(s[i], PlainChar); }
    HarmlessIsSafe(s);
  }

  lemma EmptyIsNoNumber()
    ensures !ParsesAsNumber("")
  {
  }

  lemma BoundsAgree(n: real, unit: string, minimum: real, maximum: real, allowNegative: bool)
    ensures HostBounds(n, unit, minimum, maximum, allowNegative) <==>
            (unit == "" || IsUnit(unit)) && ContractBounds(n, unit, minimum, maximum, allowNegative)
  {
  }

  /** The contract looks no further than the leading number and what follows it. */
  lemma {:induction false} ContractReadsTheRun(text: string, minimum: real, maximum: real, allowNegative: bool,
      number: string -> Option<real>)
    ensures var split := Run(text, NumberChar);
            ContractLength(Text(text), minimum, maximum, allowNegative, number) <==>
            && ParsesAsNumber(text[..split]) && (text[split..] == "" || IsUnit(text[split..]))
            && number(text[..split]).Some?
            && ContractBounds(number(text[..split]).value, text[split..], minimum, maximum, allowNegative)
  {
    hide Matches, ParsesAsNumber, IsSafeToken, UnsafeCss, Captures, Run, ContractBounds, IsUnit;
    var split := Run(text, NumberChar);
    LengthMatches(text);
    NumberMatches(text[..split]);
    if Matches(LENGTH, text) {
      LengthIsPlain(text);
      PlainIsSafe(text);
      forall end ensures Captures(text, end) <==> end == split { CaptureEndsAtRun(text, end); }
    }
  }

  lemma {:induction false} LiteralIsPlain(word: string)
    requires forall i :: 0 <= i < |word| ==> In(word[i], PlainChar)
    ensures Over(Lit(word), PlainChar)
  {
    if word != "" { LiteralIsPlain(word[1..]); }
  }

  lemma LengthIsPlain(text: string)
    requires Matches(LENGTH, text)
    ensures forall i :: 0 <= i < |text| ==> In(text[i], PlainChar)
  {
    hide Matches, Lit;
    LiteralIsPlain("px");
    LiteralIsPlain("rem");
    LiteralIsPlain("em");
    LiteralIsPlain("%");
    MatchesStayOver(LENGTH, PlainChar, text);
  }

  /** Both sides accept the same lengths, whatever the bounds, the sign rule, and the value each
      decimal text has. */
  lemma {:induction false} LengthsAgree(value: ThemeLength, minimum: real, maximum: real, allowNegative: bool,
      number: string -> Option<real>)
    ensures HostLength(value, minimum, maximum, allowNegative, number)
            <==> ContractLength(value, minimum, maximum, allowNegative, number)
  {
    hide Matches, ParsesAsNumber, IsSafeToken, UnsafeCss, Captures, Run, HostBounds, ContractBounds, IsUnit;
    match value
    case Number(n) => BoundsAgree(n, "", minimum, maximum, allowNegative);
    case Text(text) =>
      var split := Run(text, NumberChar);
      ContractReadsTheRun(text, minimum, maximum, allowNegative, number);
      LengthMatches(text);
      if Matches(LENGTH, text) {
        LengthIsPlain(text);
        PlainIsSafe(text);
      }
      EmptyIsNoNumber();
      if number(text[..split]).Some? {
        BoundsAgree(number(text[..split]).value, text[split..], minimum, maximum, allowNegative);
      }
  }

  // ---- durations ----

  const DECIMAL := Cat(DIGITS, Opt(Cat(DOT, DIGITS)))
  const DURATION := Cat(DECIMAL, Alt(Lit("ms"), Lit("s")))

  /** `is_canonical_decimal`, split at the first dot. */
  predicate IsCanonicalDecimal(value: string) {
    var dot := IndexOf(value, '.');
    if dot < |value| then
      && value[..dot] != "" && value[dot + 1..] != ""
      && AllDigits(value[..dot]) && AllDigits(value[dot + 1..])
    else value != "" && AllDigits(value)
  }

  predicate DurationInBounds(value: Option<real>, multiplier: real) {
    value.Some? && 0.0 <= value.value * multiplier <= 2000.0
  }

  /** `is_safe_duration`: the longer suffix is tried first. */
  predicate HostDuration(value: string, number: string -> Option<real>) {
    if EndsWith(value, "ms") then
      var text := value[..|value| - 2];
      IsCanonicalDecimal(text) && DurationInBounds(number(text), 1.0)
    else if EndsWith(value, "s") then
      var text := value[..|value| - 1];
      IsCanonicalDecimal(text) && DurationInBounds(number(text), 1000.0)
    else false
  }

  /** The two groups of the expression: where the number ends. */
  ghost predicate DurationCaptures(value: string, end: int) {
    0 <= end <= |value| && Matches(DECIMAL, value[..end]) && Matches(Alt(Lit("ms"), Lit("s")), value[end..])
  }

  ghost predicate ContractDuration(value: string, number: string -> Option<real>) {
    && !UnsafeCss(value) && Matches(DURATION, value)
    && exists end ::
         && DurationCaptures(value, end) && number(value[..end]).Some?
         && var milliseconds := if value[end..] == "s" then number(value[..end]).value * 1000.0
            else number(value[..end]).value;
            milliseconds >= 0.0 && milliseconds <= 2000.0
  }

  lemma DecimalMatches(s: string)
    ensures Matches(DECIMAL, s) <==> IsCanonicalDecimal(s)
  {
    hide Matches, Run, IndexOf;
    var run := Run(s, Digit);
    assert s[..|s|] == s;
    CatEndsAtRun(DIGITS, Opt(Cat(DOT, DIGITS)), Digit, s);
    PlusMatches(Digit, s[..run]);
    OptMatches(Cat(DOT, DIGITS), s[run..]);
    ChrCat(Only('.'), DIGITS, s[run..]);
    if run < |s| {
      PlusMatches(Digit, s[run + 1..]);
      assert s[run..][1..] == s[run + 1..];
    }
    DigitsEndAtTheDot(s);
  }

  function DurationSplit(value: string): int {
    if EndsWith(value, "ms") then |value| - 2 else |value| - 1
  }

  lemma DurationSplits(value: string, end: int)
    ensures DurationCaptures(value, end) <==>
            EndsWith(value, "s") && end == DurationSplit(value) && IsCanonicalDecimal(value[..end])
  {
    hide Matches, Lit, IsCanonicalDecimal;
    if 0 <= end <= |value| {
      DecimalMatches(value[..end]);
      AltMatches(Lit("ms"), Lit("s"), value[end..]);
      LitMatches("ms", value[end..]);
      LitMatches("s", value[end..]);
      if Matches(DECIMAL, value[..end]) && value[end..] == "s" && end > 0 {
        MatchesStayOver(DECIMAL, NumberChar, value[..end]);
        assert In(value[..end][end - 1], NumberChar);
      }
    }
  }

  lemma DurationIsPlain(value: string)
    requires Matches(DURATION, value)
    ensures forall i :: 0 <= i < |value| ==> In(value[i], PlainChar)
  {
    hide Matches, Lit;
    LiteralIsPlain("ms");
    LiteralIsPlain("s");
    MatchesStayOver(DURATION, PlainChar, value);
  }

  lemma SuffixesNest(value: string)
    ensures EndsWith(value, "ms") ==> EndsWith(value, "s") && |value| >= 2 && value[|value| - 2..] == "ms"
    ensures EndsWith(value, "s") ==> |value| >= 1 && value[|value| - 1..] == "s"
  {
  }

  lemma CapturedDurationMatches(value: string, end: int)
    requires DurationCaptures(value, end)
    ensures Matches(DURATION, value) && !UnsafeCss(value)
  {
    hide Matches, Lit, UnsafeCss;
    CatJoins(DECIMAL, Alt(Lit("ms"), Lit("s")), value[..end], value[end..]);
    assert value[..end] + value[end..] == value;
    DurationIsPlain(value);
    PlainIsSafe(value);
  }

  /** Both sides accept the same durations, whatever value each decimal text has. */
  lemma {:induction false} DurationsAgree(value: string, number: string -> Option<real>)
    ensures HostDuration(value, number) <==> ContractDuration(value, number)
  {
    hide Matches, UnsafeCss, IsCanonicalDecimal, Lit, DurationCaptures, EndsWith;
    var end := DurationSplit(value);
    SuffixesNest(value);
    DurationSplits(value, end);
    if DurationCaptures(value, end) { CapturedDurationMatches(value, end); }
    forall other ensures DurationCaptures(value, other) ==> other == end { DurationSplits(value, other); }
  }

  // ---- colours ----

  predicate IsHexDigit(c: char) { '0' <= c <= '9' || 'a' <= c <= 'f' || 'A' <= c <= 'F' }

  predicate HashColor(value: string) {
    |value| in {4, 5, 7, 9} && value[0] == '#' && forall i :: 1 <= i < |value| ==> IsHexDigit(value[i])
  }

  /** `is_safe_color`. */
  predicate HostColor(value: string) {
    && IsSafeToken(value)
    && (|| value == "transparent" || value == "currentColor"
        || HashColor(value))
  }

  const HEX := Alt(Alt(Rep(LowerHex, 3), Rep(LowerHex, 4)), Cat(Rep(LowerHex, 6), Opt(Rep(LowerHex, 2))))
  const COLOR := Alt(Cat(Chr(Only('#')), HEX), Alt(Lit("transparent"), Lit("currentcolor")))

  /** The contract's expression ignores letter case, so it is read on the lowered text. */
  ghost predicate ContractColor(value: string) { Matches(COLOR, Lower(value)) }

  predicate AllIn(s: string, k: Class) { forall i :: 0 <= i < |s| ==> In(s[i], k) }

  lemma HexMatches(s: string)
    ensures Matches(HEX, s) <==> |s| in {3, 4, 6, 8} && AllIn(s, LowerHex)
  {
    hide Matches, Rep;
    var six, two := Rep(LowerHex, 6), Rep(LowerHex, 2);
    AltMatches(Alt(Rep(LowerHex, 3), Rep(LowerHex, 4)), Cat(six, Opt(two)), s);
    AltMatches(Rep(LowerHex, 3), Rep(LowerHex, 4), s);
    RepMatches(LowerHex, 3, s);
    RepMatches(LowerHex, 4, s);
    if Matches(Cat(six, Opt(two)), s) {
      var i := CatParts(six, Opt(two), s);
      RepMatches(LowerHex, 6, s[..i]);
      OptMatches(two, s[i..]);
      RepMatches(LowerHex, 2, s[i..]);
      assert s == s[..i] + s[i..];
    }
    if |s| in {6, 8} && AllIn(s, LowerHex) {
      RepMatches(LowerHex, 6, s[..6]);
      RepMatches(LowerHex, 2, s[6..]);
      OptMatches(two, s[6..]);
      CatJoins(six, Opt(two), s[..6], s[6..]);
      assert s == s[..6] + s[6..];
    }
  }

  lemma ContractColorShape(value: string)
    ensures ContractColor(value) <==>
            HashColor(value) || Lower(value) == "transparent" || Lower(value) == "currentcolor"
  {
    hide Matches, Lit, Lower;
    var s := Lower(value);
    AltMatches(Cat(Chr(Only('#')), HEX), Alt(Lit("transparent"), Lit("currentcolor")), s);
    AltMatches(Lit("transparent"), Lit("currentcolor"), s);
    LitMatches("transparent", s);
    LitMatches("currentcolor", s);
    ChrCat(Only('#'), HEX, s);
    if s != "" {
      HexMatches(s[1..]);
      HexDigitsLower(value);
    }
  }

  lemma LowerHexChar(c: char)
    ensures In(LowerChar(c), LowerHex) <==> IsHexDigit(c)
  {
  }

  lemma HexDigitsLower(value: string)
    requires value != ""
    ensures AllIn(Lower(value)[1..], LowerHex) <==> forall i :: 1 <= i < |value| ==> IsHexDigit(value[i])
  {
    hide Lower, LowerChar, IsHexDigit, In;
    var s := Lower(value)[1..];
    forall i | 1 <= i < |value| ensures In(s[i - 1], LowerHex) <==> IsHexDigit(value[i]) {
      LowerHexChar(value[i]);
      assert s[i - 1] == Lower(value)[i] == LowerChar(value[i]);
    }
    if AllIn(s, LowerHex) {
      forall i | 1 <= i < |value| ensures IsHexDigit(value[i]) { assert In(s[i - 1], LowerHex); }
    }
    if forall i :: 1 <= i < |value| ==> IsHexDigit(value[i]) {
      forall i | 0 <= i < |s| ensures In(s[i], LowerHex) { assert IsHexDigit(value[i + 1]); }
    }
  }

  /** The contract takes the two colour words in any letter case, the host only as they are written;
      on every other text the two agree. */
  lemma {:induction false} ColorsAgreeButForLetterCase(value: string)
    ensures HostColor(value) <==>
            && ContractColor(value)
            && (HashColor(value) || value == "transparent" || value == "currentColor")
  {
    hide ContractColor, IsSafeToken, UnsafeCss, Lower;
    ContractColorShape(value);
    if HashColor(value) || value == "transparent" || value == "currentColor" {
      forall i | 0 <= i < |value| ensures Harmless(value[i]) {}
      HarmlessIsSafe(value);
    }
    assert Lower("transparent") == "transparent" && Lower("currentColor") == "currentcolor";
  }

  /** A colour word in capitals: a colour to the contract, none to the host. */
  lemma CapitalColorWord()
    ensures ContractColor("TRANSPARENT") && !HostColor("TRANSPARENT")
  {
    hide ContractColor, IsSafeToken, Lower;
    ContractColorShape("TRANSPARENT");
    assert Lower("TRANSPARENT") == "transparent";
  }
}
