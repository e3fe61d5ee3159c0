/** The string logic of the story page's script: the character-name
    filter, the "API calls left" text arithmetic, the quota-warning test and
    the story prompt. The DOM reads and writes around them are not modelled. */
module ClientUser {
  import opened Wrappers

  // ---------------------------------------------------------------------
  // validateCharacterName: input.value.replace(/[^A-Za-z\s]/g, "")

  /** JavaScript's `\s`: the white-space and line-terminator characters. */
  predicate IsJsSpace(c: char)
  {
    c == '\t' || c == '\n' || c == '\U{B}' || c == '\U{C}' || c == '\r' || c == ' '
    || c == '\U{A0}' || c == '\U{1680}' || ('\U{2000}' <= c <= '\U{200A}')
    || c == '\U{2028}' || c == '\U{2029}' || c == '\U{202F}' || c == '\U{205F}'
    || c == '\U{3000}' || c == '\U{FEFF}'
  }

  /** The characters `[A-Za-z\s]` matches. */
  predicate IsNameChar(c: char)
  {
    ('A' <= c <= 'Z') || ('a' <= c <= 'z') || IsJsSpace(c)
  }

  /** The filtered name: every other character removed. It holds only name
      characters and is never longer than the input. */
  function ValidateCharacterName(s: string): (r: string)
    ensures |r| <= |s|
    ensures forall i | 0 <= i < |r| :: IsNameChar(r[i])
  {
    if s == [] then []
    else if IsNameChar(s[0]) then [s[0]] + ValidateCharacterName(s[1..])
    else ValidateCharacterName(s[1..])
  }

  /** Each name character occurs in the filtered name exactly as often as in
      the input; no other character occurs at all. */
  lemma {:induction false} FilterCounts(s: string, c: char)
    ensures multiset(ValidateCharacterName(s))[c] == if IsNameChar(c) then multiset(s)[c] else 0
  {
    if s != [] {
      assert s == [s[0]] + s[1..];
      FilterCounts(s[1..], c);
    }
  }

  /** The filter works character by character, left to right: the result for
      a concatenation is the concatenation of the results, so kept characters
      keep their order and nothing is added. */
  lemma {:induction false} FilterDistributes(a: string, b: string)
    ensures ValidateCharacterName(a + b) == ValidateCharacterName(a) + ValidateCharacterName(b)
  {
    if a == [] {
      assert a + b == b;
    } else {
      var ab := a + b;
      assert ab[0] == a[0] && ab[1..] == a[1..] + b;
      FilterDistributes(a[1..], b);
      if IsNameChar(a[0]) {
        assert ValidateCharacterName(ab) == [a[0]] + ValidateCharacterName(ab[1..]);
        assert ValidateCharacterName(a) == [a[0]] + ValidateCharacterName(a[1..]);
      } else {
        assert ValidateCharacterName(ab) == ValidateCharacterName(ab[1..]);
      }
    }
  }

  /** A name made only of letters and white space passes unchanged. */
  lemma {:induction false} FilterKeepsNames(s: string)
    requires forall i | 0 <= i < |s| :: IsNameChar(s[i])
    ensures ValidateCharacterName(s) == s
  {
    if s != [] {
      FilterKeepsNames(s[1..]);
    }
  }

  /** Filtering twice is filtering once. */
  lemma FilterIdempotent(s: string)
    ensures ValidateCharacterName(ValidateCharacterName(s)) == ValidateCharacterName(s)
  {
    FilterKeepsNames(ValidateCharacterName(s));
  }

  // ---------------------------------------------------------------------
  // updateAPICallsLeft: parseInt(text.match(/\d+/)[0], 10) - 1

  predicate IsDigit(c: char)
  {
    '0' <= c <= '9'
  }

  predicate AllDigits(s: string)
  {
    forall i | 0 <= i < |s| :: IsDigit(s[i])
  }

  /** Where the first digit of `s` is, if any. */
  function FirstDigit(s: string): (k: Option<nat>)
    ensures k.None? <==> forall i | 0 <= i < |s| :: !IsDigit(s[i])
    ensures k.Some? ==> k.value < |s| && IsDigit(s[k.value]) && forall i | 0 <= i < k.value :: !IsDigit(s[i])
  {
    if s == [] then None
    else if IsDigit(s[0]) then Some(0)
    else match FirstDigit(s[1..])
      case None => None
      case Some(k) => Some(k + 1)
  }

  /** The longest prefix of `s` made of digits. */
  function DigitRun(s: string): (d: string)
    ensures d <= s && AllDigits(d)
    ensures |d| == |s| || !IsDigit(s[|d|])
  {
    if s == [] || !IsDigit(s[0]) then [] else [s[0]] + DigitRun(s[1..])
  }

  /** `s.match(/\d+/)?.[0]`: the first maximal run of digits. */
  function MatchDigits(s: string): (m: Option<string>)
    ensures m.None? <==> forall i | 0 <= i < |s| :: !IsDigit(s[i])
    ensures m.Some? ==> m.value != [] && AllDigits(m.value)
    ensures m.Some? ==> exists k | 0 <= k <= |s| - |m.value| :: LeftmostRun(s, k, m.value)
  {
    match FirstDigit(s)
    case None => None
    case Some(k) =>
      var d := DigitRun(s[k..]);
      assert s[k..k + |d|] == d;
      assert LeftmostRun(s, k, d);
      Some(d)
  }

  /** `run` occurs in `s` at `k`, no digit comes before it, and the digit
      run cannot be extended to the right. */
  predicate LeftmostRun(s: string, k: int, run: string)
    requires 0 <= k <= |s| - |run|
  {
    && s[k..k + |run|] == run
    && (forall i | 0 <= i < k :: !IsDigit(s[i]))
    && (k + |run| == |s| || !IsDigit(s[k + |run|]))
  }

  function DigitValue(c: char): nat
    requires IsDigit(c)
  {
    (c - '0') as nat
  }

  function DigitChar(n: nat): (c: char)
    requires n < 10
    ensures IsDigit(c) && DigitValue(c) == n
  {
    ('0' as int + n) as char
  }

  /** `parseInt(digits, 10)`. */
  function ParseDecimal(digits: string): nat
    requires AllDigits(digits)
  {
    if digits == [] then 0
    else ParseDecimal(digits[..|digits| - 1]) * 10 + DigitValue(digits[|digits| - 1])
  }

  /** The decimal text of a natural number. */
  function ShowNat(n: nat): (s: string)
    ensures s != [] && AllDigits(s)
  {
    if n < 10 then [DigitChar(n)] else ShowNat(n / 10) + [DigitChar(n % 10)]
  }

  /** `${n}` for an integer. */
  function ShowInt(n: int): string
  {
    if n < 0 then "-" + ShowNat(-n) else ShowNat(n)
  }

  /** Reading back the decimal text of a number gives the number. */
  lemma {:induction false} ParseShow(n: nat)
    ensures ParseDecimal(ShowNat(n)) == n
  {
    if n >= 10 {
      var s := ShowNat(n);
      assert s[..|s| - 1] == ShowNat(n / 10);
      ParseShow(n / 10);
    }
  }

  const ApiTextLabel := "API calls left: "

  /** The navbar text for a count, as `API calls left: ${apicalls}` renders it. */
  function ApiText(n: int): (t: string)
    ensures ApiTextLabel <= t
  {
    ApiTextLabel + ShowInt(n)
  }

  /** The new text `updateAPICallsLeft` writes, or `None` where it throws
      because the text holds no digit. */
  function UpdatedApiText(text: string): (r: Option<string>)
    ensures r.None? <==> forall i | 0 <= i < |text| :: !IsDigit(text[i])
    ensures r.Some? ==> ApiTextLabel <= r.value
  {
    match MatchDigits(text)
    case None => None
    case Some(digits) => Some(ApiText(ParseDecimal(digits) - 1))
  }

  /** Neither the label nor the label with a minus sign holds a digit. */
  lemma LabelHasNoDigit()
    ensures forall c | c in ApiTextLabel :: !IsDigit(c)
    ensures forall c | c in ApiTextLabel + "-" :: !IsDigit(c)
  {
  }

  /** The digits of a number written after text without digits are the first digit run. */
  lemma {:induction false} DigitsAfterLabel(prefix: string, n: nat)
    requires forall c | c in prefix :: !IsDigit(c)
    ensures MatchDigits(prefix + ShowNat(n)) == Some(ShowNat(n))
  {
    var s := prefix + ShowNat(n);
    var k := FirstDigit(s);
    assert IsDigit(s[|prefix|]);
    assert k == Some(|prefix|) by {
      forall i | 0 <= i < |prefix| ensures !IsDigit(s[i]) {
        assert s[i] == prefix[i];
      }
    }
    assert s[|prefix|..] == ShowNat(n);
    DigitRunOfDigits(ShowNat(n));
  }

  /** A string of digits is its own digit run. */
  lemma {:induction false} DigitRunOfDigits(s: string)
    requires AllDigits(s)
    ensures DigitRun(s) == s
  {
    if s != [] {
      DigitRunOfDigits(s[1..]);
    }
  }

  /** From a count of n the text goes to n - 1, with no floor: "API calls
      left: 0" becomes "API calls left: -1". */
  lemma ApiTextCountsDown(n: nat)
    ensures UpdatedApiText(ApiText(n)) == Some(ApiText(n - 1))
    ensures n == 0 ==> UpdatedApiText(ApiText(n)) == Some(ApiTextLabel + "-1")
  {
    LabelHasNoDigit();
    CountAfterPrefix(ApiTextLabel, n);
    if n == 0 {
      var m: int := n - 1;
      MinusOneText();
      assert m == -1;
      assert ShowInt(m) == "-1";
      assert ApiText(m) == ApiTextLabel + "-1";
    }
  }

  /** The text for a count of minus one. */
  lemma MinusOneText()
    ensures ShowInt(-1) == "-1"
  {
    assert DigitChar(1) == '1';
  }

  /** Digits after text without digits are read back as their number, and
      the text is rewritten for one less. */
  lemma CountAfterPrefix(prefix: string, n: nat)
    requires forall c | c in prefix :: !IsDigit(c)
    ensures UpdatedApiText(prefix + ShowNat(n)) == Some(ApiText(n - 1))
  {
    DigitsAfterLabel(prefix, n);
    ParseShow(n);
  }

  /** The minus sign is not a digit: from a negative count -n the text
      climbs back to n - 1, so "API calls left: -1" becomes "API calls left: 0". */
  lemma NegativeCountClimbsBack(n: nat)
    requires n > 0
    ensures UpdatedApiText(ApiText(-(n as int))) == Some(ApiText(n - 1))
  {
    LabelHasNoDigit();
    MinusSignBeforeDigits(n);
    CountAfterPrefix(ApiTextLabel + "-", n);
  }

  /** A negative count is written as the label, a minus sign, then digits. */
  lemma MinusSignBeforeDigits(n: nat)
    requires n > 0
    ensures ApiText(-(n as int)) == (ApiTextLabel + "-") + ShowNat(n)
  {
    assert ShowInt(-(n as int)) == "-" + ShowNat(n);
  }

  /** The text the navbar shows when the count is unknown holds no digit:
      updating it throws. */
  lemma UnknownCountThrows()
    ensures UpdatedApiText(ApiTextLabel + "undefined") == None
  {
    var s := ApiTextLabel + "undefined";
    assert forall c | c in s :: !IsDigit(c);
    assert forall i | 0 <= i < |s| :: !IsDigit(s[i]) by {
      forall i | 0 <= i < |s| ensures !IsDigit(s[i]) { assert s[i] in s; }
    }
  }

  // ---------------------------------------------------------------------
  // displayAPIWarningMessage: warn unless apicalls >= 0

  /** The values `apicalls` can hold on the page. */
  datatype PageCount = Undefined | Null | Number(n: int)

  /** `apicalls >= 0` under JavaScript's comparison: `undefined` converts to
      NaN, which compares false; `null` converts to 0. */
  predicate AtLeastZero(apicalls: PageCount)
  {
    match apicalls
    case Undefined => false
    case Null => true
    case Number(n) => n >= 0
  }

  /** The warning is shown iff the count is not `>= 0`. */
  function ShowsApiWarning(apicalls: PageCount): (warn: bool)
    ensures warn <==> apicalls.Undefined? || (apicalls.Number? && apicalls.n < 0)
  {
    !AtLeastZero(apicalls)
  }

  // ---------------------------------------------------------------------
  // The story prompt

  predicate IsUpper(c: char)
  {
    'A' <= c <= 'Z'
  }

  /** `toLowerCase`, on ASCII letters only. */
  function LowerChar(c: char): (l: char)
    ensures !IsUpper(l)
    ensures IsUpper(c) ==> l as int == c as int + 32
    ensures !IsUpper(c) ==> l == c
  {
    if IsUpper(c) then (c as int + 32) as char else c
  }

  function Lower(s: string): (r: string)
    ensures |r| == |s|
    ensures forall i | 0 <= i < |s| :: r[i] == LowerChar(s[i])
  {
    if s == [] then [] else [LowerChar(s[0])] + Lower(s[1..])
  }

  /** Lowercasing twice is lowercasing once. */
  lemma LowerIdempotent(s: string)
    ensures Lower(Lower(s)) == Lower(s)
  {
    assert forall i | 0 <= i < |s| :: LowerChar(LowerChar(s[i])) == LowerChar(s[i]);
  }

  /** A lowercased string holds no capital A. */
  lemma LowerHasNoCapitalA(s: string)
    ensures 'A' !in Lower(s)
  {
  }

  const PlotTwist := "Add an unexpected plot twist."

  const PromptOpening := "\n        Write a "

  // The closing text is cut into four short constants, each with its own
  // lemma below, so that the verifier checks it for a capital A piece by
  // piece instead of in one expensive step.
  const ClosingAsk := "\n        Can you please " + "return the story in this "
  const ClosingFormat := "json format please: { " + "\"title\": (string, title "
  const ClosingFields := "of the story), \"paragraphs\": " + "(array of strings for each "
  const ClosingEnd := "paragraph of the story) }" + "\n      "
  const PromptClosing := ClosingAsk + ClosingFormat + ClosingFields + ClosingEnd

  /** The text before the character name. */
  function PromptHead(genre: string, setting: string, tone: string): string
  {
    PromptOpening + Lower(tone) + " " + Lower(genre) + " story set in a "
    + Lower(setting) + ". The main character is "
  }

  /** The text after the character name. */
  function PromptTail(role: string, plotTwist: bool): string
  {
    ", who plays the role of a " + Lower(role) + ". "
    + (if plotTwist then PlotTwist else "") + PromptClosing
  }

  /** The prompt the story form sends: tone, genre, setting and role
      lowercased, the character name as typed. */
  function StoryPrompt(genre: string, characterName: string, role: string, setting: string,
                       tone: string, plotTwist: bool): (p: string)
    ensures var head := PromptHead(genre, setting, tone);
      |p| == |head| + |characterName| + |PromptTail(role, plotTwist)|
      && p[..|head|] == head
      && p[|head|..|head| + |characterName|] == characterName
    ensures PromptOpening <= p
  {
    PromptHead(genre, setting, tone) + characterName + PromptTail(role, plotTwist)
  }

  /** `t` occurs in `s`. */
  predicate Contains(s: string, t: string)
  {
    exists k | 0 <= k <= |s| - |t| :: OccursAt(s, t, k)
  }

  /** `t` occurs in `s` starting at index `k`. */
  predicate OccursAt(s: string, t: string, k: int)
    requires 0 <= k <= |s| - |t|
  {
    s[k..k + |t|] == t
  }

  /** The text before the name holds no capital A. */
  lemma HeadHasNoCapitalA(genre: string, setting: string, tone: string)
    ensures 'A' !in PromptHead(genre, setting, tone)
  {
    var t, g, st := Lower(tone), Lower(genre), Lower(setting);
    LowerHasNoCapitalA(tone);
    LowerHasNoCapitalA(genre);
    LowerHasNoCapitalA(setting);
    assert 'A' !in PromptOpening + t;
    assert 'A' !in PromptOpening + t + " " + g;
    assert 'A' !in PromptOpening + t + " " + g + " story set in a " + st;
  }

  /** Without the plot twist, the text after the name starts with a comma
      and holds no capital A. */
  lemma TailHasNoCapitalA(role: string)
    ensures PromptTail(role, false)[0] == ','
    ensures 'A' !in PromptTail(role, false)
  {
    var front := ", who plays the role of a " + Lower(role) + ". ";
    assert PromptTail(role, false) == front + PromptClosing;
    FrontHasNoCapitalA(role);
    ClosingHasNoCapitalA();
  }

  lemma FrontHasNoCapitalA(role: string)
    ensures 'A' !in ", who plays the role of a " + Lower(role) + ". "
  {
    LowerHasNoCapitalA(role);
  }

  lemma ClosingHasNoCapitalA()
    ensures 'A' !in PromptClosing
  {
    AskHasNoCapitalA();
    FormatHasNoCapitalA();
    FieldsHaveNoCapitalA();
    EndHasNoCapitalA();
  }

  lemma AskHasNoCapitalA()
    ensures forall i | 0 <= i < |ClosingAsk| :: ClosingAsk[i] != 'A'
  {
  }

  lemma FormatHasNoCapitalA()
    ensures forall i | 0 <= i < |ClosingFormat| :: ClosingFormat[i] != 'A'
  {
  }

  lemma FieldsHaveNoCapitalA()
    ensures forall i | 0 <= i < |ClosingFields| :: ClosingFields[i] != 'A'
  {
  }

  lemma EndHasNoCapitalA()
    ensures forall i | 0 <= i < |ClosingEnd| :: ClosingEnd[i] != 'A'
  {
  }

  /** The plot-twist sentence cannot straddle a name without full stops that
      sits between text without a capital A and a comma. */
  lemma {:induction false} NoTwistAroundName(head: string, name: string, tail: string)
    requires 'A' !in head && 'A' !in tail && '.' !in name
    requires tail != [] && tail[0] == ','
    ensures !Contains(head + name + tail, PlotTwist)
  {
    var s := head + name + tail;
    var a, b := |head|, |head| + |name|;
    assert |PlotTwist| == 29 && PlotTwist[0] == 'A' && PlotTwist[28] == '.' && ',' !in PlotTwist;
    forall k | 0 <= k <= |s| - |PlotTwist|
      ensures !OccursAt(s, PlotTwist, k)
    {
      var w := s[k..k + 29];
      if k < a {
        assert w[0] == s[k] == head[k];
      } else if k >= b {
        assert w[0] == s[k] == tail[k - b];
      } else if k + 28 < b {
        assert w[28] == s[k + 28] == name[k + 28 - a];
      } else {
        assert w[b - k] == s[b] == tail[0];
      }
    }
  }

  /** The prompt asks for a plot twist iff the box is checked, for any
      character name the filter lets through (one with no full stop). */
  lemma PlotTwistIffChecked(genre: string, characterName: string, role: string,
                            setting: string, tone: string, plotTwist: bool)
    requires '.' !in characterName
    ensures Contains(StoryPrompt(genre, characterName, role, setting, tone, plotTwist), PlotTwist) <==> plotTwist
  {
    var head := PromptHead(genre, setting, tone);
    var s := StoryPrompt(genre, characterName, role, setting, tone, plotTwist);
    if plotTwist {
      var pre := head + characterName + ", who plays the role of a " + Lower(role) + ". ";
      assert s == pre + PlotTwist + PromptClosing;
      assert OccursAt(s, PlotTwist, |pre|);
    } else {
      HeadHasNoCapitalA(genre, setting, tone);
      TailHasNoCapitalA(role);
      NoTwistAroundName(head, characterName, PromptTail(role, false));
    }
  }

  /** The character name goes in verbatim: different names, even names that
      differ only in case, give different prompts. */
  lemma NameVerbatim(genre: string, name1: string, name2: string, role: string,
                     setting: string, tone: string, plotTwist: bool)
    requires name1 != name2
    ensures StoryPrompt(genre, name1, role, setting, tone, plotTwist)
         != StoryPrompt(genre, name2, role, setting, tone, plotTwist)
  {
    var head, tail := PromptHead(genre, setting, tone), PromptTail(role, plotTwist);
    var s1, s2 := head + name1 + tail, head + name2 + tail;
    if |name1| != |name2| {
      assert |s1| != |s2|;
    } else {
      var i :| 0 <= i < |name1| && name1[i] != name2[i];
      assert s1[|head| + i] == name1[i];
      assert s2[|head| + i] == name2[i];
    }
  }

  /** Tone, genre, setting and role only matter up to the case of their
      ASCII letters: lowercasing them first changes nothing. */
  lemma FieldsCaseInsensitive(genre: string, characterName: string, role: string,
                              setting: string, tone: string, plotTwist: bool)
    ensures StoryPrompt(Lower(genre), characterName, Lower(role), Lower(setting), Lower(tone), plotTwist)
         == StoryPrompt(genre, characterName, role, setting, tone, plotTwist)
  {
    LowerIdempotent(genre);
    LowerIdempotent(role);
    LowerIdempotent(setting);
    LowerIdempotent(tone);
  }

  /** A validated character name contains no full stop. */
  lemma ValidatedNameHasNoStop(s: string)
    ensures '.' !in ValidateCharacterName(s)
  {
  }
}
