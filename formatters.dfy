/**
 * The token estimator and cost calculator of the pricing table
 * (src/components/pricing/formatters.ts).
 *
 * A text may start with the tag `[TOKEN_MULTIPLIER:N]`; the estimate of such a
 * text is N times the estimate of what follows the tag.  Without a tag the
 * estimate is the larger of ceil(1.3 words + 0.5 specials + 0.3 digits) and
 * ceil(length / 4), computed here in exact rational arithmetic as
 * ceil((13 words + 5 specials + 3 digits) / 10).
 */
module Formatters {
  import opened Wrappers
  import opened Text
  import Seqs

  // ---------------------------------------------------------------------------
  // The multiplier tag
  // ---------------------------------------------------------------------------

  /** The fixed head of the tag. */
  const TagOpen: string := "[TOKEN_MULTIPLIER:"

  /** The tag that the conversation editor puts in front of a text. */
  function Tag(n: nat): string {
    TagOpen + NatToString(n) + "]"
  }

  /** The editor caps the user's multiplier at 1000 before tagging. */
  function MultiplierPrefixed(userMultiplier: nat, text: string): string {
    Tag(if userMultiplier < 1000 then userMultiplier else 1000) + text
  }

  /** Number of leading `\d` characters of `s`. */
  function LeadingDigits(s: string): (k: nat)
    ensures k <= |s|
    ensures forall i :: 0 <= i < k ==> IsDigit(s[i])
    ensures k < |s| ==> !IsDigit(s[k])
  {
    if s != [] && IsDigit(s[0]) then 1 + LeadingDigits(s[1..]) else 0
  }

  /** `^\[TOKEN_MULTIPLIER:(\d+)\]` matches `text` with `k` digits. */
  predicate TagMatch(text: string, k: nat) {
    && |TagOpen| + k < |text|
    && text[..|TagOpen|] == TagOpen
    && k >= 1
    && (forall i :: |TagOpen| <= i < |TagOpen| + k ==> IsDigit(text[i]))
    && text[|TagOpen| + k] == ']'
  }

  /** The multiplier and the remaining text when the tag matches at index 0. */
  function ParseTag(text: string): (r: Option<(nat, string)>)
    ensures r.Some? ==> |r.value.1| < |text| && r.value.1 == text[|text| - |r.value.1|..]
  {
    if |text| >= |TagOpen| && text[..|TagOpen|] == TagOpen then
      var rest := text[|TagOpen|..];
      var k := LeadingDigits(rest);
      if k >= 1 && k < |rest| && rest[k] == ']' then
        Some((DigitsValue(rest[..k]), rest[k + 1..]))
      else
        None
    else
      None
  }

  /** `ParseTag` finds a tag exactly when the regular expression matches, and
      then returns the digits' value and the text after the match. */
  lemma ParseTagIsRegexMatch(text: string)
    ensures ParseTag(text).None? <==> forall k: nat :: !TagMatch(text, k)
    ensures ParseTag(text).Some? ==> exists k: nat ::
      && TagMatch(text, k)
      && ParseTag(text).value.0 == DigitsValue(text[|TagOpen|..|TagOpen| + k])
      && ParseTag(text).value.1 == text[|TagOpen| + k + 1..]
  {
    TagMatchIsLeadingDigits(text);
    if |text| >= |TagOpen| && text[..|TagOpen|] == TagOpen {
      var rest := text[|TagOpen|..];
      var k := LeadingDigits(rest);
      if k >= 1 && k < |rest| && rest[k] == ']' {
        assert forall i :: |TagOpen| <= i < |TagOpen| + k ==> text[i] == rest[i - |TagOpen|];
        assert TagMatch(text, k);
        assert text[|TagOpen|..|TagOpen| + k] == rest[..k];
      }
    }
  }

  /** The only digit count with which the tag can match is the number of
      digits that follow its head. */
  lemma TagMatchIsLeadingDigits(text: string)
    ensures forall k: nat :: TagMatch(text, k) ==>
      && |text| >= |TagOpen|
      && k == LeadingDigits(text[|TagOpen|..])
      && k < |text[|TagOpen|..]| && text[|TagOpen|..][k] == ']'
  {
    forall k: nat | TagMatch(text, k)
      ensures k == LeadingDigits(text[|TagOpen|..])
    {
      var rest := text[|TagOpen|..];
      assert forall i :: 0 <= i < k ==> rest[i] == text[|TagOpen| + i];
      assert rest[k] == text[|TagOpen| + k];
      LeadingDigitsExact(rest, k);
    }
  }

  lemma LeadingDigitsExact(s: string, j: nat)
    requires j < |s| && !IsDigit(s[j])
    requires forall i :: 0 <= i < j ==> IsDigit(s[i])
    ensures LeadingDigits(s) == j
  {
  }

  lemma {:induction false} LeadingDigitsOfNumber(n: nat, rest: string)
    ensures LeadingDigits(NatToString(n) + "]" + rest) == |NatToString(n)|
  {
    var d := NatToString(n);
    LeadingDigitsPrefix(d, "]" + rest);
    assert d + "]" + rest == d + ("]" + rest);
  }

  lemma {:induction false} LeadingDigitsPrefix(d: string, rest: string)
    requires forall i :: 0 <= i < |d| ==> IsDigit(d[i])
    requires rest != [] && !IsDigit(rest[0])
    ensures LeadingDigits(d + rest) == |d|
  {
    if d != [] {
      assert (d + rest)[1..] == d[1..] + rest;
      LeadingDigitsPrefix(d[1..], rest);
    } else {
      assert d + rest == rest;
    }
  }

  /** Reading a tag back gives the multiplier and the text behind it. */
  lemma {:induction false} ParseTagRoundTrip(n: nat, rest: string)
    ensures ParseTag(Tag(n) + rest) == Some((n, rest))
  {
    var d := NatToString(n);
    var text := Tag(n) + rest;
    assert text == TagOpen + (d + "]" + rest);
    assert text[..|TagOpen|] == TagOpen;
    assert text[|TagOpen|..] == d + "]" + rest;
    LeadingDigitsOfNumber(n, rest);
    assert (d + "]" + rest)[..|d|] == d;
    assert (d + "]" + rest)[|d| + 1..] == rest;
    NatToStringRoundTrip(n);
  }

  /** Only a tag at index 0 counts: a text not starting with `[` has none. */
  lemma NoTagWithoutBracket(text: string)
    requires text == [] || text[0] != '['
    ensures ParseTag(text).None?
  {
  }

  // ---------------------------------------------------------------------------
  // Counting words, special characters and digits
  // ---------------------------------------------------------------------------

  /** The leading run of non-whitespace characters. */
  function Token(s: string): (t: string)
    ensures t <= s
    ensures forall i :: 0 <= i < |t| ==> !IsSpace(t[i])
    ensures |t| < |s| ==> IsSpace(s[|t|])
  {
    if s != [] && !IsSpace(s[0]) then [s[0]] + Token(s[1..]) else []
  }

  /** `s` without its leading run of whitespace. */
  function SkipSpaces(s: string): (r: string)
    ensures |r| <= |s| && r == s[|s| - |r|..]
    ensures r != [] ==> !IsSpace(r[0])
    ensures s != [] && IsSpace(s[0]) ==> |r| < |s|
  {
    if s != [] && IsSpace(s[0]) then SkipSpaces(s[1..]) else s
  }

  /** `s.split(/\s+/)`: the pieces between whitespace runs, including an empty
      first or last piece where `s` starts or ends with whitespace. */
  function SplitOnSpaces(s: string): (r: seq<string>)
    ensures r != []
    ensures forall i :: 0 <= i < |r| ==> forall j :: 0 <= j < |r[i]| ==> !IsSpace(r[i][j])
    decreases |s|
  {
    var t := Token(s);
    var rest := s[|t|..];
    if rest == [] then [t]
    else
      var tail := SplitOnSpaces(SkipSpaces(rest));
      PiecesWithoutSpaces(t, tail);
      [t] + tail
  }

  lemma PiecesWithoutSpaces(t: string, tail: seq<string>)
    requires forall j :: 0 <= j < |t| ==> !IsSpace(t[j])
    requires forall i :: 0 <= i < |tail| ==> forall j :: 0 <= j < |tail[i]| ==> !IsSpace(tail[i][j])
    ensures forall i :: 0 <= i < |[t] + tail| ==> forall j :: 0 <= j < |([t] + tail)[i]| ==> !IsSpace(([t] + tail)[i][j])
  {
    forall i | 0 <= i < |[t] + tail|
      ensures forall j :: 0 <= j < |([t] + tail)[i]| ==> !IsSpace(([t] + tail)[i][j])
    {
      if i > 0 {
        assert ([t] + tail)[i] == tail[i - 1];
      }
    }
  }

  predicate NonEmpty(p: string) { p != [] }

  /** `s.split(/\s+/).filter(Boolean).length`. */
  function WordCount(s: string): nat {
    |Seqs.Filter(SplitOnSpaces(s), NonEmpty)|
  }

  /** Independent definition of the number of words: the number of positions
      holding a non-whitespace character preceded by whitespace or by the
      start of the text, scanned left to right. */
  function WordStarts(s: string, afterSpace: bool): nat {
    if s == [] then 0
    else (if afterSpace && !IsSpace(s[0]) then 1 else 0) + WordStarts(s[1..], IsSpace(s[0]))
  }

  lemma {:induction false} WordStartsOverToken(s: string, afterSpace: bool)
    requires Token(s) != []
    ensures WordStarts(s, afterSpace) == (if afterSpace then 1 else 0) + WordStarts(s[|Token(s)|..], false)
  {
    var t := Token(s);
    if |t| > 1 {
      WordStartsOverToken(s[1..], false);
      assert Token(s[1..]) == t[1..];
      assert s[1..][|t| - 1..] == s[|t|..];
    } else {
      assert s[1..] == s[|t|..];
    }
  }

  lemma {:induction false} WordStartsOverSpaces(s: string, afterSpace: bool)
    requires s != [] && IsSpace(s[0])
    ensures WordStarts(s, afterSpace) == WordStarts(SkipSpaces(s), true)
  {
    if s[1..] != [] && IsSpace(s[1..][0]) {
      WordStartsOverSpaces(s[1..], true);
    }
  }

  /** Splitting on whitespace and dropping empty pieces counts the word starts. */
  lemma {:induction false} WordCountIsWordStarts(s: string)
    ensures WordCount(s) == WordStarts(s, true)
    decreases |s|
  {
    var t := Token(s);
    var rest := s[|t|..];
    var pieces := SplitOnSpaces(s);
    if rest == [] {
      assert pieces == [t];
      assert Seqs.Filter([t], NonEmpty) == (if t != [] then [t] else []) + Seqs.Filter([], NonEmpty);
      if t != [] {
        WordStartsOverToken(s, true);
      } else {
        assert s == [];
      }
    } else {
      var next := SkipSpaces(rest);
      assert pieces == [t] + SplitOnSpaces(next);
      Seqs.FilterConcat([t], SplitOnSpaces(next), NonEmpty);
      assert Seqs.Filter([t], NonEmpty) == (if t != [] then [t] else []) + Seqs.Filter([], NonEmpty);
      WordCountIsWordStarts(next);
      WordStartsOverSpaces(rest, t == []);
      if t != [] {
        WordStartsOverToken(s, true);
      } else {
        assert rest == s;
      }
    }
  }

  /** The characters of `[.,!?;:'"()\[\]{}]`. */
  predicate IsSpecial(c: char) {
    c in {'.', ',', '!', '?', ';', ':', '\'', '"', '(', ')', '[', ']', '{', '}'}
  }

  function CountSpecials(s: string): nat {
    if s == [] then 0 else (if IsSpecial(s[0]) then 1 else 0) + CountSpecials(s[1..])
  }

  function CountDigits(s: string): nat {
    if s == [] then 0 else (if IsDigit(s[0]) then 1 else 0) + CountDigits(s[1..])
  }

  // ---------------------------------------------------------------------------
  // The estimate
  // ---------------------------------------------------------------------------

  /** `Math.ceil(a / b)` for naturals. */
  function CeilDiv(a: nat, b: nat): (r: nat)
    requires b > 0
    ensures r * b >= a
    ensures r == 0 || (r - 1) * b < a
  {
    (a + b - 1) / b
  }

  function Max(a: nat, b: nat): (r: nat)
    ensures r >= a && r >= b && (r == a || r == b)
  {
    if a >= b then a else b
  }

  /** max(ceil(1.3 words + 0.5 specials + 0.3 digits), ceil(length / 4)). */
  function Formula(words: nat, specials: nat, digits: nat, length: nat): (r: nat)
    ensures 10 * r >= 13 * words + 5 * specials + 3 * digits && 4 * r >= length
    ensures forall n: nat :: n < r ==> 10 * n < 13 * words + 5 * specials + 3 * digits || 4 * n < length
  {
    Max(CeilDiv(13 * words + 5 * specials + 3 * digits, 10), CeilDiv(length, 4))
  }

  /** The estimate of a text without a tag. */
  function BaseEstimate(s: string): (r: nat)
    ensures 10 * r >= 13 * WordCount(s) + 5 * CountSpecials(s) + 3 * CountDigits(s)
    ensures 4 * r >= Text.Utf16Length(s) >= |s|
  {
    Formula(WordCount(s), CountSpecials(s), CountDigits(s), Text.Utf16Length(s))
  }

  /** `estimateTokenCount`. */
  function EstimateTokenCount(text: string): (r: nat)
    ensures text == "" ==> r == 0
    ensures ParseTag(text).None? ==> r * 4 >= Text.Utf16Length(text) >= |text|
  {
    if text == "" then 0
    else
      match ParseTag(text)
      case None => BaseEstimate(text)
      case Some((multiplier, cleanText)) =>
        Times(BaseEstimate(cleanText), multiplier)
  }

  /** Product of naturals, kept apart so that the solver sees it only where it is needed. */
  function Times(a: nat, b: nat): nat { a * b }

  /** Without a tag the estimate is the stated formula, with words counted as
      maximal non-whitespace runs. */
  lemma EstimateWithoutTag(text: string)
    requires ParseTag(text).None?
    ensures EstimateTokenCount(text) ==
      Formula(WordStarts(text, true), CountSpecials(text), CountDigits(text), Text.Utf16Length(text))
  {
    WordCountIsWordStarts(text);
    if text == "" {
      BaseEstimateEmpty();
    }
  }

  lemma BaseEstimateEmpty()
    ensures BaseEstimate("") == 0
  {
    assert SplitOnSpaces("") == [""];
    assert Seqs.Filter([""], NonEmpty) == [];
  }

  /** A tagged text counts N times the text behind the tag, even when that is empty. */
  lemma EstimateWithTag(n: nat, rest: string)
    ensures EstimateTokenCount(Tag(n) + rest) == Times(BaseEstimate(rest), n)
  {
    ParseTagRoundTrip(n, rest);
  }

  /** The multiplier law: when the text behind the tag has no tag of its own,
      the count is N times its count. */
  lemma MultiplierLaw(n: nat, rest: string)
    requires ParseTag(rest).None?
    ensures EstimateTokenCount(Tag(n) + rest) == n * EstimateTokenCount(rest)
  {
    EstimateWithTag(n, rest);
    if rest == "" {
      BaseEstimateEmpty();
    }
    var e := EstimateTokenCount(rest);
    assert EstimateTokenCount(Tag(n) + rest) == Times(e, n);
    TimesCommutes(e, n);
  }

  lemma TimesCommutes(a: nat, b: nat)
    ensures Times(a, b) == b * a
  {
  }

  /** What the conversation editor sends counts min(multiplier, 1000) times the text. */
  lemma EditorPrefixLaw(userMultiplier: nat, text: string)
    requires ParseTag(text).None?
    ensures EstimateTokenCount(MultiplierPrefixed(userMultiplier, text)) ==
      (if userMultiplier < 1000 then userMultiplier else 1000) * EstimateTokenCount(text)
  {
    MultiplierLaw(if userMultiplier < 1000 then userMultiplier else 1000, text);
  }

  lemma {:induction false} WordStartsConcat(a: string, b: string, afterSpace: bool)
    ensures WordStarts(a + b, afterSpace)
         == WordStarts(a, afterSpace) + WordStarts(b, if a == [] then afterSpace else IsSpace(a[|a| - 1]))
  {
    if a == [] {
      assert a + b == b;
    } else {
      assert (a + b)[1..] == a[1..] + b;
      WordStartsConcat(a[1..], b, IsSpace(a[0]));
    }
  }

  lemma {:induction false} CountsConcat(a: string, b: string)
    ensures CountSpecials(a + b) == CountSpecials(a) + CountSpecials(b)
    ensures CountDigits(a + b) == CountDigits(a) + CountDigits(b)
  {
    if a == [] {
      assert a + b == b;
    } else {
      assert (a + b)[1..] == a[1..] + b;
      CountsConcat(a[1..], b);
    }
  }

  /** The positions where a word starts: a non-whitespace character at the
      start of the text or after whitespace. */
  function WordStartPositions(s: string): set<int> {
    set i | 0 <= i < |s| && WordStartAt(s, i)
  }

  predicate WordStartAt(s: string, i: int)
    requires 0 <= i < |s|
  {
    !IsSpace(s[i]) && (i == 0 || IsSpace(s[i - 1]))
  }

  /** The positions `/[.,!?;:'"()\[\]{}]/g` matches. */
  function SpecialPositions(s: string): set<int> {
    set i | 0 <= i < |s| && IsSpecial(s[i])
  }

  /** The positions `/\d/g` matches. */
  function DigitPositions(s: string): set<int> {
    set i | 0 <= i < |s| && IsDigit(s[i])
  }

  lemma {:induction false} WordStartsOfPrefix(s: string, n: nat)
    requires n <= |s|
    ensures WordStarts(s[..n], true) == |set i | 0 <= i < n && WordStartAt(s, i)|
  {
    if n > 0 {
      WordStartsOfPrefix(s, n - 1);
      assert s[..n] == s[..n - 1] + [s[n - 1]];
      WordStartsSnoc(s[..n - 1], s[n - 1]);
      WordStartSetSnoc(s, n);
    }
  }

  lemma WordStartSetSnoc(s: string, n: nat)
    requires 0 < n <= |s|
    ensures var w0 := set i | 0 <= i < n - 1 && WordStartAt(s, i);
            (set i | 0 <= i < n && WordStartAt(s, i)) == if WordStartAt(s, n - 1) then w0 + {n - 1} else w0
  {
    var w0 := set i | 0 <= i < n - 1 && WordStartAt(s, i);
    var w := set i | 0 <= i < n && WordStartAt(s, i);
    forall i | i in w
      ensures i in w0 || (i == n - 1 && WordStartAt(s, n - 1))
    {
    }
  }

  /** One more character adds a word start when it is not whitespace and
      follows whitespace or the start of the text. */
  lemma WordStartsSnoc(a: string, c: char)
    ensures WordStarts(a + [c], true)
         == WordStarts(a, true) + (if !IsSpace(c) && (a == [] || IsSpace(a[|a| - 1])) then 1 else 0)
  {
    WordStartsConcat(a, [c], true);
    assert [c][1..] == [];
  }

  lemma {:induction false} SpecialsOfPrefix(s: string, n: nat)
    requires n <= |s|
    ensures CountSpecials(s[..n]) == |set i | 0 <= i < n && IsSpecial(s[i])|
  {
    if n > 0 {
      SpecialsOfPrefix(s, n - 1);
      assert s[..n] == s[..n - 1] + [s[n - 1]];
      CountsConcat(s[..n - 1], [s[n - 1]]);
      var p0 := set i | 0 <= i < n - 1 && IsSpecial(s[i]);
      assert (set i | 0 <= i < n && IsSpecial(s[i]))
          == if IsSpecial(s[n - 1]) then p0 + {n - 1} else p0;
    }
  }

  lemma {:induction false} DigitsOfPrefix(s: string, n: nat)
    requires n <= |s|
    ensures CountDigits(s[..n]) == |set i | 0 <= i < n && IsDigit(s[i])|
  {
    if n > 0 {
      DigitsOfPrefix(s, n - 1);
      assert s[..n] == s[..n - 1] + [s[n - 1]];
      CountsConcat(s[..n - 1], [s[n - 1]]);
      var d0 := set i | 0 <= i < n - 1 && IsDigit(s[i]);
      assert (set i | 0 <= i < n && IsDigit(s[i]))
          == if IsDigit(s[n - 1]) then d0 + {n - 1} else d0;
    }
  }

  /** The three counts are the sizes of the three position sets. */
  lemma CountsArePositions(s: string)
    ensures WordCount(s) == WordStarts(s, true) == |WordStartPositions(s)|
    ensures CountSpecials(s) == |SpecialPositions(s)|
    ensures CountDigits(s) == |DigitPositions(s)|
  {
    WordCountIsWordStarts(s);
    assert s[..|s|] == s;
    WordStartsOfPrefix(s, |s|);
    SpecialsOfPrefix(s, |s|);
    DigitsOfPrefix(s, |s|);
  }

  /** The first sample sentence, written in two pieces. */
  const SimpleMessage: string := FirstPiece + SecondPiece
  const FirstPiece: string := "This is a "
  const SecondPiece: string := "simple message."

  /** The second sample sentence, written in pieces. */
  const SpecialSentence: string :=
    "Hello, world! " + "This is a test " + "with numbers (123) " + "and some \"special\" characters."

  /** "This is a simple message." counts 7: strictly between 4 and 10. */
  lemma SimpleMessageEstimate()
    ensures EstimateTokenCount(SimpleMessage) == 7
  {
    NoTagWithoutBracket(SimpleMessage);
    SimpleMessageLength();
    EstimateWithoutTag(SimpleMessage);
    SimpleMessageCounts();
    assert CeilDiv(13 * 5 + 5 * 1 + 3 * 0, 10) == 7;
    assert CeilDiv(25, 4) == 7;
  }

  /** The sentence is 25 characters of the Basic Multilingual Plane. */
  lemma SimpleMessageLength()
    ensures Text.Utf16Length(SimpleMessage) == 25
  {
    var s := SimpleMessage;
    assert |s| == 25;
    assert forall i :: 0 <= i < |s| ==> s[i] as int < 0x10000;
    Text.Utf16LengthAtLeast(s);
  }

  /** Five words, one special character and no digits in the first sentence. */
  lemma SimpleMessageCounts()
    ensures WordStarts(SimpleMessage, true) == 5
    ensures CountSpecials(SimpleMessage) == 1 && CountDigits(SimpleMessage) == 0
  {
    FirstPieceCounts();
    SecondPieceCounts();
    WordStartsConcat(FirstPiece, SecondPiece, true);
    CountsConcat(FirstPiece, SecondPiece);
  }

  lemma FirstPieceCounts()
    ensures WordStarts(FirstPiece, true) == 3
    ensures CountSpecials(FirstPiece) == 0 && CountDigits(FirstPiece) == 0
  {
    FirstPieceSets();
    CountsArePositions(FirstPiece);
  }

  lemma SecondPieceCounts()
    ensures WordStarts(SecondPiece, true) == 2
    ensures CountSpecials(SecondPiece) == 1 && CountDigits(SecondPiece) == 0
  {
    SecondPieceSets();
    CountsArePositions(SecondPiece);
  }

  lemma FirstPieceSets()
    ensures |WordStartPositions(FirstPiece)| == 3
    ensures |SpecialPositions(FirstPiece)| == 0 && |DigitPositions(FirstPiece)| == 0
  {
    assert WordStartPositions(FirstPiece) == {0, 5, 8};
    assert SpecialPositions(FirstPiece) == {} && DigitPositions(FirstPiece) == {};
  }

  lemma SecondPieceSets()
    ensures |WordStartPositions(SecondPiece)| == 2
    ensures |SpecialPositions(SecondPiece)| == 1 && |DigitPositions(SecondPiece)| == 0
  {
    assert WordStartPositions(SecondPiece) == {0, 7};
    assert SpecialPositions(SecondPiece) == {14} && DigitPositions(SecondPiece) == {};
  }

  /** The sentence with punctuation and digits counts above 15: its 78
      characters alone force an estimate of at least 20. */
  lemma SpecialSentenceEstimate()
    ensures EstimateTokenCount(SpecialSentence) >= 20
  {
    NoTagWithoutBracket(SpecialSentence);
    assert |SpecialSentence| == 78;
    Text.Utf16LengthAtLeast(SpecialSentence);
    assert CeilDiv(78, 4) == 20;
  }

  /** Eight emoji count 4: each is two UTF-16 code units, so the length is
      16, while the one word alone gives only 2. */
  lemma EmojiEstimate()
    ensures EstimateTokenCount(EightEmoji) == 4
  {
    var t := EightEmoji;
    NoTagWithoutBracket(t);
    EstimateWithoutTag(t);
    EmojiLength();
    EmojiCounts();
    assert Formula(1, 0, 0, 16) == 4 by {
      assert CeilDiv(13, 10) == 2 && CeilDiv(16, 4) == 4;
    }
  }

  /** Each of the eight emoji lies outside the Basic Multilingual Plane. */
  lemma EmojiLength()
    ensures Text.Utf16Length(EightEmoji) == 16
  {
    var t := EightEmoji;
    assert |t| == 8;
    assert forall i :: 0 <= i < |t| ==> t[i] == '\U{1F600}';
    Text.Utf16LengthAstral(t);
  }

  lemma EmojiCounts()
    ensures WordStarts(EightEmoji, true) == 1
    ensures CountSpecials(EightEmoji) == 0 && CountDigits(EightEmoji) == 0
  {
    assert WordStartPositions(EightEmoji) == {0};
    assert SpecialPositions(EightEmoji) == {} && DigitPositions(EightEmoji) == {};
    CountsArePositions(EightEmoji);
  }

  const EightEmoji: string := "\U{1F600}\U{1F600}\U{1F600}\U{1F600}\U{1F600}\U{1F600}\U{1F600}\U{1F600}"

  // ---------------------------------------------------------------------------
  // Costs
  // ---------------------------------------------------------------------------

  /** The cost of `tokens` tokens at a price per million tokens. */
  function CostAt(pricePerMillion: real, tokens: nat): real {
    (pricePerMillion / 1000000.0) * tokens as real
  }

  /** The cost is the price per token times the tokens. */
  lemma CostAtMeaning(pricePerMillion: real, tokens: nat)
    ensures CostAt(pricePerMillion, tokens) * 1000000.0 == pricePerMillion * tokens as real
    ensures pricePerMillion >= 0.0 ==> CostAt(pricePerMillion, tokens) >= 0.0
    ensures CostAt(pricePerMillion, 0) == 0.0
  {
  }

  lemma CostAtScales(pricePerMillion: real, tokens: nat, n: nat)
    ensures CostAt(pricePerMillion, Times(tokens, n)) == n as real * CostAt(pricePerMillion, tokens)
  {
    var x := pricePerMillion / 1000000.0;
    assert Times(tokens, n) as real == tokens as real * n as real;
    assert x * (tokens as real * n as real) == n as real * (x * tokens as real);
  }

  /** `calculateInputCost`. */
  function CalculateInputCost(text: string, pricePerMillion: Option<real>): (r: Option<real>)
    ensures r.None? <==> pricePerMillion.None?
    ensures r.Some? ==> r.value == CostAt(pricePerMillion.value, EstimateTokenCount(text))
  {
    match pricePerMillion
    case None => None
    case Some(p) => Some(CostAt(p, EstimateTokenCount(text)))
  }

  /** `calculateOutputCost`, written separately in the source with the same body. */
  function CalculateOutputCost(text: string, pricePerMillion: Option<real>): (r: Option<real>)
    ensures r.None? <==> pricePerMillion.None?
    ensures r.Some? ==> r.value == CostAt(pricePerMillion.value, EstimateTokenCount(text))
  {
    match pricePerMillion
    case None => None
    case Some(p) => Some(CostAt(p, EstimateTokenCount(text)))
  }

  /** At a defined price, a million times the cost of a text is the price
      times its estimated tokens, on either leg; a non-negative price never
      gives a negative cost, and empty text costs nothing. */
  lemma CostMeaning(text: string, price: real)
    ensures CalculateInputCost(text, Some(price)).value * 1000000.0 == price * EstimateTokenCount(text) as real
    ensures CalculateOutputCost(text, Some(price)).value * 1000000.0 == price * EstimateTokenCount(text) as real
    ensures price >= 0.0 ==> CalculateInputCost(text, Some(price)).value >= 0.0 && CalculateOutputCost(text, Some(price)).value >= 0.0
    ensures text == "" ==> CalculateInputCost(text, Some(price)).value == 0.0 == CalculateOutputCost(text, Some(price)).value
  {
    CostAtMeaning(price, EstimateTokenCount(text));
  }

  /** Empty text costs nothing at any price. */
  lemma EmptyTextCostsNothing(price: real)
    ensures CalculateInputCost("", Some(price)) == Some(0.0)
    ensures CalculateOutputCost("", Some(price)) == Some(0.0)
  {
    CostMeaning("", price);
  }

  /** A tagged text costs N times what the text behind the tag costs, on
      either leg. */
  lemma CostScalesWithMultiplier(n: nat, rest: string, price: real, cost: real)
    requires ParseTag(rest).None?
    requires CalculateInputCost(rest, Some(price)) == Some(cost)
    ensures CalculateInputCost(Tag(n) + rest, Some(price)) == Some(n as real * cost)
    ensures CalculateOutputCost(Tag(n) + rest, Some(price)) == Some(n as real * cost)
  {
    var tokens := EstimateTokenCount(rest);
    assert EstimateTokenCount(Tag(n) + rest) == Times(tokens, n) by {
      MultiplierLaw(n, rest);
      TimesCommutes(tokens, n);
    }
    ScaledCost(Tag(n) + rest, rest, n, price, cost);
  }

  /** A text estimated at N times the tokens of another costs N times as
      much, on either leg. */
  lemma ScaledCost(text: string, plain: string, n: nat, price: real, cost: real)
    requires EstimateTokenCount(text) == Times(EstimateTokenCount(plain), n)
    requires CalculateInputCost(plain, Some(price)) == Some(cost)
    ensures CalculateInputCost(text, Some(price)) == Some(n as real * cost)
    ensures CalculateOutputCost(text, Some(price)) == Some(n as real * cost)
  {
    var tokens := EstimateTokenCount(plain);
    CostAtScales(price, tokens, n);
    SameScale(n, CostAt(price, tokens), cost, CostAt(price, Times(tokens, n)), CostAt(price, EstimateTokenCount(text)));
  }

  /** Equal factors give equal products. */
  lemma SameScale(n: nat, a: real, b: real, x: real, y: real)
    requires x == n as real * a && a == b && x == y
    ensures y == n as real * b
  {
  }

  /** The three figures of the cost summary. */
  datatype CostSummary = CostSummary(total: Option<real>, inputCost: Option<real>, outputCost: Option<real>)

  /** `calculateTotalCost`. */
  function CalculateTotalCost(inputText: string, outputText: string,
                              inputPrice: Option<real>, outputPrice: Option<real>): (r: CostSummary)
    ensures r.inputCost == CalculateInputCost(inputText, inputPrice)
    ensures r.outputCost == CalculateOutputCost(outputText, outputPrice)
    ensures r.total.Some? <==> inputPrice.Some? && outputPrice.Some?
    ensures r.total.Some? ==> r.total.value == r.inputCost.value + r.outputCost.value
  {
    var inputCost := CalculateInputCost(inputText, inputPrice);
    var outputCost := CalculateOutputCost(outputText, outputPrice);
    var total := if inputCost.Some? && outputCost.Some? then Some(inputCost.value + outputCost.value) else None;
    CostSummary(total, inputCost, outputCost)
  }

  // ---------------------------------------------------------------------------
  // Price display
  // ---------------------------------------------------------------------------

  /** Which of the four displays `formatPrice` produces; the digits themselves
      (`toFixed`) are not modelled. */
  datatype PriceLabel =
    | NotAvailable                  // 'N/A'
    | SuspiciouslyLow(price: real)  // 'ERROR: $… ⚠️'
    | UnusuallyHigh(price: real)    // 'CHECK: $… ⚠️'
    | PerMillion(price: real)       // '$…', the stored value unscaled

  function FormatPrice(pricePerMillion: Option<real>): (r: PriceLabel)
    ensures r == NotAvailable <==> pricePerMillion.None?
    ensures r.SuspiciouslyLow? <==> pricePerMillion.Some? && 0.0 < pricePerMillion.value < 0.001
    ensures r.UnusuallyHigh? <==> pricePerMillion.Some? && pricePerMillion.value > 500.0
    ensures !r.NotAvailable? ==> r.price == pricePerMillion.value
  {
    match pricePerMillion
    case None => NotAvailable
    case Some(p) =>
      if p > 0.0 && p < 0.001 then SuspiciouslyLow(p)
      else if p > 500.0 then UnusuallyHigh(p)
      else PerMillion(p)
  }

  /** 37.5 is displayed as 37.5 per million, never divided by 1000. */
  lemma GeminiPriceUnscaled()
    ensures FormatPrice(Some(37.5)) == PerMillion(37.5)
  {
  }
}
