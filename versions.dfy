/**
 * The version analysis behind the latest-version filter of
 * `src/lib/dataService.ts`: the family name of a display name, the preview
 * test, the version number read from a name, and the comparator that
 * orders one family.
 *
 * Each regular expression is modelled by a predicate on text. A pattern
 * anchored with `$` and replaced once removes the longest suffix it
 * accepts (its leftmost match), which `CutTail` states.
 */
module Versions {
  import opened Wrappers
  import opened Types
  import Text

  /** Removing the leftmost suffix of `s` that `tail` accepts, as
      `s.replace(/…$/, '')` does. */
  function CutTail(s: string, tail: string -> bool): (r: string)
    ensures r <= s
    ensures forall j :: 0 <= j < |r| ==> !tail(s[j..])
    ensures r == s || tail(s[|r|..])
    ensures (exists j :: 0 <= j <= |s| && tail(s[j..])) ==> tail(s[|r|..])
  {
    CutFrom(s, tail, 0)
  }

  function CutFrom(s: string, tail: string -> bool, i: nat): (r: string)
    requires i <= |s|
    requires forall j :: 0 <= j < i ==> !tail(s[j..])
    ensures i <= |r| && r <= s
    ensures forall j :: 0 <= j < |r| ==> !tail(s[j..])
    ensures r == s || tail(s[|r|..])
    ensures (exists j :: i <= j <= |s| && tail(s[j..])) ==> tail(s[|r|..])
    decreases |s| - i
  {
    if tail(s[i..]) then s[..i]
    else if i == |s| then s
    else CutFrom(s, tail, i + 1)
  }

  /** `\d+\.?\d*\.?\d*` accepts exactly the texts that start with a digit
      and hold digits and at most two dots. */
  predicate DottedNumber(d: string) {
    && d != []
    && Text.IsDigit(d[0])
    && (forall i :: 0 <= i < |d| ==> Text.IsDigit(d[i]) || d[i] == '.')
    && Text.CountChar(d, '.') <= 2
  }

  /** `v?\d+\.?\d*\.?\d*`, case-insensitive. */
  predicate VersionCore(c: string) {
    DottedNumber(c) || (c != [] && (c[0] == 'v' || c[0] == 'V') && DottedNumber(c[1..]))
  }

  predicate AllSpace(s: string) {
    forall i :: 0 <= i < |s| ==> Text.IsSpace(s[i])
  }

  /** `\s*(v?\d+\.?\d*\.?\d*)\s*$`: spaces, a version core, spaces, then
      the end. */
  predicate VersionTail(t: string) {
    exists a, b :: 0 <= a <= b <= |t| && AllSpace(t[..a]) && VersionCore(t[a..b]) && AllSpace(t[b..])
  }

  const SuffixWords: seq<string> := ["preview", "beta", "alpha", "turbo", "instruct"]

  /** `\s*-\s*(preview|beta|alpha|turbo|instruct)\s*$`, case-insensitive. */
  predicate SuffixWordTail(t: string) {
    var u := Text.TrimStart(t);
    u != [] && u[0] == '-' && Text.Lower(Text.Trim(u[1..])) in SuffixWords
  }

  /** The characters JavaScript's `.` does not match. */
  predicate IsLineTerminator(c: char) {
    c == '\n' || c == '\r' || c == '\U{2028}' || c == '\U{2029}'
  }

  /** `\s*\(.*\)\s*$`: an opening parenthesis after the leading spaces, a
      closing one before the trailing spaces, and no line break between. */
  predicate ParentheticalTail(t: string) {
    var v := Text.TrimEnd(Text.TrimStart(t));
    && |v| >= 2 && v[0] == '(' && v[|v| - 1] == ')'
    && forall i :: 1 <= i < |v| - 1 ==> !IsLineTerminator(v[i])
  }

  /** `\s*:\s*free\s*$`, case-insensitive. */
  predicate FreeTail(t: string) {
    var u := Text.TrimStart(t);
    u != [] && u[0] == ':' && Text.Lower(Text.Trim(u[1..])) == "free"
  }

  /** `extractBaseModelName`: the lower-cased name without a trailing
      version, type suffix, parenthetical or `:free`, in that order. */
  function ExtractBaseModelName(displayName: string): (r: string)
    ensures |r| <= |displayName|
    ensures r != [] ==> !Text.IsSpace(r[0]) && !Text.IsSpace(r[|r| - 1])
    ensures NoUpper(r)
  {
    var name := Text.Lower(displayName);
    var a := CutTail(name, VersionTail);
    var b := CutTail(a, SuffixWordTail);
    var c := CutTail(b, ParentheticalTail);
    var d := CutTail(c, FreeTail);
    NoUpperPrefix(a, name);
    NoUpperPrefix(b, a);
    NoUpperPrefix(c, b);
    NoUpperPrefix(d, c);
    TrimNoUpper(d);
    Text.Trim(d)
  }

  predicate NoUpper(s: string) {
    forall i :: 0 <= i < |s| ==> !Text.IsUpper(s[i])
  }

  lemma NoUpperPrefix(p: string, s: string)
    requires p <= s && NoUpper(s)
    ensures NoUpper(p)
  {
    assert forall i :: 0 <= i < |p| ==> p[i] == s[i];
  }

  lemma TrimNoUpper(s: string)
    requires NoUpper(s)
    ensures NoUpper(Text.Trim(s))
  {
    var t := Text.TrimStart(s);
    assert NoUpper(t) by {
      forall k | 0 <= k < |t|
        ensures !Text.IsUpper(t[k])
      {
        assert t[k] == s[|s| - |t| + k];
      }
    }
    var r := Text.TrimEnd(t);
    NoUpperPrefix(r, t);
    assert Text.Trim(s) == r;
  }

  /** The base name does not depend on the letter case of the display name. */
  lemma BaseNameIgnoresCase(displayName: string)
    ensures ExtractBaseModelName(Text.Lower(displayName)) == ExtractBaseModelName(displayName)
  {
    Text.LowerIdempotent(displayName);
  }

  const PreviewWords: seq<string> :=
    ["preview", "beta", "alpha", "experimental", "dev", "snapshot", "nightly", "unstable", "test"]

  /** A character of `\w`. */
  predicate IsWordChar(c: char) {
    Text.IsUpper(c) || Text.IsLower(c) || Text.IsDigit(c) || c == '_'
  }

  /** `w` occurs at `i` in `s` with a word boundary on both sides. */
  predicate WholeWordAt(s: string, w: string, i: int) {
    && Text.OccursAt(s, w, i)
    && (i == 0 || !IsWordChar(s[i - 1]))
    && (i + |w| == |s| || !IsWordChar(s[i + |w|]))
  }

  /** `\b(preview|beta|…|test)\b` finds a match. */
  predicate HasPreviewWord(s: string) {
    exists k, i :: 0 <= k < |PreviewWords| && 0 <= i <= |s| && WholeWordAt(s, PreviewWords[k], i)
  }

  /** The text `isPreviewModel` searches. */
  function PreviewText(displayName: string, systemName: string): string {
    Text.Lower(displayName + " " + systemName)
  }

  /** `isPreviewModel`. */
  predicate IsPreviewModel(displayName: string, systemName: string) {
    HasPreviewWord(PreviewText(displayName, systemName))
  }

  /** The preview test does not depend on the letter case of either name. */
  lemma PreviewIgnoresCase(displayName: string, systemName: string)
    ensures IsPreviewModel(Text.Lower(displayName), Text.Lower(systemName)) == IsPreviewModel(displayName, systemName)
  {
    Text.LowerAroundSpace(displayName, systemName);
    Text.LowerIdempotent(displayName + " " + systemName);
  }

  /** The longest run of digits at the start of `s`. */
  function DigitRun(s: string): (r: string)
    ensures r <= s
    ensures forall i :: 0 <= i < |r| ==> Text.IsDigit(r[i])
    ensures |r| < |s| ==> !Text.IsDigit(s[|r|])
  {
    if s != [] && Text.IsDigit(s[0]) then [s[0]] + DigitRun(s[1..]) else []
  }

  function Pow10(n: nat): (r: nat)
    ensures r >= 1
  {
    if n == 0 then 1 else 10 * Pow10(n - 1)
  }

  /** The index of the first digit of `s`, or -1. */
  function FirstDigit(s: string): (r: int)
    ensures -1 <= r < |s|
    ensures r >= 0 ==> Text.IsDigit(s[r])
    ensures forall i :: 0 <= i < |s| && (r < 0 || i < r) ==> !Text.IsDigit(s[i])
  {
    if s == [] then -1
    else if Text.IsDigit(s[0]) then 0
    else var r := FirstDigit(s[1..]); if r < 0 then -1 else r + 1
  }

  /** `extractVersionNumber`: `parseFloat` of the first `\d+\.?\d*\.?\d*`
      match, which reads its leading digits and, after one dot, the digits
      that follow. The value is exact. */
  function ExtractVersionNumber(name: string): (r: Option<real>)
    ensures r.None? <==> forall i :: 0 <= i < |name| ==> !Text.IsDigit(name[i])
    ensures r.Some? ==> r.value >= 0.0
  {
    var i := FirstDigit(name);
    if i < 0 then None else Some(LeadingDecimal(name[i..]))
  }

  /** `parseFloat` of a text that starts with the match: its leading
      digits and, after one dot, the digits that follow. */
  function LeadingDecimal(s: string): (r: real)
    ensures r >= 0.0
  {
    var whole := DigitRun(s);
    var rest := s[|whole|..];
    var fraction := if rest != [] && rest[0] == '.' then DigitRun(rest[1..]) else [];
    DecimalValue(whole, fraction)
  }

  /** The value of the decimal `whole.fraction`. */
  function DecimalValue(whole: string, fraction: string): (r: real)
    requires forall i :: 0 <= i < |whole| ==> Text.IsDigit(whole[i])
    requires forall i :: 0 <= i < |fraction| ==> Text.IsDigit(fraction[i])
    ensures r >= 0.0
  {
    Text.DigitsValue(whole) as real + Text.DigitsValue(fraction) as real / Pow10(|fraction|) as real
  }

  function Sign(x: real): (r: int)
    ensures r == -1 || r == 0 || r == 1
    ensures r > 0 <==> x > 0.0
    ensures r < 0 <==> x < 0.0
  {
    if x > 0.0 then 1 else if x < 0.0 then -1 else 0
  }

  /** `compareVersions`, as the sign of its result: higher versions first
      when both names hold one, else reverse alphabetical order. */
  function CompareVersions(nameA: string, nameB: string): (r: int)
    ensures r == -1 || r == 0 || r == 1
  {
    match (ExtractVersionNumber(nameA), ExtractVersionNumber(nameB))
    case (Some(a), Some(b)) => Sign(b - a)
    case _ => Text.LocaleCompare(nameB, nameA)
  }

  predicate IsPreview(m: AIModel) {
    IsPreviewModel(m.displayName, m.systemName)
  }

  predicate HasReleaseDate(m: AIModel) {
    m.releaseDate.Some? && m.releaseDate.value != ""
  }

  /** The comparator of one family, as the sign of its result. `time` is
      `new Date(text).getTime()`, with `None` for `NaN`; a `NaN`
      difference compares as equal. */
  function FamilyCompare(time: string -> Option<real>, a: AIModel, b: AIModel): (r: int)
    ensures r == -1 || r == 0 || r == 1
    ensures IsPreview(a) && !IsPreview(b) ==> r == -1
    ensures !IsPreview(a) && IsPreview(b) ==> r == 1
  {
    var ap, bp := IsPreview(a), IsPreview(b);
    if ap && !bp then -1
    else if !ap && bp then 1
    else if HasReleaseDate(a) && HasReleaseDate(b) then
      match (time(a.releaseDate.value), time(b.releaseDate.value))
      case (Some(ta), Some(tb)) => Sign(tb - ta)
      case _ => 0
    else CompareVersions(a.displayName, b.displayName)
  }

  // ------------------------------------------------------------ properties

  /** Versions of one model share a family: the base name drops any
      trailing dotted number after a space. */
  lemma SameFamilyAcrossVersions(stem: string, v1: string, v2: string)
    requires DottedNumber(v1) && DottedNumber(v2)
    ensures ExtractBaseModelName(stem + " " + v1) == ExtractBaseModelName(stem + " " + v2)
  {
    LowerVersion(stem, v1);
    LowerVersion(stem, v2);
    VersionCut(Text.Lower(stem), v1);
    VersionCut(Text.Lower(stem), v2);
  }

  lemma LowerVersion(stem: string, v: string)
    requires DottedNumber(v)
    ensures Text.Lower(stem + " " + v) == Text.Lower(stem) + " " + v
  {
    Text.LowerAroundSpace(stem, v);
    assert Text.Lower(v) == v by {
      assert forall i :: 0 <= i < |v| ==> !Text.IsUpper(v[i]);
    }
  }

  /** The version cut of `low + " " + v` leaves `low` without its trailing
      spaces. */
  lemma VersionCut(low: string, v: string)
    requires DottedNumber(v)
    ensures CutTail(low + " " + v, VersionTail) == Text.TrimEnd(low)
  {
    var s := low + " " + v;
    var n := |Text.TrimEnd(low)|;
    assert CutTail(s, VersionTail) == s[..n] by {
      VersionTailAt(low, v);
      DottedEnds(v);
      forall j | 0 <= j < n
        ensures !VersionTail(s[j..])
      {
        NoVersionTailBefore(low, v, j);
      }
      CutAt(s, VersionTail, n);
    }
    assert s[..n] == Text.TrimEnd(low) by {
      assert s[..n] == low[..n];
    }
  }

  /** The cut is at the first place the pattern accepts. */
  lemma CutAt(s: string, tail: string -> bool, n: nat)
    requires n <= |s| && tail(s[n..])
    requires forall j :: 0 <= j < n ==> !tail(s[j..])
    ensures CutTail(s, tail) == s[..n]
  {
  }

  /** From the end of the trimmed text on, only spaces precede the number. */
  lemma VersionTailAt(low: string, v: string)
    requires DottedNumber(v)
    ensures VersionTail((low + " " + v)[|Text.TrimEnd(low)|..])
  {
    TrailingSpaces(low);
    SpacesFrom(low, |Text.TrimEnd(low)|, v);
  }

  lemma SpacesFrom(low: string, n: nat, v: string)
    requires n <= |low| && AllSpace(low[n..] + " ") && DottedNumber(v)
    ensures VersionTail((low + " " + v)[n..])
  {
    var w := low[n..] + " ";
    assert (low + " " + v)[n..] == w + v;
    SpacesThenCore(w, v);
  }

  lemma SpacesThenCore(w: string, v: string)
    requires AllSpace(w) && DottedNumber(v)
    ensures VersionTail(w + v)
  {
    var t := w + v;
    assert t[..|w|] == w;
    assert t[|w|..|t|] == v;
    assert AllSpace(t[|t|..]);
  }

  lemma TrailingSpaces(low: string)
    ensures AllSpace(low[|Text.TrimEnd(low)|..] + " ")
  {
  }

  /** A dotted number does not end with a space. */
  lemma DottedEnds(v: string)
    requires DottedNumber(v)
    ensures !Text.IsSpace(v[|v| - 1])
  {
    var c := v[|v| - 1];
    assert '0' <= c <= '9' || c == '.';
  }

  /** Before it, the text keeps the space between stem and number. */
  lemma NoVersionTailBefore(low: string, v: string, j: nat)
    requires v != [] && !Text.IsSpace(v[|v| - 1])
    requires j < |Text.TrimEnd(low)|
    ensures !VersionTail((low + " " + v)[j..])
  {
    var n := |Text.TrimEnd(low)|;
    var u := (low + " " + v)[j..];
    assert !Text.IsSpace(u[n - 1 - j]) by {
      TrimEndLast(low);
      assert u[n - 1 - j] == low[n - 1];
    }
    assert u[|low| - j] == ' ';
    assert u[|u| - 1] == v[|v| - 1];
    SpaceInside(u, n - 1 - j, |low| - j);
  }

  lemma TrimEndLast(s: string)
    requires Text.TrimEnd(s) != []
    ensures !Text.IsSpace(s[|Text.TrimEnd(s)| - 1])
  {
    var t := Text.TrimEnd(s);
    assert t[|t| - 1] == s[|t| - 1];
  }

  /** A text with a non-space at `q`, a space at `p` after it and a last
      character that is not a space is no version tail: the core would have
      to hold that space. */
  lemma SpaceInside(u: string, q: nat, p: nat)
    requires q < p < |u| - 1 && u[p] == ' ' && !Text.IsSpace(u[q]) && !Text.IsSpace(u[|u| - 1])
    ensures !VersionTail(u)
  {
    forall a, b | 0 <= a <= b <= |u| && AllSpace(u[..a]) && AllSpace(u[b..])
      ensures !VersionCore(u[a..b])
    {
      SpacePrefix(u, a);
      SpaceSuffix(u, b);
      InnerSpaceNotCore(u[a..b], p - a);
    }
  }

  lemma SpacePrefix(s: string, k: nat)
    requires k <= |s| && AllSpace(s[..k])
    ensures forall i :: 0 <= i < k ==> Text.IsSpace(s[i])
  {
    assert forall i :: 0 <= i < k ==> s[..k][i] == s[i];
  }

  lemma SpaceSuffix(s: string, k: nat)
    requires k <= |s| && AllSpace(s[k..])
    ensures forall i :: k <= i < |s| ==> Text.IsSpace(s[i])
  {
    assert forall i :: k <= i < |s| ==> s[k..][i - k] == s[i];
  }

  /** A version core holds no space after its first character. */
  lemma InnerSpaceNotCore(c: string, p: nat)
    requires 1 <= p < |c| && c[p] == ' '
    ensures !VersionCore(c)
  {
    assert !Text.IsDigit(c[p]);
    assert c[1..][p - 1] == ' ';
  }

  /** A preview word standing on its own at the end of the lower-cased
      display name marks the model as a preview. */
  lemma PreviewWordMarks(displayName: string, stem: string, k: nat, systemName: string)
    requires k < |PreviewWords|
    requires Text.Lower(displayName) == stem + " " + PreviewWords[k]
    ensures IsPreviewModel(displayName, systemName)
  {
    var w := PreviewWords[k];
    var s := PreviewText(displayName, systemName);
    assert s == stem + " " + w + " " + Text.Lower(systemName) by {
      Text.LowerAroundSpace(displayName, systemName);
    }
    SpacedWord(stem, w, Text.Lower(systemName));
    assert WholeWordAt(s, PreviewWords[k], |stem| + 1);
  }

  /** A word between two spaces stands on its own. */
  lemma SpacedWord(stem: string, w: string, rest: string)
    ensures WholeWordAt(stem + " " + w + " " + rest, w, |stem| + 1)
  {
    var s := stem + " " + w + " " + rest;
    var i := |stem| + 1;
    assert s[i..i + |w|] == w;
    assert s[i - 1] == ' ' && s[i + |w|] == ' ';
  }

  /** A preview word inside a longer word does not count: `Latest` is not a
      preview name although it contains `test`. */
  lemma LatestIsNotPreview()
    ensures !IsPreviewModel("Latest", "")
  {
    var s := PreviewText("Latest", "");
    assert s == "latest ";
    forall k, i | 0 <= k < |PreviewWords| && 0 <= i <= |s|
      ensures !WholeWordAt(s, PreviewWords[k], i)
    {
      var w := PreviewWords[k];
      if Text.OccursAt(s, w, i) {
        assert s[i] == w[0] && s[i + 1] == w[1];
        assert k == 8 && i == 2;
        assert IsWordChar(s[1]);
      }
    }
  }

  /** The first digit run of a name, with the digits after one dot, is its
      version: `Claude 3.5 Sonnet` reads as 3.5. */
  lemma VersionValue(prefix: string, whole: string, fraction: string, rest: string)
    requires forall i :: 0 <= i < |prefix| ==> !Text.IsDigit(prefix[i])
    requires whole != [] && forall i :: 0 <= i < |whole| ==> Text.IsDigit(whole[i])
    requires forall i :: 0 <= i < |fraction| ==> Text.IsDigit(fraction[i])
    requires rest == [] || !Text.IsDigit(rest[0])
    ensures ExtractVersionNumber(prefix + whole + "." + fraction + rest) == Some(DecimalValue(whole, fraction))
  {
    var x := whole + "." + fraction + rest;
    assert prefix + whole + "." + fraction + rest == prefix + x;
    VersionAfterPrefix(prefix, x);
    LeadingDecimalOf(whole, fraction, rest);
  }

  lemma VersionAfterPrefix(prefix: string, x: string)
    requires forall i :: 0 <= i < |prefix| ==> !Text.IsDigit(prefix[i])
    requires x != [] && Text.IsDigit(x[0])
    ensures ExtractVersionNumber(prefix + x) == Some(LeadingDecimal(x))
  {
    FirstDigitAfter(prefix, x);
    assert (prefix + x)[|prefix|..] == x;
  }

  lemma LeadingDecimalOf(whole: string, fraction: string, rest: string)
    requires forall i :: 0 <= i < |whole| ==> Text.IsDigit(whole[i])
    requires forall i :: 0 <= i < |fraction| ==> Text.IsDigit(fraction[i])
    requires rest == [] || !Text.IsDigit(rest[0])
    ensures LeadingDecimal(whole + "." + fraction + rest) == DecimalValue(whole, fraction)
  {
    var s := whole + "." + fraction + rest;
    var tail := "." + fraction + rest;
    assert DigitRun(s) == whole by {
      assert s == whole + tail;
      DigitRunStops(whole, tail);
    }
    assert s[|whole|] == '.' && s[|whole| + 1..] == fraction + rest;
    assert DigitRun(fraction + rest) == fraction by {
      DigitRunStops(fraction, rest);
    }
    LeadingDecimalFrom(s, whole, fraction);
  }

  lemma LeadingDecimalFrom(s: string, whole: string, fraction: string)
    requires DigitRun(s) == whole && |whole| < |s| && s[|whole|] == '.'
    requires DigitRun(s[|whole| + 1..]) == fraction
    ensures LeadingDecimal(s) == DecimalValue(whole, fraction)
  {
    assert s[|whole|..][1..] == s[|whole| + 1..];
  }

  lemma {:induction false} FirstDigitAfter(prefix: string, x: string)
    requires forall i :: 0 <= i < |prefix| ==> !Text.IsDigit(prefix[i])
    requires x != [] && Text.IsDigit(x[0])
    ensures FirstDigit(prefix + x) == |prefix|
  {
    if prefix != [] {
      assert (prefix + x)[1..] == prefix[1..] + x;
      FirstDigitAfter(prefix[1..], x);
    } else {
      assert prefix + x == x;
    }
  }

  lemma {:induction false} DigitRunStops(d: string, x: string)
    requires forall i :: 0 <= i < |d| ==> Text.IsDigit(d[i])
    requires x == [] || !Text.IsDigit(x[0])
    ensures DigitRun(d + x) == d
  {
    if d != [] {
      assert (d + x)[1..] == d[1..] + x;
      DigitRunStops(d[1..], x);
    } else {
      assert d + x == x;
    }
  }

  /** Between names that both hold a version, the higher one sorts first. */
  lemma HigherVersionFirst(nameA: string, nameB: string)
    requires ExtractVersionNumber(nameA).Some? && ExtractVersionNumber(nameB).Some?
    ensures CompareVersions(nameA, nameB) > 0 <==>
              ExtractVersionNumber(nameB).value > ExtractVersionNumber(nameA).value
  {
  }

  /** Without a version on both sides the order is reverse alphabetical. */
  lemma UnversionedReverseAlphabetical(nameA: string, nameB: string)
    requires ExtractVersionNumber(nameA).None? || ExtractVersionNumber(nameB).None?
    ensures CompareVersions(nameA, nameB) > 0 <==> Text.Less(nameA, nameB)
  {
  }
}
