/** String helpers used by the app: substring occurrence, f-string assembly,
    the 300-character preview, the download file name and decimal rendering. */
module Text {

  /** `sub` sits in `s` starting at position `k`. */
  predicate OccursAt(sub: string, s: string, k: nat)
  {
    k + |sub| <= |s| && s[k..k + |sub|] == sub
  }

  /** `sub` is a substring of `s`. */
  predicate Occurs(sub: string, s: string)
  {
    exists k: nat | k <= |s| :: OccursAt(sub, s, k)
  }

  /** An f-string is the concatenation of its literal and interpolated segments. */
  function Concat(parts: seq<string>): string
  {
    if parts == [] then "" else parts[0] + Concat(parts[1..])
  }

  /** Every segment of an f-string occurs in the assembled string. */
  lemma {:induction false} ConcatHasPart(parts: seq<string>, i: nat)
    requires i < |parts|
    ensures Occurs(parts[i], Concat(parts))
  {
    var rest := Concat(parts[1..]);
    assert Concat(parts) == parts[0] + rest;
    if i == 0 {
      assert OccursAt(parts[0], Concat(parts), 0);
    } else {
      assert parts[1..][i - 1] == parts[i];
      ConcatHasPart(parts[1..], i - 1);
      var k: nat :| k <= |rest| && OccursAt(parts[i], rest, k);
      var n, p := |parts[0]|, parts[i];
      assert k + |p| <= |rest| && rest[k..k + |p|] == p;
      assert (parts[0] + rest)[n + k..n + k + |p|] == rest[k..k + |p|];
      assert OccursAt(parts[i], Concat(parts), n + k);
    }
  }

  /** A substring of `s` is still one after a prefix is put before `s`. */
  lemma OccursAfter(prefix: string, sub: string, s: string)
    requires Occurs(sub, s)
    ensures Occurs(sub, prefix + s)
  {
    var k: nat :| k <= |s| && OccursAt(sub, s, k);
    assert (prefix + s)[|prefix| + k..|prefix| + k + |sub|] == s[k..k + |sub|];
    assert OccursAt(sub, prefix + s, |prefix| + k);
  }

  // ---------------------------------------------------------------------------
  // Preview of a stored content in the translate tab

  const PreviewLimit: nat := 300
  const Ellipsis: string := "..."

  /** The preview of a stored content: content longer than 300 characters is cut
      to its first 300 and marked with an ellipsis; shorter content is shown whole. */
  function Preview(content: string): (p: string)
    ensures |content| <= PreviewLimit ==> p == content
    ensures |content| > PreviewLimit ==>
      |p| == PreviewLimit + |Ellipsis| &&
      p[..PreviewLimit] == content[..PreviewLimit] &&
      p[PreviewLimit..] == Ellipsis
  {
    if |content| > PreviewLimit then content[..PreviewLimit] + Ellipsis else content
  }

  /** A preview is never longer than 303 characters, always begins with a prefix
      of the content, and previewing a preview changes nothing. */
  lemma PreviewProperties(content: string)
    ensures |Preview(content)| <= PreviewLimit + |Ellipsis|
    ensures var m := if |content| < PreviewLimit then |content| else PreviewLimit;
      m <= |Preview(content)| && Preview(content)[..m] == content[..m]
    ensures Preview(Preview(content)) == Preview(content)
  {
  }

  // ---------------------------------------------------------------------------
  // Download file name

  /** Every space of `s` replaced by an underscore, all other characters kept. */
  function ReplaceSpaces(s: string): (r: string)
    ensures |r| == |s|
    ensures forall i :: 0 <= i < |s| ==> r[i] == (if s[i] == ' ' then '_' else s[i])
    ensures ' ' !in r
  {
    if s == [] then ""
    else (if s[0] == ' ' then "_" else [s[0]]) + ReplaceSpaces(s[1..])
  }

  /** The name a content is downloaded under: the theme with its spaces made
      underscores, an underscore, the language as typed, and the `.txt` extension. */
  function DownloadFileName(theme: string, language: string): (f: string)
    ensures |f| == |theme| + 1 + |language| + 4
    ensures ' ' !in f[..|theme|] && f[..|theme|] == ReplaceSpaces(theme)
    ensures f[|theme|] == '_'
    ensures f[|theme| + 1..|f| - 4] == language
    ensures f[|f| - 4..] == ".txt"
  {
    var f := ReplaceSpaces(theme) + "_" + language + ".txt";
    assert f[..|theme|] == ReplaceSpaces(theme);
    assert f[|theme| + 1..|f| - 4] == language;
    f
  }

  // ---------------------------------------------------------------------------
  // Decimal rendering of a display position, used in the download-button keys

  function DigitChar(d: nat): (c: char)
    requires d < 10
  {
    ('0' as int + d) as char
  }

  /** The decimal digits of a natural number, most significant first. */
  function Decimal(n: nat): (s: string)
    ensures |s| >= 1
    ensures forall i :: 0 <= i < |s| ==> '0' <= s[i] <= '9'
  {
    if n < 10 then [DigitChar(n)] else Decimal(n / 10) + [DigitChar(n % 10)]
  }

  /** The value of a string of decimal digits. It serves only to read a rendering
      back, which shows that `Decimal` is injective. */
  function DecimalValue(s: string): nat
  {
    if s == [] then 0
    else
      var d := s[|s| - 1] as int - '0' as int;
      DecimalValue(s[..|s| - 1]) * 10 + (if 0 <= d then d else 0)
  }

  /** Reading back a rendered number gives the number: rendering is injective. */
  lemma {:induction false} DecimalRoundTrip(n: nat)
    ensures DecimalValue(Decimal(n)) == n
  {
    var s := Decimal(n);
    if n < 10 {
      assert s[..|s| - 1] == [];
    } else {
      assert s[..|s| - 1] == Decimal(n / 10);
      DecimalRoundTrip(n / 10);
    }
  }
}
