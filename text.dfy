/**
 * The .NET string and path routines the services call: `string.IsNullOrWhiteSpace`,
 * `ToLowerInvariant`, `Path.GetExtension` and the decimal rendering of an `int`
 * that string interpolation uses.
 */
module Text {
  import opened Models

  /** `char.IsWhiteSpace`: the Unicode space, line and paragraph separators, U+0009 to U+000D and U+0085. */
  predicate IsWhiteSpace(c: char) {
    || c == ' ' || ('\t' <= c <= '\r') || c == '\U{0085}' || c == '\U{00A0}' || c == '\U{1680}'
    || ('\U{2000}' <= c <= '\U{200A}') || c == '\U{2028}' || c == '\U{2029}' || c == '\U{202F}'
    || c == '\U{205F}' || c == '\U{3000}'
  }

  /** `string.IsNullOrWhiteSpace`. */
  predicate IsNullOrWhiteSpace(s: Option<string>) {
    s.None? || forall i :: 0 <= i < |s.value| ==> IsWhiteSpace(s.value[i])
  }

  function ToLowerChar(c: char): char {
    if 'A' <= c <= 'Z' then (c as int - 'A' as int + 'a' as int) as char else c
  }

  /** `ToLowerInvariant`, for the ASCII letters. */
  function ToLowerInvariant(s: string): (r: string)
    ensures |r| == |s|
    ensures forall i :: 0 <= i < |s| ==> r[i] == ToLowerChar(s[i])
    ensures forall i :: 0 <= i < |s| ==> !('A' <= r[i] <= 'Z')
  {
    if s == [] then [] else [ToLowerChar(s[0])] + ToLowerInvariant(s[1..])
  }

  predicate IsDirectorySeparator(c: char) {
    c == '/' || c == '\\'
  }

  /** `Path.GetExtension`: the text from the last '.' of the last path segment, unless that '.' ends the path. */
  function GetExtension(path: string): (ext: string)
    ensures ext == [] || IsExtensionOf(ext, path)
  {
    ExtensionBefore(path, |path|)
  }

  /** `ext` is a non-empty suffix of `path` that starts with its only '.' and holds no directory separator. */
  ghost predicate IsExtensionOf(ext: string, path: string) {
    && 2 <= |ext| <= |path|
    && ext == path[|path| - |ext|..]
    && ext[0] == '.'
    && forall i :: 1 <= i < |ext| ==> ext[i] != '.' && !IsDirectorySeparator(ext[i])
  }

  /** The scan of `Path.GetExtension`, from position `i` backwards, once `path[i..]` is known to hold no '.' and no separator. */
  function ExtensionBefore(path: string, i: nat): (ext: string)
    requires i <= |path|
    requires forall j :: i <= j < |path| ==> path[j] != '.' && !IsDirectorySeparator(path[j])
    ensures ext == [] || IsExtensionOf(ext, path)
    decreases i
  {
    if i == 0 then []
    else if path[i - 1] == '.' then (if i == |path| then [] else path[i - 1..])
    else if IsDirectorySeparator(path[i - 1]) then []
    else ExtensionBefore(path, i - 1)
  }

  function DigitChar(d: nat): char
    requires d < 10
  {
    "0123456789"[d]
  }

  predicate IsDigit(c: char) {
    '0' <= c <= '9'
  }

  /** The decimal digits of `n`, most significant first. */
  function NatToString(n: nat): (s: string)
    ensures 1 <= |s|
    ensures forall i :: 0 <= i < |s| ==> IsDigit(s[i])
    ensures n < 10 <==> |s| == 1
  {
    if n < 10 then [DigitChar(n)] else NatToString(n / 10) + [DigitChar(n % 10)]
  }

  /** `int.ToString()` as string interpolation uses it. */
  function IntToString(n: int): (s: string)
    ensures 1 <= |s|
    ensures forall i :: 0 <= i < |s| ==> s[i] == '-' || IsDigit(s[i])
    ensures s[0] == '-' <==> n < 0
  {
    if n < 0 then "-" + NatToString(-n) else NatToString(n)
  }

  /** Interpolating a nullable `int`: null renders as the empty string. */
  function OptionalIntToString(n: Option<int>): string {
    match n
    case None => ""
    case Some(v) => IntToString(v)
  }

  lemma DigitCharInjective(a: nat, b: nat)
    requires a < 10 && b < 10 && DigitChar(a) == DigitChar(b)
    ensures a == b
  {
  }

  /** Distinct numbers have distinct decimal renderings. */
  lemma {:induction false} NatToStringInjective(a: nat, b: nat)
    requires NatToString(a) == NatToString(b)
    ensures a == b
  {
    var s := NatToString(a);
    if a < 10 {
      DigitCharInjective(a, b);
    } else {
      assert b >= 10;
      var n := |s|;
      assert s[n - 1] == DigitChar(a % 10) == DigitChar(b % 10);
      DigitCharInjective(a % 10, b % 10);
      assert NatToString(a / 10) == s[..n - 1] == NatToString(b / 10);
      NatToStringInjective(a / 10, b / 10);
    }
  }

  lemma IntToStringInjective(a: int, b: int)
    requires IntToString(a) == IntToString(b)
    ensures a == b
  {
    var s := IntToString(a);
    if a < 0 && b < 0 {
      assert NatToString(-a) == s[1..] == NatToString(-b);
      NatToStringInjective(-a, -b);
    } else if 0 <= a && 0 <= b {
      NatToStringInjective(a, b);
    }
  }
}
