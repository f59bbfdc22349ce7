/**
 * The string operations of the JDK and of Apache commons-lang that the core relies on:
 * `String.equalsIgnoreCase`, `StringUtils.isBlank` and `StringUtils.defaultIfEmpty`.
 */
module JavaStrings {
  import opened Nullable

  /** `Character.toUpperCase`, restricted to the ASCII letters. */
  function UpperAscii(c: char): char {
    if 'a' <= c <= 'z' then (c as int - 32) as char else c
  }

  /** `Character.toLowerCase`, restricted to the ASCII letters. */
  function LowerAscii(c: char): char {
    if 'A' <= c <= 'Z' then (c as int + 32) as char else c
  }

  /** The per-character test of `String.equalsIgnoreCase`: equal, equal upper case, or equal lower case of the upper case. */
  predicate CharEqualsIgnoreCase(a: char, b: char) {
    a == b || UpperAscii(a) == UpperAscii(b) || LowerAscii(UpperAscii(a)) == LowerAscii(UpperAscii(b))
  }

  /** `s.equalsIgnoreCase(t)` for non-null `t`. */
  predicate EqualsIgnoreCase(s: string, t: string) {
    |s| == |t| && forall i :: 0 <= i < |s| ==> CharEqualsIgnoreCase(s[i], t[i])
  }

  /** The ASCII lower-case form of a string: the reference definition `EqualsIgnoreCase` is compared with. */
  function ToLowerAscii(s: string): string {
    seq(|s|, i requires 0 <= i < |s| => LowerAscii(s[i]))
  }

  /** Two characters match ignoring case exactly when their lower-case forms are equal. */
  lemma CharEqualsIgnoreCaseIsLowerEqual(a: char, b: char)
    ensures CharEqualsIgnoreCase(a, b) <==> LowerAscii(a) == LowerAscii(b)
  {
    assert LowerAscii(UpperAscii(a)) == LowerAscii(a);
    assert LowerAscii(UpperAscii(b)) == LowerAscii(b);
  }

  /** `equalsIgnoreCase` holds exactly when the two strings have the same lower-case form. */
  lemma EqualsIgnoreCaseIsLowerEqual(s: string, t: string)
    ensures EqualsIgnoreCase(s, t) <==> ToLowerAscii(s) == ToLowerAscii(t)
  {
    forall i | 0 <= i < |s| && i < |t| {
      CharEqualsIgnoreCaseIsLowerEqual(s[i], t[i]);
    }
    if ToLowerAscii(s) == ToLowerAscii(t) {
      assert |s| == |t|;
      forall i | 0 <= i < |s| ensures CharEqualsIgnoreCase(s[i], t[i]) {
        assert ToLowerAscii(s)[i] == ToLowerAscii(t)[i];
      }
    }
  }

  /** `Character.isWhitespace`: the Unicode space, line and paragraph separators other than the
      non-breaking ones, and the ASCII controls TAB, LF, VT, FF, CR and FS, GS, RS, US. */
  predicate IsWhitespace(c: char) {
    || c == ' ' || ('\t' <= c <= '\r') || ('\U{1C}' <= c <= '\U{1F}')
    || c == '\U{1680}' || ('\U{2000}' <= c <= '\U{2006}') || ('\U{2008}' <= c <= '\U{200A}')
    || c == '\U{2028}' || c == '\U{2029}' || c == '\U{205F}' || c == '\U{3000}'
  }

  /** `StringUtils.isBlank`: null, empty, or whitespace only. */
  predicate IsBlank(s: Option<string>) {
    s.None? || forall i :: 0 <= i < |s.value| ==> IsWhitespace(s.value[i])
  }

  /** `StringUtils.isEmpty`: null or the empty string. */
  predicate IsEmpty(s: Option<string>) {
    s.None? || s.value == ""
  }

  /** `StringUtils.defaultIfEmpty(s, default)`: `s` itself unless it is null or empty. */
  function DefaultIfEmpty(s: Option<string>, default: string): (r: string)
    ensures IsEmpty(s) ==> r == default
    ensures !IsEmpty(s) ==> s == Some(r)
    ensures default != "" ==> r != ""
  {
    match s
    case Some(v) => if v == "" then default else v
    case None => default
  }
}
