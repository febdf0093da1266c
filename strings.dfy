/**
 * The two string operations the simulator applies to topics and payloads:
 * Python's `str.split(sep)` and `str.strip()`.
 */
module Strings {

  /** `sep.join(parts)`. */
  function Join(parts: seq<string>, sep: char): string
    requires |parts| > 0
  {
    if |parts| == 1 then parts[0] else parts[0] + [sep] + Join(parts[1..], sep)
  }

  /**
   * `s.split(sep)`: the maximal runs between separators, empty runs included,
   * so `"".split("/") == [""]` and `"a//b".split("/") == ["a", "", "b"]`.
   */
  function Split(s: string, sep: char): (parts: seq<string>)
    ensures |parts| > 0
    ensures forall i :: 0 <= i < |parts| ==> sep !in parts[i]
    ensures Join(parts, sep) == s
  {
    if s == [] then [""]
    else
      var rest := Split(s[1..], sep);
      assert s == [s[0]] + s[1..];
      if s[0] == sep then [""] + rest
      else
        [[s[0]] + rest[0]] + rest[1..]
  }

  /** A text without separators splits into itself. */
  lemma {:induction false} SplitNoSeparator(a: string, sep: char)
    requires sep !in a
    ensures Split(a, sep) == [a]
  {
    if a != [] {
      SplitNoSeparator(a[1..], sep);
      assert a == [a[0]] + a[1..];
    }
  }

  /** A separator-free prefix followed by a separator is split off as one part. */
  lemma {:induction false} SplitPrefix(a: string, sep: char, rest: string)
    requires sep !in a
    ensures Split(a + [sep] + rest, sep) == [a] + Split(rest, sep)
  {
    var s := a + [sep] + rest;
    if a == [] {
      assert s[1..] == rest;
    } else {
      assert s[1..] == a[1..] + [sep] + rest;
      SplitPrefix(a[1..], sep, rest);
      assert a == [a[0]] + a[1..];
    }
  }

  /** Splitting undoes joining parts that contain no separator. */
  lemma {:induction false} SplitJoin(parts: seq<string>, sep: char)
    requires |parts| > 0
    requires forall i :: 0 <= i < |parts| ==> sep !in parts[i]
    ensures Split(Join(parts, sep), sep) == parts
  {
    if |parts| == 1 {
      SplitNoSeparator(parts[0], sep);
    } else {
      SplitJoin(parts[1..], sep);
      SplitPrefix(parts[0], sep, Join(parts[1..], sep));
      assert parts == [parts[0]] + parts[1..];
    }
  }

  /** The characters Python's `str.isspace` accepts. */
  predicate IsSpace(c: char)
  {
    || c == ' ' || c == '\t' || c == '\n' || c == '\r' || c == '\U{000B}' || c == '\U{000C}'
    || '\U{001C}' <= c <= '\U{001F}' || c == '\U{0085}' || c == '\U{00A0}' || c == '\U{1680}'
    || '\U{2000}' <= c <= '\U{200A}' || c == '\U{2028}' || c == '\U{2029}' || c == '\U{202F}'
    || c == '\U{205F}' || c == '\U{3000}'
  }

  /** The number of whitespace characters `s` starts with. */
  function LeadingSpaces(s: string): (n: nat)
    ensures n <= |s|
    ensures forall i :: 0 <= i < n ==> IsSpace(s[i])
    ensures n < |s| ==> !IsSpace(s[n])
  {
    if s == [] || !IsSpace(s[0]) then 0 else 1 + LeadingSpaces(s[1..])
  }

  /** The number of whitespace characters `s` ends with. */
  function TrailingSpaces(s: string): (n: nat)
    ensures n <= |s|
    ensures forall i :: |s| - n <= i < |s| ==> IsSpace(s[i])
    ensures n < |s| ==> !IsSpace(s[|s| - n - 1])
  {
    if s == [] || !IsSpace(s[|s| - 1]) then 0 else 1 + TrailingSpaces(s[..|s| - 1])
  }

  /**
   * `s.strip()`: `s` without its leading and trailing whitespace; what is left
   * neither starts nor ends with whitespace.
   */
  function Strip(s: string): (r: string)
    ensures LeadingSpaces(s) + |r| <= |s|
    ensures r == s[LeadingSpaces(s)..LeadingSpaces(s) + |r|]
    ensures forall i :: LeadingSpaces(s) + |r| <= i < |s| ==> IsSpace(s[i])
    ensures r == [] || (!IsSpace(r[0]) && !IsSpace(r[|r| - 1]))
  {
    var t := s[LeadingSpaces(s)..];
    t[..|t| - TrailingSpaces(t)]
  }

  /** A text that neither starts nor ends with whitespace is its own strip. */
  lemma StripUnpadded(s: string)
    requires s == [] || (!IsSpace(s[0]) && !IsSpace(s[|s| - 1]))
    ensures Strip(s) == s
  {
    assert LeadingSpaces(s) == 0;
    assert TrailingSpaces(s) == 0;
  }

  /** Stripping twice is stripping once. */
  lemma StripIdempotent(s: string)
    ensures Strip(Strip(s)) == Strip(s)
  {
    StripUnpadded(Strip(s));
  }
}
