/** The string functions of the Go library that the proxies use, for one-character separators. */
module Strings {

  predicate Has(s: string, c: char) {
    exists i :: 0 <= i < |s| && s[i] == c
  }

  /** The pieces between the separators; always at least one. */
  function Split(s: string, sep: char): (parts: seq<string>)
    ensures parts != []
  {
    if s == [] then [""]
    else
      var rest := Split(s[1..], sep);
      if s[0] == sep then [""] + rest else [[s[0]] + rest[0]] + rest[1..]
  }

  function Join(parts: seq<string>, sep: char): string {
    if parts == [] then ""
    else if |parts| == 1 then parts[0]
    else parts[0] + [sep] + Join(parts[1..], sep)
  }

  /** The text up to the first separator. */
  function Before(s: string, sep: char): string {
    Split(s, sep)[0]
  }

  predicate HasPrefix(s: string, prefix: string) {
    |prefix| <= |s| && s[..|prefix|] == prefix
  }

  function TrimPrefix(s: string, prefix: string): string {
    if HasPrefix(s, prefix) then s[|prefix|..] else s
  }

  /** Simple case folding as far as it concerns ASCII letters: besides the capital letters, the
      Kelvin sign folds to k and the long s to s. */
  function Fold(c: char): char {
    if 'A' <= c <= 'Z' then c + ('a' - 'A')
    else if c == '\U{212A}' then 'k'
    else if c == '\U{17F}' then 's'
    else c
  }

  /** strings.EqualFold against an ASCII text. */
  predicate EqualFold(s: string, ascii: string) {
    |s| == |ascii| && forall i :: 0 <= i < |s| ==> Fold(s[i]) == Fold(ascii[i])
  }

  function Lower(c: char): char {
    if 'A' <= c <= 'Z' then c + ('a' - 'A') else c
  }

  /** Case-insensitive comparison of ASCII texts, as for header field names. */
  predicate SameName(s: string, t: string) {
    |s| == |t| && forall i :: 0 <= i < |s| ==> Lower(s[i]) == Lower(t[i])
  }

  /** Lower case as far as it is ASCII: besides the capital letters, the Kelvin sign and the dotted
      capital I have ASCII lower-case forms. */
  function LowerRune(c: char): char {
    if c == '\U{212A}' then 'k' else if c == '\U{130}' then 'i' else Lower(c)
  }

  /** strings.ToLower. */
  function ToLower(s: string): string {
    seq(|s|, i requires 0 <= i < |s| => LowerRune(s[i]))
  }

  predicate Contains(s: string, pattern: string) {
    HasPrefix(s, pattern) || (s != "" && Contains(s[1..], pattern))
  }

  // ---------------------------------------------------------------------------------------

  lemma {:induction false} JoinSplit(s: string, sep: char)
    ensures Join(Split(s, sep), sep) == s
  {
    if s != [] {
      JoinSplit(s[1..], sep);
      var rest := Split(s[1..], sep);
      if s[0] == sep {
        assert Split(s, sep)[1..] == rest;
      } else if |rest| > 1 {
        assert Split(s, sep)[1..] == rest[1..];
      }
      assert s == [s[0]] + s[1..];
    }
  }

  lemma {:induction false} SplitPlain(s: string, sep: char)
    requires !Has(s, sep)
    ensures Split(s, sep) == [s]
  {
    if s != [] {
      assert forall i :: 0 <= i < |s[1..]| ==> s[1..][i] == s[i + 1];
      SplitPlain(s[1..], sep);
      assert s[0] != sep && [s[0]] + s[1..] == s;
    }
  }

  /** A piece without separators is split off in front. */
  lemma {:induction false} SplitFirst(x: string, sep: char, y: string)
    requires !Has(x, sep)
    ensures Split(x + [sep] + y, sep) == [x] + Split(y, sep)
  {
    var s := x + [sep] + y;
    if x == [] {
      assert s[1..] == y;
    } else {
      assert s[1..] == x[1..] + [sep] + y;
      assert forall i :: 0 <= i < |x[1..]| ==> x[1..][i] == x[i + 1];
      SplitFirst(x[1..], sep, y);
      assert [x[0]] + x[1..] == x;
    }
  }

  ghost predicate Plain(parts: seq<string>, sep: char) {
    forall i :: 0 <= i < |parts| ==> !Has(parts[i], sep)
  }

  lemma JoinCons(parts: seq<string>, sep: char, rest: string)
    requires |parts| > 1
    ensures Join(parts, sep) + [sep] + rest == parts[0] + [sep] + (Join(parts[1..], sep) + [sep] + rest)
  {
    var tail := Join(parts[1..], sep);
    assert Join(parts, sep) == parts[0] + [sep] + tail;
    assert parts[0] + [sep] + tail + [sep] + rest == parts[0] + [sep] + (tail + [sep] + rest);
  }

  lemma SplitCons(parts: seq<string>, sep: char, tail: string, text: string, more: seq<string>)
    requires parts != [] && !Has(parts[0], sep) && text == parts[0] + [sep] + tail
    requires Split(tail, sep) == parts[1..] + more
    ensures Split(text, sep) == parts + more
  {
    SplitFirst(parts[0], sep, tail);
    assert [parts[0]] + (parts[1..] + more) == parts + more;
  }

  /** Joined pieces followed by more text come apart again. */
  lemma {:induction false} SplitJoined(parts: seq<string>, sep: char, rest: string)
    requires parts != [] && Plain(parts, sep)
    ensures Split(Join(parts, sep) + [sep] + rest, sep) == parts + Split(rest, sep)
  {
    if |parts| == 1 {
      SplitCons(parts, sep, rest, Join(parts, sep) + [sep] + rest, Split(rest, sep));
    } else {
      JoinCons(parts, sep, rest);
      SplitJoined(parts[1..], sep, rest);
      SplitCons(parts, sep, Join(parts[1..], sep) + [sep] + rest, Join(parts, sep) + [sep] + rest, Split(rest, sep));
    }
  }

  lemma {:induction false} SplitOfJoin(parts: seq<string>, sep: char)
    requires parts != [] && Plain(parts, sep)
    ensures Split(Join(parts, sep), sep) == parts
  {
    if |parts| == 1 {
      SplitPlain(parts[0], sep);
    } else {
      SplitOfJoin(parts[1..], sep);
      SplitFirst(parts[0], sep, Join(parts[1..], sep));
      assert [parts[0]] + parts[1..] == parts;
    }
  }

  /** `Before` is the longest prefix without the separator. */
  lemma {:induction false} BeforeIsLongest(s: string, sep: char)
    ensures var b := Before(s, sep);
      !Has(b, sep) && b <= s && (|b| < |s| ==> s[|b|] == sep)
  {
    if s != [] && s[0] != sep {
      BeforeIsLongest(s[1..], sep);
      var b := Before(s[1..], sep);
      assert Before(s, sep) == [s[0]] + b;
      assert forall i :: 0 < i < |[s[0]] + b| ==> ([s[0]] + b)[i] == b[i - 1];
    }
  }

  lemma {:induction false} SplitParts(s: string, sep: char)
    ensures Plain(Split(s, sep), sep)
  {
    if s != [] {
      SplitParts(s[1..], sep);
      var rest := Split(s[1..], sep);
      if s[0] != sep {
        assert forall i :: 0 < i < |[s[0]] + rest[0]| ==> ([s[0]] + rest[0])[i] == rest[0][i - 1];
      }
    }
  }
}
