/** Character classes and string operations of the JavaScript runtime that the
    log-streaming code relies on: `\d`, `\s`, `.`, `trim()`, `toLowerCase()`,
    `includes()` and `split('\n')`. */
module Text {

  /** `\d` in a JavaScript regular expression without the `u` flag: an ASCII digit. */
  predicate IsDigit(c: char) {
    '0' <= c <= '9'
  }

  /** `\s` in a JavaScript regular expression; `String.prototype.trim` strips exactly
      these characters (WhiteSpace and LineTerminator of ECMAScript). */
  predicate IsSpace(c: char) {
    c in SpaceChars
  }

  const SpaceChars: set<char> := {'\t', '\n', '\U{000B}', '\U{000C}', '\r', ' ', '\U{00A0}', '\U{1680}',
    '\U{2000}', '\U{2001}', '\U{2002}', '\U{2003}', '\U{2004}', '\U{2005}', '\U{2006}', '\U{2007}',
    '\U{2008}', '\U{2009}', '\U{200A}', '\U{2028}', '\U{2029}', '\U{202F}', '\U{205F}', '\U{3000}', '\U{FEFF}'}

  /** Digits, ASCII letters and the punctuation of the two log layouts are not whitespace. */
  lemma NotSpace(c: char)
    requires IsDigit(c) || 'A' <= c <= 'Z' || 'a' <= c <= 'z' || c in ":/()-."
    ensures !IsSpace(c)
  {
  }

  /** The characters that `.` does not match (no `s` flag): the ECMAScript line terminators. */
  predicate IsLineTerminator(c: char) {
    c == '\n' || c == '\r' || c == '\U{2028}' || c == '\U{2029}'
  }

  /** The character classes a greedy repetition in the two log-line patterns runs over:
      `\d`, `\s` and a negated one-character class such as `[^:]`. */
  datatype CharClass = Digit | Space | Except(c: char)

  predicate In(k: CharClass, c: char) {
    match k
    case Digit => IsDigit(c)
    case Space => IsSpace(c)
    case Except(d) => c != d
  }

  /** Every character of `s` belongs to `k`. */
  predicate All(s: string, k: CharClass) {
    forall i :: 0 <= i < |s| ==> In(k, s[i])
  }

  /** No character of `s` is a line terminator, i.e. `.*` matches all of `s`. */
  predicate IsSingleLine(s: string) {
    forall i :: 0 <= i < |s| ==> !IsLineTerminator(s[i])
  }

  /** Length of the longest prefix of `s` whose characters satisfy `p`:
      what a greedy `p*` consumes. */
  function Span(s: string, k: CharClass): (n: nat)
    ensures n <= |s|
    ensures forall i :: 0 <= i < n ==> In(k, s[i])
    ensures n == |s| || !In(k, s[n])
  {
    if s == [] || !In(k, s[0]) then 0 else 1 + Span(s[1..], k)
  }

  /** Length of the longest suffix of `s` whose characters satisfy `p`. */
  function SpanBack(s: string, k: CharClass): (n: nat)
    ensures n <= |s|
    ensures forall i :: |s| - n <= i < |s| ==> In(k, s[i])
    ensures n == |s| || !In(k, s[|s| - 1 - n])
  {
    if s == [] || !In(k, s[|s| - 1]) then 0 else 1 + SpanBack(s[..|s| - 1], k)
  }

  /** The three properties in Span's contract determine its value. */
  lemma SpanUnique(s: string, k: CharClass, n: nat)
    requires n <= |s|
    requires forall i :: 0 <= i < n ==> In(k, s[i])
    requires n == |s| || !In(k, s[n])
    ensures Span(s, k) == n
  {
  }

  /** A greedy run over a prefix made of characters of class `k` continues into what follows. */
  lemma SpanConcat(a: string, b: string, k: CharClass)
    requires All(a, k)
    ensures Span(a + b, k) == |a| + Span(b, k)
  {
    var m := Span(b, k);
    var s := a + b;
    forall i | 0 <= i < |a| + m
      ensures In(k, s[i])
    {
      if i >= |a| {
        assert s[i] == b[i - |a|];
      }
    }
    if |a| + m < |s| {
      assert s[|a| + m] == b[m];
    }
    SpanUnique(s, k, |a| + m);
  }

  /** A run stops at once at a character outside class `k`. */
  lemma SpanStops(a: string, b: string, k: CharClass)
    requires All(a, k)
    requires b != [] && !In(k, b[0])
    ensures Span(a + b, k) == |a|
  {
    SpanConcat(a, b, k);
  }

  /** `s` with its leading `\s` characters removed (what `^\s*` leaves over). */
  function TrimStart(s: string): (r: string)
    ensures |r| <= |s|
    ensures r == [] || !IsSpace(r[0])
    ensures s[|s| - |r|..] == r
    ensures All(s[..|s| - |r|], Space)
  {
    s[Span(s, Space)..]
  }

  /** `String.prototype.trim`: leading and trailing whitespace removed. */
  function Trim(s: string): (r: string)
    ensures |r| <= |s|
    ensures r == [] <==> All(s, Space)
    ensures r != [] ==> !IsSpace(r[0]) && !IsSpace(r[|r| - 1])
  {
    var t := TrimStart(s);
    var r := t[..|t| - SpanBack(t, Space)];
    assert r == [] ==> All(s, Space) by {
      if r == [] {
        assert t == [];
        assert s[..|s|] == s;
      }
    }
    r
  }

  /** Trimming removes only the leading and the trailing whitespace: the result is the part of
      `s` between them. */
  lemma TrimIsMiddle(s: string)
    ensures var r, t := Trim(s), TrimStart(s);
      |r| <= |t| && t[..|r|] == r && All(t[|r|..], Space)
      && s[|s| - |t|..] == t && All(s[..|s| - |t|], Space)
  {
    var t := TrimStart(s);
    assert t[|Trim(s)|..] == t[|t| - SpanBack(t, Space)..];
  }

  /** A line is blank when `line.trim()` is the empty (falsy) string. */
  predicate IsBlank(s: string) {
    Trim(s) == []
  }

  /** Leading whitespace does not change what trimming produces. */
  lemma TrimStartSpacePrefix(w: string, x: string)
    requires All(w, Space)
    ensures TrimStart(w + x) == TrimStart(x)
  {
    SpanConcat(w, x, Space);
    assert (w + x)[|w| + Span(x, Space)..] == x[Span(x, Space)..];
  }

  lemma TrimSpacePrefix(w: string, x: string)
    requires All(w, Space)
    ensures Trim(w + x) == Trim(x)
  {
    TrimStartSpacePrefix(w, x);
  }

  /** A string that neither starts nor ends with whitespace is its own trim. */
  lemma TrimIdentity(s: string)
    requires s == [] || (!IsSpace(s[0]) && !IsSpace(s[|s| - 1]))
    ensures Trim(s) == s
  {
    if s != [] {
      SpanUnique(s, Space, 0);
      assert TrimStart(s) == s;
    }
  }

  /** `toLowerCase()` on one character, restricted to ASCII letters. */
  function LowerChar(c: char): char {
    if 'A' <= c <= 'Z' then (c as int + 32) as char else c
  }

  /** `toLowerCase()`: no upper-case ASCII letter is left, each one becomes its lower-case
      letter, and every other character is kept. */
  function ToLower(s: string): (r: string)
    ensures |r| == |s|
    ensures forall i :: 0 <= i < |r| ==> !('A' <= r[i] <= 'Z')
    ensures forall i :: 0 <= i < |s| && 'A' <= s[i] <= 'Z' ==> 'a' <= r[i] <= 'z' && r[i] as int - s[i] as int == 32
    ensures forall i :: 0 <= i < |s| && !('A' <= s[i] <= 'Z') ==> r[i] == s[i]
  {
    seq(|s|, i requires 0 <= i < |s| => LowerChar(s[i]))
  }

  /** Lower-casing twice is lower-casing once: a stored lower-cased filter stays lower-cased. */
  lemma ToLowerIdempotent(s: string)
    ensures ToLower(ToLower(s)) == ToLower(s)
  {
  }

  /** Lower-casing works character by character, so it distributes over concatenation. */
  lemma ToLowerAppend(a: string, b: string)
    ensures ToLower(a + b) == ToLower(a) + ToLower(b)
  {
  }

  /** Lower-casing commutes with taking a slice. */
  lemma ToLowerSlice(s: string, a: nat, b: nat)
    requires a <= b <= |s|
    ensures ToLower(s)[a..b] == ToLower(s[a..b])
  {
  }

  /** `s` has `t` at position `k`. */
  predicate MatchAt(s: string, t: string, k: nat) {
    k + |t| <= |s| && s[k..k + |t|] == t
  }

  /** `s.indexOf(t, k)`: the first position at or after `k` where `t` occurs, or -1. */
  function IndexFrom(s: string, t: string, k: nat): (r: int)
    ensures r == -1 || (k <= r && MatchAt(s, t, r))
    ensures r == -1 ==> forall j: nat :: k <= j ==> !MatchAt(s, t, j)
    ensures r >= 0 ==> forall j: nat :: k <= j < r ==> !MatchAt(s, t, j)
    decreases |s| - k
  {
    if k + |t| > |s| then -1
    else if s[k..k + |t|] == t then k
    else IndexFrom(s, t, k + 1)
  }

  /** `s.includes(t)`. */
  predicate Includes(s: string, t: string) {
    IndexFrom(s, t, 0) >= 0
  }

  /** `includes` holds exactly when some position of `s` carries `t`. */
  lemma IncludesIff(s: string, t: string)
    ensures Includes(s, t) <==> exists j: nat :: MatchAt(s, t, j)
  {
    if Includes(s, t) {
      var j: nat := IndexFrom(s, t, 0);
      assert MatchAt(s, t, j);
    }
  }

  /** An occurrence survives lower-casing both strings: `includes` after `toLowerCase` is a
      case-insensitive search. */
  lemma IncludesLowered(s: string, t: string, k: nat)
    requires MatchAt(s, t, k)
    ensures Includes(ToLower(s), ToLower(t))
  {
    ToLowerSlice(s, k, k + |t|);
    assert MatchAt(ToLower(s), ToLower(t), k);
    IncludesIff(ToLower(s), ToLower(t));
  }

  /** Every string includes the empty string. */
  lemma IncludesEmpty(s: string)
    ensures Includes(s, [])
  {
    assert MatchAt(s, [], 0);
    IncludesIff(s, []);
  }

  lemma AppendAssoc<T>(a: seq<T>, b: seq<T>, c: seq<T>)
    ensures a + (b + c) == a + b + c
  {
  }

  /** `parts.join(sep)`. */
  function Join(parts: seq<string>, sep: char): (r: string)
    requires |parts| >= 1
  {
    if |parts| == 1 then parts[0] else parts[0] + [sep] + Join(parts[1..], sep)
  }

  /** `s.split(sep)` for a one-character separator: the maximal separator-free pieces. */
  function Split(s: string, sep: char): (r: seq<string>)
    ensures |r| >= 1
    ensures forall i :: 0 <= i < |r| ==> sep !in r[i]
    ensures Join(r, sep) == s
  {
    if s == [] then [[]]
    else
      var rest := Split(s[1..], sep);
      if s[0] == sep then [[]] + rest
      else
        var r := [[s[0]] + rest[0]] + rest[1..];
        assert r[1..] == rest[1..];
        r
  }

  /** Splitting undoes joining separator-free pieces. */
  lemma {:induction false} SplitJoin(parts: seq<string>, sep: char)
    requires |parts| >= 1
    requires forall i :: 0 <= i < |parts| ==> sep !in parts[i]
    ensures Split(Join(parts, sep), sep) == parts
    decreases |parts|, |parts[0]|
  {
    var s := Join(parts, sep);
    if parts[0] == [] {
      if |parts| > 1 {
        assert s == [sep] + Join(parts[1..], sep);
        assert s[1..] == Join(parts[1..], sep);
        SplitJoin(parts[1..], sep);
      }
    } else {
      var c := parts[0][0];
      assert c != sep by { assert parts[0][0] in parts[0]; }
      var parts' := [parts[0][1..]] + parts[1..];
      forall i | 0 <= i < |parts'| ensures sep !in parts'[i] {
        if i == 0 {
          assert forall x :: x in parts[0][1..] ==> x in parts[0];
        } else {
          assert parts'[i] == parts[i];
        }
      }
      if |parts| == 1 {
        assert s[1..] == Join(parts', sep);
      } else {
        assert parts'[1..] == parts[1..];
        assert s[1..] == parts[0][1..] + [sep] + Join(parts[1..], sep);
        assert s[1..] == Join(parts', sep);
      }
      SplitJoin(parts', sep);
      assert [c] + parts'[0] == parts[0];
      assert parts == [[c] + parts'[0]] + parts'[1..];
    }
  }

  /** `lines.filter((line) => line.trim())`: the non-blank lines, untrimmed, in order. */
  function NonBlank(lines: seq<string>): (r: seq<string>)
    ensures |r| <= |lines|
    ensures forall i :: 0 <= i < |r| ==> !IsBlank(r[i])
    ensures forall x :: x in r ==> x in lines
  {
    if lines == [] then []
    else (if IsBlank(lines[0]) then [] else [lines[0]]) + NonBlank(lines[1..])
  }

  /** A line survives the filter exactly when it is in the input and not blank. */
  lemma {:induction false} NonBlankMembers(lines: seq<string>, x: string)
    ensures x in NonBlank(lines) <==> x in lines && !IsBlank(x)
  {
    if lines != [] {
      NonBlankMembers(lines[1..], x);
      var head := if IsBlank(lines[0]) then [] else [lines[0]];
      assert NonBlank(lines) == head + NonBlank(lines[1..]);
      assert x in lines <==> x == lines[0] || x in lines[1..] by {
        assert lines == [lines[0]] + lines[1..];
      }
    }
  }

  /** Filtering two chunks separately is filtering their concatenation. */
  lemma {:induction false} NonBlankAppend(a: seq<string>, b: seq<string>)
    ensures NonBlank(a + b) == NonBlank(a) + NonBlank(b)
  {
    if a == [] {
      assert a + b == b;
    } else {
      var head := if IsBlank(a[0]) then [] else [a[0]];
      assert (a + b)[0] == a[0] && (a + b)[1..] == a[1..] + b;
      NonBlankAppend(a[1..], b);
      assert NonBlank(a + b) == head + NonBlank(a[1..] + b);
      assert NonBlank(a) == head + NonBlank(a[1..]);
      AppendAssoc(head, NonBlank(a[1..]), NonBlank(b));
    }
  }
}
