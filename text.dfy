/**
 * String helpers used by the relay: the whitespace class Foundation trims,
 * splitting on and joining with line feeds, prefix and suffix tests, and the
 * ascending order in which queue file names are processed.
 *
 * Strings are sequences of Unicode scalar values; grapheme clustering and
 * canonical equivalence, which Swift's String applies, are not modelled.
 */
module Text {

  /** Foundation's `whitespacesAndNewlines`: tab, U+000A..U+000D, U+0085 and
      the Unicode separators (general categories Zs, Zl, Zp). */
  predicate IsSpace(c: char)
  {
    c == '\t' || ('\n' <= c <= '\r') || c == ' ' || c == '\U{85}' || c == '\U{A0}'
    || c == '\U{1680}' || ('\U{2000}' <= c <= '\U{200A}') || c == '\U{2028}'
    || c == '\U{2029}' || c == '\U{202F}' || c == '\U{205F}' || c == '\U{3000}'
  }

  predicate StartsWith(s: string, prefix: string)
  {
    |prefix| <= |s| && s[..|prefix|] == prefix
  }

  predicate EndsWith(s: string, suffix: string)
  {
    |suffix| <= |s| && s[|s| - |suffix|..] == suffix
  }

  // ---------------------------------------------------------------------
  // Trimming

  /** Drops leading whitespace: what remains is a suffix of `s` that does
      not start with whitespace, and everything dropped was whitespace. */
  function TrimStart(s: string): (r: string)
    ensures |r| <= |s| && r == s[|s| - |r|..]
    ensures forall k :: 0 <= k < |s| - |r| ==> IsSpace(s[k])
    ensures r == [] || !IsSpace(r[0])
    decreases |s|
  {
    if s != [] && IsSpace(s[0]) then TrimStart(s[1..]) else s
  }

  /** Drops trailing whitespace: what remains is a prefix of `s` that does
      not end with whitespace, and everything dropped was whitespace. */
  function TrimEnd(s: string): (r: string)
    ensures |r| <= |s| && r == s[..|r|]
    ensures forall k :: |r| <= k < |s| ==> IsSpace(s[k])
    ensures r == [] || !IsSpace(r[|r| - 1])
    decreases |s|
  {
    if s != [] && IsSpace(s[|s| - 1]) then TrimEnd(s[..|s| - 1]) else s
  }

  predicate AllSpace(t: string)
  {
    forall k :: 0 <= k < |t| ==> IsSpace(t[k])
  }

  /** `trimmingCharacters(in: .whitespacesAndNewlines)`: `s` is the result
      with whitespace only around it, and the result neither starts nor ends
      with whitespace. */
  function Trim(s: string): (r: string)
    ensures exists i {:trigger AllSpace(s[..i])} :: 0 <= i <= |s| - |r| && r == s[i..i + |r|]
              && AllSpace(s[..i]) && AllSpace(s[i + |r|..])
    ensures r == [] || (!IsSpace(r[0]) && !IsSpace(r[|r| - 1]))
  {
    var t := TrimStart(s);
    var r := TrimEnd(t);
    var i := |s| - |t|;
    assert AllSpace(s[..i]) by {
      forall k | 0 <= k < i ensures IsSpace(s[..i][k]) {
        assert s[..i][k] == s[k];
      }
    }
    assert AllSpace(s[i + |r|..]) by {
      var tail := s[i + |r|..];
      forall k | 0 <= k < |tail| ensures IsSpace(tail[k]) {
        assert tail[k] == t[|r| + k];
      }
    }
    assert r == s[i..i + |r|];
    r
  }

  // ---------------------------------------------------------------------
  // Lines

  /** Position of the first occurrence of `c` in `s`. */
  function IndexOf(s: string, c: char): (i: nat)
    requires c in s
    ensures i < |s| && s[i] == c && c !in s[..i]
  {
    if s[0] == c then 0 else 1 + IndexOf(s[1..], c)
  }

  /** The first occurrence is the one with no earlier occurrence. */
  lemma IndexOfUnique(s: string, c: char, j: nat)
    requires j < |s| && s[j] == c && c !in s[..j]
    ensures IndexOf(s, c) == j
  {
    var i := IndexOf(s, c);
  }

  /** `components(separatedBy: "\n")`: the pieces between line feeds. */
  function Lines(s: string): (parts: seq<string>)
    ensures |parts| >= 1
    ensures forall i :: 0 <= i < |parts| ==> '\n' !in parts[i]
    decreases |s|
  {
    if '\n' in s then
      var i := IndexOf(s, '\n');
      [s[..i]] + Lines(s[i + 1..])
    else
      [s]
  }

  /** `joined(separator: "\n")`. */
  function JoinLines(parts: seq<string>): string
  {
    if parts == [] then ""
    else if |parts| == 1 then parts[0]
    else parts[0] + "\n" + JoinLines(parts[1..])
  }

  /** Joining the pieces of a split gives back the text. */
  lemma {:induction false} JoinLinesOfLines(s: string)
    ensures JoinLines(Lines(s)) == s
    decreases |s|
  {
    if '\n' in s {
      var i := IndexOf(s, '\n');
      var rest := s[i + 1..];
      var tail := Lines(rest);
      JoinLinesOfLines(rest);
      assert Lines(s) == [s[..i]] + tail;
      assert ([s[..i]] + tail)[1..] == tail;
      assert s == s[..i] + [s[i]] + s[i + 1..];
      calc {
        JoinLines(Lines(s));
        s[..i] + "\n" + JoinLines(tail);
        s[..i] + "\n" + rest;
        { assert s[i] == '\n'; }
        s;
      }
    }
  }

  /** The first piece is the text before the first line feed, and the other
      pieces re-joined are the text after it. */
  lemma LinesHeadAndTail(s: string)
    ensures '\n' !in s ==> Lines(s) == [s]
    ensures '\n' in s ==> Lines(s)[0] == s[..IndexOf(s, '\n')]
                          && JoinLines(Lines(s)[1..]) == s[IndexOf(s, '\n') + 1..]
  {
    if '\n' in s {
      var i := IndexOf(s, '\n');
      JoinLinesOfLines(s[i + 1..]);
      assert Lines(s)[1..] == Lines(s[i + 1..]);
    }
  }

  // ---------------------------------------------------------------------
  // Ordering of names

  /** Lexicographic order on code points; a proper prefix comes first. */
  predicate Below(a: string, b: string)
    decreases |a|
  {
    |b| > 0 && (|a| == 0 || a[0] < b[0] || (a[0] == b[0] && Below(a[1..], b[1..])))
  }

  lemma {:induction false} BelowIrreflexive(a: string)
    ensures !Below(a, a)
    decreases |a|
  {
    if |a| > 0 {
      BelowIrreflexive(a[1..]);
    }
  }

  lemma {:induction false} BelowTransitive(a: string, b: string, c: string)
    requires Below(a, b) && Below(b, c)
    ensures Below(a, c)
    decreases |a|
  {
    if |a| > 0 && a[0] == b[0] && b[0] == c[0] {
      BelowTransitive(a[1..], b[1..], c[1..]);
    }
  }

  lemma {:induction false} BelowTotal(a: string, b: string)
    ensures a == b || Below(a, b) || Below(b, a)
    decreases |a|
  {
    if |a| > 0 && |b| > 0 && a[0] == b[0] {
      BelowTotal(a[1..], b[1..]);
      if a[1..] == b[1..] {
        assert a == [a[0]] + a[1..] && b == [b[0]] + b[1..];
      }
    }
  }

  lemma BelowAsymmetric(a: string, b: string)
    requires Below(a, b)
    ensures !Below(b, a)
  {
    if Below(b, a) {
      BelowTransitive(a, b, a);
      BelowIrreflexive(a);
    }
  }

  /** Each name is at or above its predecessor. */
  predicate Ascending(s: seq<string>)
  {
    forall i :: 0 < i < |s| ==> !Below(s[i], s[i - 1])
  }

  function Insert(x: string, s: seq<string>): (r: seq<string>)
    requires Ascending(s)
    ensures Ascending(r)
    ensures multiset(r) == multiset(s) + multiset{x}
    ensures r[0] == x || (s != [] && r[0] == s[0])
  {
    if s == [] || !Below(s[0], x) then
      [x] + s
    else
      var t := Insert(x, s[1..]);
      BelowAsymmetric(s[0], x);
      assert s == [s[0]] + s[1..];
      [s[0]] + t
  }

  /** Swift's `sorted()` on names: an ascending permutation of the input. */
  function SortNames(s: seq<string>): (r: seq<string>)
    ensures Ascending(r)
    ensures multiset(r) == multiset(s)
  {
    if s == [] then [] else
      assert s == [s[0]] + s[1..];
      Insert(s[0], SortNames(s[1..]))
  }
}
