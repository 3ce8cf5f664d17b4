/**
 * The string operations of Python that the bot relies on: `strip`,
 * `lower`, `in` on strings, `split`, `join` and `replace`, with the facts
 * about them that the adapters' contracts are built on.
 */
module Text {

  /**
   * The characters that `str.isspace()`, `str.strip()` and the
   * regular-expression class `\s` treat as whitespace.
   */
  predicate IsSpace(c: char)
  {
    || '\t' <= c <= '\r'
    || '\U{1C}' <= c <= ' '
    || c == '\U{85}' || c == '\U{A0}' || c == '\U{1680}'
    || '\U{2000}' <= c <= '\U{200A}'
    || c == '\U{2028}' || c == '\U{2029}' || c == '\U{202F}' || c == '\U{205F}' || c == '\U{3000}'
  }

  /** `s.lstrip(chars)`, where `drop` tells the characters of `chars`. */
  function TrimStart(s: string, drop: char -> bool): (r: string)
    ensures |r| <= |s|
    ensures r != [] ==> !drop(r[0])
  {
    if s != [] && drop(s[0]) then TrimStart(s[1..], drop) else s
  }

  /** `lstrip` removes a prefix. */
  lemma {:induction false} TrimStartSuffix(s: string, drop: char -> bool)
    ensures TrimStart(s, drop) == s[|s| - |TrimStart(s, drop)|..]
    decreases |s|
  {
    if s != [] && drop(s[0]) {
      TrimStartSuffix(s[1..], drop);
    }
  }

  /** Every character `lstrip` removes is one of `chars`. */
  lemma {:induction false} TrimStartDropped(s: string, drop: char -> bool)
    ensures forall i :: 0 <= i < |s| - |TrimStart(s, drop)| ==> drop(s[i])
    decreases |s|
  {
    if s != [] && drop(s[0]) {
      TrimStartDropped(s[1..], drop);
      forall i | 1 <= i < |s| - |TrimStart(s, drop)|
        ensures drop(s[i])
      {
        assert s[i] == s[1..][i - 1];
      }
    }
  }

  /** `s.rstrip(chars)`. */
  function TrimEnd(s: string, drop: char -> bool): (r: string)
    ensures |r| <= |s|
    ensures r != [] ==> !drop(r[|r| - 1])
  {
    if s != [] && drop(s[|s| - 1]) then TrimEnd(s[..|s| - 1], drop) else s
  }

  /** `rstrip` removes a suffix. */
  lemma {:induction false} TrimEndPrefix(s: string, drop: char -> bool)
    ensures TrimEnd(s, drop) == s[..|TrimEnd(s, drop)|]
    decreases |s|
  {
    if s != [] && drop(s[|s| - 1]) {
      TrimEndPrefix(s[..|s| - 1], drop);
    }
  }

  /** Every character `rstrip` removes is one of `chars`. */
  lemma {:induction false} TrimEndDropped(s: string, drop: char -> bool)
    ensures forall i :: |TrimEnd(s, drop)| <= i < |s| ==> drop(s[i])
    decreases |s|
  {
    if s != [] && drop(s[|s| - 1]) {
      TrimEndDropped(s[..|s| - 1], drop);
      forall i | |TrimEnd(s, drop)| <= i < |s| - 1
        ensures drop(s[i])
      {
        assert s[i] == s[..|s| - 1][i];
      }
    }
  }

  /** `lstrip` removes a leading run of dropped characters and stops at the first kept one. */
  lemma {:induction false} TrimStartPast(q: string, t: string, drop: char -> bool)
    requires forall i :: 0 <= i < |q| ==> drop(q[i])
    requires t == [] || !drop(t[0])
    ensures TrimStart(q + t, drop) == t
    decreases |q|
  {
    if q == [] {
      assert q + t == t;
    } else {
      assert (q + t)[1..] == q[1..] + t;
      TrimStartPast(q[1..], t, drop);
    }
  }

  /** `rstrip` removes a trailing run of dropped characters and stops at the last kept one. */
  lemma {:induction false} TrimEndPast(t: string, q: string, drop: char -> bool)
    requires forall i :: 0 <= i < |q| ==> drop(q[i])
    requires t == [] || !drop(t[|t| - 1])
    ensures TrimEnd(t + q, drop) == t
    decreases |q|
  {
    if q == [] {
      assert t + q == t;
    } else {
      assert (t + q)[..|t + q| - 1] == t + q[..|q| - 1];
      TrimEndPast(t, q[..|q| - 1], drop);
    }
  }

  /** `s.strip(chars)`. */
  function StripChars(s: string, drop: char -> bool): string
  {
    TrimEnd(TrimStart(s, drop), drop)
  }

  /** `s.strip()`. */
  function Strip(s: string): string
  {
    StripChars(s, IsSpace)
  }

  /** A string that `strip()` leaves as it is and that is not blank. */
  predicate IsStrippedNonBlank(t: string)
  {
    t != [] && !IsSpace(t[0]) && !IsSpace(t[|t| - 1])
  }

  /** What remains after stripping is a slice of the input. */
  lemma StripIsSlice(s: string, drop: char -> bool)
    ensures var k := |s| - |TrimStart(s, drop)|;
      0 <= k <= k + |StripChars(s, drop)| <= |s| && StripChars(s, drop) == s[k..k + |StripChars(s, drop)|]
  {
    var t := TrimStart(s, drop);
    var k := |s| - |t|;
    var r := TrimEnd(t, drop);
    TrimStartSuffix(s, drop);
    TrimEndPrefix(t, drop);
    assert t == s[k..];
    assert r == t[..|r|];
    assert r == s[k..k + |r|];
  }

  /** `s.strip()` is empty exactly when every character of `s` is whitespace. */
  lemma StripBlank(s: string)
    ensures Strip(s) == [] <==> forall i :: 0 <= i < |s| ==> IsSpace(s[i])
  {
    var t := TrimStart(s, IsSpace);
    TrimStartDropped(s, IsSpace);
    TrimStartSuffix(s, IsSpace);
    TrimEndDropped(t, IsSpace);
    if t != [] {
      assert t[0] == s[|s| - |t|];
    }
  }

  /** A non-blank result of `strip()` is stripped and non-blank. */
  lemma StripShape(s: string)
    ensures Strip(s) != [] ==> IsStrippedNonBlank(Strip(s))
  {
    var t := TrimStart(s, IsSpace);
    var r := TrimEnd(t, IsSpace);
    TrimEndPrefix(t, IsSpace);
    if r != [] {
      assert r[0] == t[0];
    }
  }

  /** `strip()` leaves a stripped non-blank string unchanged. */
  lemma StripFixed(t: string)
    requires IsStrippedNonBlank(t)
    ensures Strip(t) == t
  {
    assert TrimStart(t, IsSpace) == t;
  }

  /** `strip()` is idempotent. */
  lemma StripIdempotent(s: string)
    ensures Strip(Strip(s)) == Strip(s)
  {
    StripShape(s);
    if Strip(s) != [] {
      StripFixed(Strip(s));
    }
  }

  function LowerChar(c: char): char
  {
    if 'A' <= c <= 'Z' then ((c as int) + 32) as char else c
  }

  /** `s.lower()` on the ASCII letters. */
  function Lower(s: string): string
  {
    seq(|s|, i requires 0 <= i < |s| => LowerChar(s[i]))
  }

  /** Lower-casing works piece by piece. */
  lemma LowerConcat(a: string, b: string)
    ensures Lower(a + b) == Lower(a) + Lower(b)
  {
    assert forall i :: 0 <= i < |a + b| ==> (a + b)[i] == if i < |a| then a[i] else b[i - |a|];
  }

  /** A lower-cased string lower-cases to itself, and has no upper-case ASCII letter. */
  lemma LowerIdempotent(s: string)
    ensures Lower(Lower(s)) == Lower(s)
    ensures forall i :: 0 <= i < |Lower(s)| ==> !('A' <= Lower(s)[i] <= 'Z')
  {
  }

  /** `sub` occurs in `s` starting at index `i`. */
  predicate OccursAt(s: string, sub: string, i: int)
  {
    0 <= i && i + |sub| <= |s| && s[i..i + |sub|] == sub
  }

  /** `sub in s`. */
  predicate Contains(s: string, sub: string)
  {
    exists i :: 0 <= i <= |s| - |sub| && OccursAt(s, sub, i)
  }

  /** A substring found in a slice is found in the whole string. */
  lemma ContainsSlice(s: string, a: int, b: int, sub: string)
    requires 0 <= a <= b <= |s|
    requires Contains(s[a..b], sub)
    ensures Contains(s, sub)
  {
    var i :| 0 <= i <= (b - a) - |sub| && OccursAt(s[a..b], sub, i);
    forall j | 0 <= j < |sub|
      ensures s[a + i + j] == sub[j]
    {
      assert s[a..b][i..i + |sub|][j] == sub[j];
    }
    assert s[a + i..a + i + |sub|] == sub;
    assert OccursAt(s, sub, a + i);
  }

  /** `s.endswith(suffix)`. */
  predicate EndsWith(s: string, suffix: string)
  {
    |suffix| <= |s| && s[|s| - |suffix|..] == suffix
  }

  /** `s.startswith(prefix)`. */
  predicate StartsWith(s: string, prefix: string)
  {
    |prefix| <= |s| && s[..|prefix|] == prefix
  }

  /** `s` has no character equal to `c`. */
  predicate Lacks(s: string, c: char)
  {
    forall i :: 0 <= i < |s| ==> s[i] != c
  }

  /** `s.replace(c, '')` for a single character `c`. */
  function RemoveChar(s: string, c: char): (r: string)
    ensures Lacks(r, c)
    ensures |r| <= |s|
    ensures Lacks(s, c) ==> r == s
  {
    if s == [] then []
    else (if s[0] == c then [] else [s[0]]) + RemoveChar(s[1..], c)
  }

  /**
   * `s.split(sep)` for a non-empty separator: the pieces between the
   * leftmost non-overlapping occurrences of `sep`.
   */
  function SplitOn(s: string, sep: string): (r: seq<string>)
    requires sep != []
    ensures |r| >= 1
    decreases |s|
  {
    if |s| < |sep| then [s]
    else if s[..|sep|] == sep then [""] + SplitOn(s[|sep|..], sep)
    else
      var rest := SplitOn(s[1..], sep);
      [[s[0]] + rest[0]] + rest[1..]
  }

  /** `sep.join(parts)`. */
  function Join(parts: seq<string>, sep: string): string
  {
    if parts == [] then ""
    else if |parts| == 1 then parts[0]
    else parts[0] + sep + Join(parts[1..], sep)
  }

  /** Prefixing a character to the first part prefixes it to the join. */
  lemma JoinConsFirst(c: char, parts: seq<string>, sep: string)
    requires parts != []
    ensures Join([[c] + parts[0]] + parts[1..], sep) == [c] + Join(parts, sep)
  {
    var r := [[c] + parts[0]] + parts[1..];
    if |parts| > 1 {
      assert r[1..] == parts[1..];
      var tail := sep + Join(parts[1..], sep);
      assert Join(r, sep) == ([c] + parts[0]) + tail;
    }
  }

  /** An empty first part contributes only the separator. */
  lemma JoinConsEmpty(parts: seq<string>, sep: string)
    requires parts != []
    ensures Join([""] + parts, sep) == sep + Join(parts, sep)
  {
    assert ([""] + parts)[1..] == parts;
  }

  /** Joining the pieces of a split with the same separator gives back the string. */
  lemma {:induction false} SplitJoin(s: string, sep: string)
    requires sep != []
    ensures Join(SplitOn(s, sep), sep) == s
    decreases |s|
  {
    if |s| < |sep| {
    } else if s[..|sep|] == sep {
      SplitJoin(s[|sep|..], sep);
      JoinConsEmpty(SplitOn(s[|sep|..], sep), sep);
      assert s == sep + s[|sep|..];
    } else {
      SplitJoin(s[1..], sep);
      JoinConsFirst(s[0], SplitOn(s[1..], sep), sep);
      assert s == [s[0]] + s[1..];
    }
  }

  /** A string without the separator's first character splits into itself. */
  lemma {:induction false} SplitLacking(a: string, sep: string)
    requires sep != [] && Lacks(a, sep[0])
    ensures SplitOn(a, sep) == [a]
    decreases |a|
  {
    if |a| < |sep| {
    } else {
      assert a[..|sep|][0] == a[0];
      SplitLacking(a[1..], sep);
      assert [a[0]] + a[1..] == a;
    }
  }

  /** A leading piece without the separator's first character splits off exactly. */
  lemma {:induction false} SplitAfterLacking(a: string, b: string, sep: string)
    requires sep != [] && Lacks(a, sep[0])
    ensures SplitOn(a + sep + b, sep) == [a] + SplitOn(b, sep)
    decreases |a|
  {
    var s := a + sep + b;
    if a == [] {
      assert s[..|sep|] == sep;
      assert s[|sep|..] == b;
    } else {
      assert s[..|sep|][0] == a[0];
      assert s[1..] == a[1..] + sep + b;
      SplitAfterLacking(a[1..], b, sep);
      assert [a[0]] + a[1..] == a;
    }
  }

  /**
   * Splitting undoes joining when no part contains the separator's first
   * character (in particular, for one-character separators, when no part
   * contains the separator).
   */
  lemma {:induction false} JoinSplit(parts: seq<string>, sep: string)
    requires sep != [] && parts != []
    requires forall i :: 0 <= i < |parts| ==> Lacks(parts[i], sep[0])
    ensures SplitOn(Join(parts, sep), sep) == parts
    decreases |parts|
  {
    if |parts| == 1 {
      SplitLacking(parts[0], sep);
    } else {
      JoinSplit(parts[1..], sep);
      SplitAfterLacking(parts[0], Join(parts[1..], sep), sep);
      assert [parts[0]] + parts[1..] == parts;
    }
  }

  /** An occurrence past the first character is one in the string without it. */
  lemma OccursShifted(s: string, sub: string, i: int)
    requires 0 < i && s != []
    ensures OccursAt(s, sub, i) <==> OccursAt(s[1..], sub, i - 1)
  {
    if i + |sub| <= |s| {
      assert s[1..][i - 1..i - 1 + |sub|] == s[i..i + |sub|];
    }
  }

  /**
   * The first piece of a split is a prefix of the string with no
   * occurrence of the separator starting inside it; when more pieces
   * follow, the separator sits right after it and the rest of the pieces
   * are the split of what follows.
   */
  lemma SplitFirstPiece(s: string, sep: string)
    requires sep != []
    ensures var r := SplitOn(s, sep);
      && |r[0]| <= |s| && r[0] == s[..|r[0]|]
      && (forall i :: 0 <= i < |r[0]| ==> !OccursAt(s, sep, i))
      && (|r| == 1 ==> r[0] == s)
      && (|r| > 1 ==> OccursAt(s, sep, |r[0]|) && SplitOn(s[|r[0]| + |sep|..], sep) == r[1..])
  {
    SplitFirstPrefix(s, sep);
    SplitFirstRest(s, sep);
  }

  /** The first piece of a split is a prefix without an occurrence of the separator starting inside it. */
  lemma {:induction false} SplitFirstPrefix(s: string, sep: string)
    requires sep != []
    ensures var r := SplitOn(s, sep);
      && |r[0]| <= |s| && r[0] == s[..|r[0]|]
      && (forall i :: 0 <= i < |r[0]| ==> !OccursAt(s, sep, i))
      && (|r| == 1 ==> r[0] == s)
    decreases |s|
  {
    var r := SplitOn(s, sep);
    if |s| < |sep| {
    } else if s[..|sep|] == sep {
      assert OccursAt(s, sep, 0);
    } else {
      var rest := SplitOn(s[1..], sep);
      SplitFirstPrefix(s[1..], sep);
      assert r[0] == [s[0]] + rest[0];
      assert r[0] == s[..|r[0]|];
      forall i | 0 <= i < |r[0]|
        ensures !OccursAt(s, sep, i)
      {
        if i > 0 {
          OccursShifted(s, sep, i);
        }
      }
    }
  }

  /** When more pieces follow the first, the separator sits right after it and the rest are the split of what follows. */
  lemma {:induction false} SplitFirstRest(s: string, sep: string)
    requires sep != []
    ensures var r := SplitOn(s, sep);
      |r| > 1 ==> OccursAt(s, sep, |r[0]|) && SplitOn(s[|r[0]| + |sep|..], sep) == r[1..]
    decreases |s|
  {
    var r := SplitOn(s, sep);
    if |s| < |sep| {
    } else if s[..|sep|] == sep {
      var tail := SplitOn(s[|sep|..], sep);
      assert r == [""] + tail;
      assert |r[0]| == 0 && r[1..] == tail;
      assert s[|r[0]| + |sep|..] == s[|sep|..];
      assert OccursAt(s, sep, 0);
    } else {
      var rest := SplitOn(s[1..], sep);
      SplitFirstRest(s[1..], sep);
      if |r| > 1 {
        var k := |rest[0]|;
        assert r == [[s[0]] + rest[0]] + rest[1..];
        assert |rest| > 1 && |r[0]| == k + 1 && r[1..] == rest[1..];
        OccursShifted(s, sep, k + 1);
        var after := s[k + 1 + |sep|..];
        DropAfterFirst(s, k + 1 + |sep|);
        assert s[1..][k + |sep|..] == after;
        assert SplitOn(after, sep) == rest[1..];
        assert s[|r[0]| + |sep|..] == after;
      }
    }
  }

  /** Dropping `n - 1` after the first character drops `n`. */
  lemma DropAfterFirst(s: string, n: int)
    requires 1 <= n <= |s|
    ensures s[1..][n - 1..] == s[n..]
  {
  }

  /** An occurrence inside a prefix is an occurrence in the whole string. */
  lemma OccursInPrefix(s: string, p: string, sub: string, i: int)
    requires |p| <= |s| && p == s[..|p|]
    ensures OccursAt(p, sub, i) ==> OccursAt(s, sub, i)
  {
    if OccursAt(p, sub, i) {
      assert s[i..i + |sub|] == p[i..i + |sub|];
    }
  }

  /** No piece of `s.split(sep)` contains `sep`. */
  lemma {:induction false} SplitPiecesLackSep(s: string, sep: string)
    requires sep != []
    ensures forall k :: 0 <= k < |SplitOn(s, sep)| ==> !Contains(SplitOn(s, sep)[k], sep)
    decreases |s|
  {
    var r := SplitOn(s, sep);
    SplitFirstPiece(s, sep);
    forall i | 0 <= i <= |r[0]| - |sep|
      ensures !OccursAt(r[0], sep, i)
    {
      OccursInPrefix(s, r[0], sep, i);
    }
    if |r| > 1 {
      var tail := s[|r[0]| + |sep|..];
      SplitPiecesLackSep(tail, sep);
      forall k | 1 <= k < |r|
        ensures !Contains(r[k], sep)
      {
        assert r[k] == SplitOn(tail, sep)[k - 1];
      }
    }
  }

  /** `s.split(sep)` has more than one piece exactly when `sep in s`. */
  lemma SplitCount(s: string, sep: string)
    requires sep != []
    ensures |SplitOn(s, sep)| > 1 <==> Contains(s, sep)
  {
    var r := SplitOn(s, sep);
    SplitFirstPiece(s, sep);
    if |r| > 1 {
      assert OccursAt(s, sep, |r[0]|);
    } else {
      assert r[0] == s;
    }
  }

  /** Stripping cannot create an occurrence of a substring. */
  lemma StripKeepsAbsence(s: string, sub: string)
    requires !Contains(s, sub)
    ensures !Contains(Strip(s), sub)
  {
    StripIsSlice(s, IsSpace);
    var k := |s| - |TrimStart(s, IsSpace)|;
    if Contains(Strip(s), sub) {
      ContainsSlice(s, k, k + |Strip(s)|, sub);
    }
  }

  /** Stripping cannot introduce a character. */
  lemma StripKeepsLack(s: string, c: char)
    requires Lacks(s, c)
    ensures Lacks(Strip(s), c)
  {
    StripIsSlice(s, IsSpace);
  }
}
