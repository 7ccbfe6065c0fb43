/** String operations the proxy relies on, written out because the model has
    no regular-expression engine and no Python string methods. */
module Text {

  /** Python's `<` on `str`: lexicographic order on code points, a proper
      prefix being smaller. */
  predicate Less(a: string, b: string)
    decreases |a|
  {
    if a == [] then b != []
    else if b == [] then false
    else if a[0] != b[0] then a[0] < b[0]
    else Less(a[1..], b[1..])
  }

  lemma {:induction false} LessIrreflexive(a: string)
    ensures !Less(a, a)
  {
    if a != [] {
      LessIrreflexive(a[1..]);
    }
  }

  lemma {:induction false} LessTransitive(a: string, b: string, c: string)
    requires Less(a, b) && Less(b, c)
    ensures Less(a, c)
  {
    if a != [] && a[0] == b[0] && b[0] == c[0] {
      LessTransitive(a[1..], b[1..], c[1..]);
    }
  }

  /** Any two different strings are ordered one way or the other. */
  lemma {:induction false} LessTotal(a: string, b: string)
    ensures a == b || Less(a, b) || Less(b, a)
  {
    if a != [] && b != [] && a[0] == b[0] {
      LessTotal(a[1..], b[1..]);
      if a[1..] == b[1..] {
        assert a == [a[0]] + a[1..] && b == [b[0]] + b[1..];
      }
    }
  }

  lemma LessAsymmetric(a: string, b: string)
    requires Less(a, b)
    ensures !Less(b, a)
  {
    if Less(b, a) {
      LessTransitive(a, b, a);
      LessIrreflexive(a);
    }
  }

  /** Less-or-equal in Python's string order. */
  predicate AtMost(a: string, b: string)
  {
    !Less(b, a)
  }

  lemma AtMostTransitive(a: string, b: string, c: string)
    requires AtMost(a, b) && AtMost(b, c)
    ensures AtMost(a, c)
  {
    LessTotal(a, b);
    LessTotal(b, c);
    if Less(c, a) {
      if a == b {
      } else if b == c {
      } else {
        LessTransitive(a, b, c);
        LessAsymmetric(a, c);
      }
    }
  }

  /** The larger of two strings in Python's order; `b` on a tie. */
  function Max(a: string, b: string): (r: string)
    ensures r == a || r == b
    ensures AtMost(a, r) && AtMost(b, r)
  {
    LessIrreflexive(a);
    LessIrreflexive(b);
    if Less(b, a) then
      LessAsymmetric(b, a);
      a
    else
      LessTotal(a, b);
      b
  }

  /** `t` occurs in `s` as a contiguous block. */
  predicate Occurs(t: string, s: string)
    decreases |s|
  {
    |t| <= |s| && (s[..|t|] == t || (s != [] && Occurs(t, s[1..])))
  }

  /** Python's `s.replace(pat, repl)`: every non-overlapping occurrence of
      `pat`, scanning left to right, is replaced; an empty `pat` inserts
      `repl` before every character and at the end. */
  function ReplaceAll(s: string, pat: string, repl: string): string
    decreases |s|
  {
    if pat == [] then
      if s == [] then repl else repl + [s[0]] + ReplaceAll(s[1..], pat, repl)
    else if |s| < |pat| then s
    else if s[..|pat|] == pat then repl + ReplaceAll(s[|pat|..], pat, repl)
    else [s[0]] + ReplaceAll(s[1..], pat, repl)
  }

  lemma {:induction false} ReplaceAllAbsent(s: string, pat: string, repl: string)
    requires pat != [] && !Occurs(pat, s)
    ensures ReplaceAll(s, pat, repl) == s
  {
    if |s| >= |pat| {
      ReplaceAllAbsent(s[1..], pat, repl);
      assert s == [s[0]] + s[1..];
    }
  }

  /** A block whose first character is absent from `s` does not occur in it. */
  lemma {:induction false} AbsentHeadNotOccurs(t: string, s: string)
    requires t != [] && t[0] !in s
    ensures !Occurs(t, s)
    decreases |s|
  {
    if |t| <= |s| {
      assert s[..|t|][0] == s[0];
      AbsentHeadNotOccurs(t, s[1..]);
    }
  }

  /** Replacement passes over a prefix in which no occurrence can start. */
  lemma {:induction false} ReplaceAllSkips(prefix: string, rest: string, pat: string, repl: string)
    requires pat != [] && pat[0] !in prefix
    ensures ReplaceAll(prefix + rest, pat, repl) == prefix + ReplaceAll(rest, pat, repl)
    decreases |prefix|
  {
    if prefix != [] {
      var s := prefix + rest;
      assert s[0] == prefix[0] && s[1..] == prefix[1..] + rest;
      if |s| >= |pat| {
        assert s[..|pat|][0] == prefix[0];
        ReplaceAllSkips(prefix[1..], rest, pat, repl);
        assert prefix == [prefix[0]] + prefix[1..];
      } else {
        assert ReplaceAll(rest, pat, repl) == rest;
      }
    } else {
      assert prefix + rest == rest;
    }
  }

  /** Removing a leading `pat` that occurs nowhere else leaves the rest. */
  lemma ReplaceAllLeading(pat: string, rest: string)
    requires pat != [] && !Occurs(pat, rest)
    ensures ReplaceAll(pat + rest, pat, "") == rest
  {
    assert (pat + rest)[..|pat|] == pat && (pat + rest)[|pat|..] == rest;
    ReplaceAllAbsent(rest, pat, "");
  }

  /** `s` with every occurrence of `c` removed (`s.replace(' ', '')`). */
  function RemoveChar(s: string, c: char): (r: string)
    ensures c !in r
    ensures forall i :: 0 <= i < |r| ==> r[i] in s
    ensures forall i :: 0 <= i < |s| && s[i] != c ==> s[i] in r
    ensures c !in s ==> r == s
  {
    if s == [] then []
    else if s[0] == c then RemoveChar(s[1..], c)
    else [s[0]] + RemoveChar(s[1..], c)
  }

  /** Removal works piecewise: removing from a concatenation is removing
      from each part. With `RemoveChar`'s own contract on one character,
      this fixes the order and multiplicity of what is kept. */
  lemma {:induction false} RemoveCharAppend(a: string, b: string, c: char)
    ensures RemoveChar(a + b, c) == RemoveChar(a, c) + RemoveChar(b, c)
    decreases |a|
  {
    if a != [] {
      assert (a + b)[1..] == a[1..] + b;
      RemoveCharAppend(a[1..], b, c);
    } else {
      assert a + b == b;
    }
  }

  /** Python's `s.split(sep)` for a one-character separator: empty fields are
      kept, and the empty string splits into one empty field. */
  function Split(s: string, sep: char): (parts: seq<string>)
    ensures |parts| >= 1
    ensures forall i :: 0 <= i < |parts| ==> sep !in parts[i]
    decreases |s|
  {
    if s == [] then [[]]
    else
      var rest := Split(s[1..], sep);
      if s[0] == sep then [[]] + rest else [[s[0]] + rest[0]] + rest[1..]
  }

  /** Python's `sep.join(parts)`. */
  function Join(parts: seq<string>, sep: char): string
    decreases |parts|
  {
    if parts == [] then []
    else if |parts| == 1 then parts[0]
    else parts[0] + [sep] + Join(parts[1..], sep)
  }

  /** Joining the fields of a split gives back the string. */
  lemma {:induction false} JoinSplit(s: string, sep: char)
    ensures Join(Split(s, sep), sep) == s
  {
    if s != [] {
      var rest := Split(s[1..], sep);
      JoinSplit(s[1..], sep);
      if s[0] == sep {
        assert Split(s, sep) == [[]] + rest;
        assert ([[]] + rest)[1..] == rest;
      } else {
        var parts := [[s[0]] + rest[0]] + rest[1..];
        assert Split(s, sep) == parts;
        if |rest| == 1 {
          assert Join(rest, sep) == rest[0];
        } else {
          assert parts[1..] == rest[1..];
          assert Join(rest, sep) == rest[0] + [sep] + Join(rest[1..], sep);
        }
        assert s == [s[0]] + s[1..];
      }
    }
  }

  lemma {:induction false} SplitNoSeparator(w: string, sep: char)
    requires sep !in w
    ensures Split(w, sep) == [w]
  {
    if w != [] {
      SplitNoSeparator(w[1..], sep);
      assert w == [w[0]] + w[1..];
    }
  }

  lemma {:induction false} SplitAfterField(w: string, b: string, sep: char)
    requires sep !in w
    ensures Split(w + [sep] + b, sep) == [w] + Split(b, sep)
  {
    var s := w + [sep] + b;
    if w == [] {
      assert s[1..] == b;
    } else {
      assert s[1..] == w[1..] + [sep] + b;
      SplitAfterField(w[1..], b, sep);
      assert w == [w[0]] + w[1..];
    }
  }

  /** Splitting a join of separator-free fields gives back the fields. */
  lemma {:induction false} SplitJoin(parts: seq<string>, sep: char)
    requires |parts| >= 1
    requires forall i :: 0 <= i < |parts| ==> sep !in parts[i]
    ensures Split(Join(parts, sep), sep) == parts
  {
    if |parts| == 1 {
      SplitNoSeparator(parts[0], sep);
    } else {
      SplitJoin(parts[1..], sep);
      SplitAfterField(parts[0], Join(parts[1..], sep), sep);
      assert parts == [parts[0]] + parts[1..];
    }
  }

  predicate IsDigit(c: char)
  {
    '0' <= c <= '9'
  }
}
