/** Placeholder substitution for the transform route: every `{{name}}`
    token of the path is replaced by the body's field `name`. */
module Transform {
  import opened Common
  import opened Text

  /** The first `}}` at or after `j` with no newline before it: where a
      non-greedy `{{.*?}}` opened before `j` ends. */
  function CloseAt(s: string, j: nat): (r: Option<nat>)
    requires j <= |s|
    ensures r.Some? ==> j <= r.value && r.value + 2 <= |s| && s[r.value] == '}' && s[r.value + 1] == '}'
    decreases |s| - j
  {
    if j + 2 > |s| then None
    else if s[j] == '}' && s[j + 1] == '}' then Some(j)
    else if s[j] == '\n' then None
    else CloseAt(s, j + 1)
  }

  /** The close is the first `}}` from `j` on, with no newline before it;
      there is none when every `}}` from `j` on has a newline before it. */
  lemma {:induction false} CloseAtFirst(s: string, j: nat)
    requires j <= |s|
    ensures CloseAt(s, j).Some? ==>
      forall k :: j <= k < CloseAt(s, j).value ==> s[k] != '\n' && !(s[k] == '}' && s[k + 1] == '}')
    ensures CloseAt(s, j).None? ==>
      forall k :: j <= k && k + 2 <= |s| && s[k] == '}' && s[k + 1] == '}' ==> '\n' in s[j..k]
    decreases |s| - j
  {
    if j + 2 <= |s| && !(s[j] == '}' && s[j + 1] == '}') {
      if s[j] == '\n' {
        forall k | j <= k && k + 2 <= |s| && s[k] == '}' && s[k + 1] == '}'
          ensures '\n' in s[j..k]
        {
          assert s[j..k][0] == '\n';
        }
      } else {
        CloseAtFirst(s, j + 1);
        if CloseAt(s, j).None? {
          forall k | j <= k && k + 2 <= |s| && s[k] == '}' && s[k + 1] == '}'
            ensures '\n' in s[j..k]
          {
            assert s[j..k] == [s[j]] + s[j + 1..k];
          }
        }
      }
    }
  }

  /** A placeholder token: `{{`, a name without newline, `}}`. */
  predicate IsToken(t: string)
  {
    |t| >= 4 && t[..2] == "{{" && t[|t| - 2..] == "}}" && '\n' !in t[2..|t| - 2]
  }

  /** `replacement[2:-2]`. */
  function TokenName(t: string): string
    requires |t| >= 4
  {
    t[2..|t| - 2]
  }

  /** `re.findall('{{.*?}}', s)`: the tokens, left to right, without
      overlap. */
  function FindTokens(s: string): (ts: seq<string>)
    ensures forall i :: 0 <= i < |ts| ==> IsToken(ts[i])
    decreases |s|
  {
    if |s| < 4 then []
    else if s[0] == '{' && s[1] == '{' then
      match CloseAt(s, 2)
      case Some(j) =>
        TokenAtStart(s, j);
        [s[..j + 2]] + FindTokens(s[j + 2..])
      case None => FindTokens(s[1..])
    else FindTokens(s[1..])
  }

  /** The text from an opening `{{` to the `}}` that closes it is a token. */
  lemma TokenAtStart(s: string, j: nat)
    requires 2 <= |s| && s[0] == '{' && s[1] == '{' && CloseAt(s, 2) == Some(j)
    ensures IsToken(s[..j + 2])
  {
    var t := s[..j + 2];
    assert |t| == j + 2;
    assert t[..2] == "{{" by {
      assert t[0] == '{' && t[1] == '{';
    }
    assert t[|t| - 2..] == "}}" by {
      assert t[j] == s[j] && t[j + 1] == s[j + 1];
    }
    assert t[2..|t| - 2] == s[2..j];
    CloseAtFirst(s, 2);
    forall c | c in s[2..j]
      ensures c != '\n'
    {
      var k :| 2 <= k < j && s[k] == c;
    }
  }

  /** A token opens at `k`: `{{` there, closed later on the same line. */
  predicate OpensAt(s: string, k: nat)
  {
    k + 2 <= |s| && s[k] == '{' && s[k + 1] == '{' && CloseAt(s, k + 2).Some?
  }

  /** Dropping the first character moves every close one place left. */
  lemma {:induction false} CloseAtShift(s: string, j: nat)
    requires 1 <= j <= |s|
    ensures CloseAt(s[1..], j - 1) == if CloseAt(s, j).Some? then Some(CloseAt(s, j).value - 1) else None
    decreases |s| - j
  {
    if j + 2 <= |s| {
      assert s[1..][j - 1] == s[j] && s[1..][j] == s[j + 1];
      if !(s[j] == '}' && s[j + 1] == '}') && s[j] != '\n' {
        CloseAtShift(s, j + 1);
      }
    }
  }

  lemma OpensAtShift(s: string, k: nat)
    requires 1 <= k < |s|
    ensures OpensAt(s[1..], k - 1) <==> OpensAt(s, k)
  {
    if k + 2 <= |s| {
      assert s[1..][k - 1] == s[k] && s[1..][k] == s[k + 1];
      CloseAtShift(s, k + 2);
    }
  }

  /** Where no token opens, the scan moves on by one character. */
  lemma FindTokensSkip(s: string)
    requires s != [] && !OpensAt(s, 0)
    ensures FindTokens(s) == FindTokens(s[1..])
  {
  }

  /** Where a token opens, it is the first one found. */
  lemma FindTokensAtStart(s: string)
    requires OpensAt(s, 0)
    ensures var j := CloseAt(s, 2).value; FindTokens(s) == [s[..j + 2]] + FindTokens(s[j + 2..])
  {
  }

  /** Dropping the first character keeps the tokens before `i` unopened. */
  lemma NoneOpenShift(s: string, i: nat)
    requires 1 <= i < |s|
    requires forall k :: 0 <= k < i ==> !OpensAt(s, k)
    ensures forall k :: 0 <= k < i - 1 ==> !OpensAt(s[1..], k)
  {
    forall k | 0 <= k < i - 1
      ensures !OpensAt(s[1..], k)
    {
      OpensAtShift(s, k + 1);
    }
  }

  /** Scanning starts at the leftmost opening token: its text is the first
      token, and the scan resumes right after its `}}`, so tokens never
      overlap. */
  lemma {:induction false} FindTokensFirst(s: string, i: nat, j: nat)
    requires OpensAt(s, i) && CloseAt(s, i + 2) == Some(j)
    requires forall k :: 0 <= k < i ==> !OpensAt(s, k)
    ensures FindTokens(s) == [s[i..j + 2]] + FindTokens(s[j + 2..])
    decreases i
  {
    if i == 0 {
      FindTokensAtStart(s);
    } else {
      OpeningShift(s, i, j);
      FindTokensFirst(s[1..], i - 1, j - 1);
      FindTokensShiftBack(s, i, j);
    }
  }

  /** The leftmost opening token at `i > 0` is at `i - 1` in `s[1..]`. */
  lemma OpeningShift(s: string, i: nat, j: nat)
    requires 1 <= i && OpensAt(s, i) && CloseAt(s, i + 2) == Some(j)
    requires forall k :: 0 <= k < i ==> !OpensAt(s, k)
    ensures OpensAt(s[1..], i - 1) && CloseAt(s[1..], i - 1 + 2) == Some(j - 1)
    ensures forall k :: 0 <= k < i - 1 ==> !OpensAt(s[1..], k)
  {
    OpensAtShift(s, i);
    CloseAtShift(s, i + 2);
    NoneOpenShift(s, i);
  }

  /** The tokens of `s[1..]`, seen from `s`, when no token opens at 0. */
  lemma FindTokensShiftBack(s: string, i: nat, j: nat)
    requires 1 <= i <= j && j + 2 <= |s| && !OpensAt(s, 0)
    requires FindTokens(s[1..]) == [s[1..][i - 1..j - 1 + 2]] + FindTokens(s[1..][j - 1 + 2..])
    ensures FindTokens(s) == [s[i..j + 2]] + FindTokens(s[j + 2..])
  {
    FindTokensSkip(s);
    assert s[1..][i - 1..j + 1] == s[i..j + 2] && s[1..][j + 1..] == s[j + 2..];
  }

  /** Without an opening token there are no tokens. */
  lemma {:induction false} FindTokensNone(s: string)
    requires forall k :: 0 <= k < |s| ==> !OpensAt(s, k)
    ensures FindTokens(s) == []
    decreases |s|
  {
    if |s| >= 4 {
      FindTokensSkip(s);
      forall k | 0 <= k < |s[1..]|
        ensures !OpensAt(s[1..], k)
      {
        OpensAtShift(s, k + 1);
      }
      FindTokensNone(s[1..]);
    }
  }

  /** No opening token is skipped: the scan finds a token whenever one opens. */
  lemma {:induction false} FindTokensFinds(s: string, i: nat)
    requires OpensAt(s, i)
    ensures FindTokens(s) != []
    decreases i
  {
    if i > 0 && !OpensAt(s, 0) {
      FindTokensSkip(s);
      OpensAtShift(s, i);
      FindTokensFinds(s[1..], i - 1);
    }
  }

  /** A path has tokens exactly when a token opens somewhere in it. */
  lemma FindTokensEmpty(s: string)
    ensures FindTokens(s) == [] <==> forall k :: 0 <= k < |s| ==> !OpensAt(s, k)
  {
    if forall k :: 0 <= k < |s| ==> !OpensAt(s, k) {
      FindTokensNone(s);
    } else {
      var i :| 0 <= i < |s| && OpensAt(s, i);
      FindTokensFinds(s, i);
    }
  }

  /** A path without `{{` has no tokens. */
  lemma {:induction false} NoOpeningNoTokens(s: string)
    requires !Occurs("{{", s)
    ensures FindTokens(s) == []
    decreases |s|
  {
    if |s| >= 4 {
      assert s[..2] != "{{";
      NoOpeningNoTokens(s[1..]);
    }
  }

  datatype Substitution = Substituted(path: string) | MissingField(name: string)

  /** The tokens `ts`, in order, each replaced everywhere in the path built
      so far; the first name missing from the body raises a KeyError. */
  function SubstituteTokens(current: string, ts: seq<string>, body: map<string, string>): Substitution
    requires forall i :: 0 <= i < |ts| ==> IsToken(ts[i])
    decreases |ts|
  {
    if ts == [] then Substituted(current)
    else
      assert IsToken(ts[0]);
      var name := TokenName(ts[0]);
      if name !in body then MissingField(name)
      else SubstituteTokens(ReplaceAll(current, ts[0], body[name]), ts[1..], body)
  }

  /** The generated path of the transform route. */
  function Substitute(path: string, body: map<string, string>): Substitution
  {
    SubstituteTokens(path, FindTokens(path), body)
  }

  /** Substitution fails exactly when some token names a field the body
      lacks, and then it reports the first such name. */
  lemma {:induction false} SubstituteTokensFails(current: string, ts: seq<string>, body: map<string, string>)
    requires forall i :: 0 <= i < |ts| ==> IsToken(ts[i])
    ensures SubstituteTokens(current, ts, body).MissingField? <==>
      exists i :: 0 <= i < |ts| && TokenName(ts[i]) !in body
    ensures SubstituteTokens(current, ts, body).MissingField? ==>
      exists i :: 0 <= i < |ts| && SubstituteTokens(current, ts, body).name == TokenName(ts[i]) && TokenName(ts[i]) !in body
        && forall k :: 0 <= k < i ==> TokenName(ts[k]) in body
    decreases |ts|
  {
    if ts != [] && TokenName(ts[0]) in body {
      var next := ReplaceAll(current, ts[0], body[TokenName(ts[0])]);
      SubstituteTokensFails(next, ts[1..], body);
      if SubstituteTokens(next, ts[1..], body).MissingField? {
        var i :| 0 <= i < |ts[1..]| && SubstituteTokens(next, ts[1..], body).name == TokenName(ts[1..][i])
          && TokenName(ts[1..][i]) !in body && forall k :: 0 <= k < i ==> TokenName(ts[1..][k]) in body;
        assert TokenName(ts[i + 1]) !in body;
        assert forall k :: 0 <= k < i + 1 ==> TokenName(ts[k]) in body by {
          forall k | 0 <= k < i + 1
            ensures TokenName(ts[k]) in body
          {
            if k > 0 { assert ts[k] == ts[1..][k - 1]; }
          }
        }
      } else {
        forall i | 0 <= i < |ts|
          ensures TokenName(ts[i]) in body
        {
          if i > 0 { assert ts[i] == ts[1..][i - 1]; }
        }
      }
    }
  }

  /** A path without placeholders is used as it is. */
  lemma SubstituteWithoutPlaceholders(path: string, body: map<string, string>)
    requires !Occurs("{{", path)
    ensures Substitute(path, body) == Substituted(path)
  {
    NoOpeningNoTokens(path);
  }

  /** Over a stretch without `}` or newline, the close is the `}}` that
      ends it. */
  lemma {:induction false} CloseAtAfterName(s: string, j: nat, k: nat)
    requires j <= k && k + 2 <= |s| && s[k] == '}' && s[k + 1] == '}'
    requires forall m :: j <= m < k ==> s[m] != '}' && s[m] != '\n'
    ensures CloseAt(s, j) == Some(k)
    decreases k - j
  {
    if j < k {
      CloseAtAfterName(s, j + 1, k);
    }
  }

  /** The only token of a path with one placeholder and no other `{`. */
  lemma OnePlaceholderToken(pre: string, token: string, post: string)
    requires |token| >= 4 && token[..2] == "{{" && token[|token| - 2..] == "}}"
    requires forall m :: 2 <= m < |token| - 2 ==> token[m] != '{' && token[m] != '}' && token[m] != '\n'
    requires '{' !in pre && '{' !in post
    ensures FindTokens(pre + token + post) == [token]
  {
    var path := pre + token + post;
    var i, j := |pre|, |pre| + |token| - 2;
    assert path[i..j + 2] == token && path[j + 2..] == post;
    assert path[i] == token[0] && path[i + 1] == token[1];
    assert path[j] == token[|token| - 2] && path[j + 1] == token[|token| - 1];
    forall m | i + 2 <= m < j
      ensures path[m] != '}' && path[m] != '\n'
    {
      assert path[m] == token[m - i];
    }
    CloseAtAfterName(path, i + 2, j);
    forall k | 0 <= k < i
      ensures !OpensAt(path, k)
    {
      assert path[k] == pre[k];
    }
    FindTokensFirst(path, i, j);
    FindTokensNone(post);
  }

  /** Replacing a token that occurs once, between `{`-free text. */
  lemma ReplaceOnlyToken(pre: string, token: string, post: string, value: string)
    requires token != [] && token[0] == '{' && '{' !in pre && '{' !in post
    ensures ReplaceAll(pre + token + post, token, value) == pre + value + post
  {
    assert pre + token + post == pre + (token + post);
    ReplaceAllSkips(pre, token + post, token, value);
    assert (token + post)[..|token|] == token && (token + post)[|token|..] == post;
    AbsentHeadNotOccurs(token, post);
    ReplaceAllAbsent(post, token, value);
    assert pre + (value + post) == pre + value + post;
  }

  /** A path with one placeholder, and no `{` around it, has that
      placeholder replaced by the body's field. */
  lemma SubstituteOnePlaceholder(pre: string, name: string, post: string, body: map<string, string>)
    requires '{' !in pre && '{' !in post
    requires '{' !in name && '}' !in name && '\n' !in name
    requires name in body
    ensures Substitute(pre + "{{" + name + "}}" + post, body) == Substituted(pre + body[name] + post)
  {
    var token := "{{" + name + "}}";
    assert pre + "{{" + name + "}}" + post == pre + token + post;
    assert token[..2] == "{{" && token[|token| - 2..] == "}}" && token[2..|token| - 2] == name;
    forall m | 2 <= m < |token| - 2
      ensures token[m] != '{' && token[m] != '}' && token[m] != '\n'
    {
      assert token[m] == name[m - 2];
    }
    var path := pre + token + post;
    OnePlaceholderToken(pre, token, post);
    ReplaceOnlyToken(pre, token, post, body[name]);
    assert TokenName([token][0]) == name && [token][1..] == [];
    assert Substitute(path, body) == SubstituteTokens(ReplaceAll(path, token, body[name]), [], body);
  }
}
