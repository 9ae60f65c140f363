/** The ECMAScript string built-ins the application relies on: `trim`, `split` on a single
    character, `join`, ASCII `toLowerCase`, JavaScript truthiness of an optional string and
    `replace(/\s+/g, r)`. */
module JsString {
  import opened Wrappers

  /** The characters that `String.prototype.trim` removes and that the regular-expression
      class `\s` matches: ECMAScript's WhiteSpace (TAB, VT, FF, SP, NBSP, ZWNBSP and the
      Unicode Zs category) and LineTerminator (LF, CR, LS, PS). */
  predicate IsWhitespace(c: char) {
    || c == '\t' || c == '\n' || c == '\U{B}' || c == '\U{C}' || c == '\r'
    || c == ' ' || c == '\U{A0}' || c == '\U{1680}'
    || ('\U{2000}' <= c <= '\U{200A}')
    || c == '\U{2028}' || c == '\U{2029}' || c == '\U{202F}' || c == '\U{205F}'
    || c == '\U{3000}' || c == '\U{FEFF}'
  }

  predicate AllWhitespace(s: string) {
    forall i :: 0 <= i < |s| ==> IsWhitespace(s[i])
  }

  predicate HasNoWhitespace(s: string) {
    forall i :: 0 <= i < |s| ==> !IsWhitespace(s[i])
  }

  /** JavaScript truthiness of an optional string: absent and "" are both falsy. */
  predicate Truthy(o: Option<string>) {
    o.Some? && o.value != ""
  }

  /** `s || fallback` for an optional string. */
  function OrElse(o: Option<string>, fallback: string): (r: string)
    ensures Truthy(o) ==> r == o.value
    ensures !Truthy(o) ==> r == fallback
  {
    if Truthy(o) then o.value else fallback
  }

  /** Drops the leading white space: the longest suffix of `s` that does not start with
      white space (`TrimStartDropsWhitespace` shows that only white space is dropped). */
  function TrimStart(s: string): (r: string)
    ensures |r| <= |s| && r == s[|s| - |r|..]
    ensures r == [] || !IsWhitespace(r[0])
    decreases |s|
  {
    if s != [] && IsWhitespace(s[0]) then TrimStart(s[1..]) else s
  }

  lemma {:induction false} TrimStartDropsWhitespace(s: string)
    ensures forall i :: 0 <= i < |s| - |TrimStart(s)| ==> IsWhitespace(s[i])
    decreases |s|
  {
    if s != [] && IsWhitespace(s[0]) {
      TrimStartDropsWhitespace(s[1..]);
      forall i | 1 <= i < |s| - |TrimStart(s)| ensures IsWhitespace(s[i]) {
        assert s[i] == s[1..][i - 1];
      }
    }
  }

  /** Drops the trailing white space: the longest prefix of `s` that does not end with
      white space. */
  function TrimEnd(s: string): (r: string)
    ensures |r| <= |s| && r == s[..|r|]
    ensures r == [] || !IsWhitespace(r[|r| - 1])
    decreases |s|
  {
    if s != [] && IsWhitespace(s[|s| - 1]) then TrimEnd(s[..|s| - 1]) else s
  }

  lemma {:induction false} TrimEndDropsWhitespace(s: string)
    ensures forall i :: |TrimEnd(s)| <= i < |s| ==> IsWhitespace(s[i])
    decreases |s|
  {
    if s != [] && IsWhitespace(s[|s| - 1]) {
      TrimEndDropsWhitespace(s[..|s| - 1]);
      forall i | |TrimEnd(s)| <= i < |s| - 1 ensures IsWhitespace(s[i]) {
        assert s[i] == s[..|s| - 1][i];
      }
    }
  }

  /** `String.prototype.trim`: `s` with white space removed at both ends. The result is the
      part of `s` starting where `TrimStart` starts; it neither starts nor ends with white
      space, and it is empty exactly when `s` is all white space. */
  function Trim(s: string): (r: string)
    ensures |s| - |TrimStart(s)| + |r| <= |s|
    ensures r == s[|s| - |TrimStart(s)|..|s| - |TrimStart(s)| + |r|]
    ensures r == [] || (!IsWhitespace(r[0]) && !IsWhitespace(r[|r| - 1]))
    ensures r == [] <==> AllWhitespace(s)
  {
    var t := TrimStart(s);
    var r := TrimEnd(t);
    TrimParts(s, t, r);
    r
  }

  lemma TrimParts(s: string, t: string, r: string)
    requires t == TrimStart(s) && r == TrimEnd(t)
    ensures |s| - |t| + |r| <= |s|
    ensures r == s[|s| - |t|..|s| - |t| + |r|]
    ensures r == [] || (!IsWhitespace(r[0]) && !IsWhitespace(r[|r| - 1]))
    ensures r == [] <==> AllWhitespace(s)
  {
    TrimSlice(s, t, r);
    TrimEnds(s, t, r);
    TrimEmptyIff(s, t, r);
  }

  /** A prefix of a suffix is a slice. */
  lemma TrimSlice(s: string, t: string, r: string)
    requires |t| <= |s| && t == s[|s| - |t|..]
    requires |r| <= |t| && r == t[..|r|]
    ensures |s| - |t| + |r| <= |s|
    ensures r == s[|s| - |t|..|s| - |t| + |r|]
  {
    var k := |s| - |t|;
    forall i | 0 <= i < |r| ensures r[i] == s[k + i] {
      assert r[i] == t[i];
    }
  }

  lemma TrimEnds(s: string, t: string, r: string)
    requires t == TrimStart(s) && r == TrimEnd(t)
    ensures r == [] || (!IsWhitespace(r[0]) && !IsWhitespace(r[|r| - 1]))
  {
    if r != [] {
      assert r[0] == t[0];
    }
  }

  lemma TrimEmptyIff(s: string, t: string, r: string)
    requires t == TrimStart(s) && r == TrimEnd(t)
    ensures r == [] <==> AllWhitespace(s)
  {
    if r == [] {
      TrimEndDropsWhitespace(t);
      TrimStartDropsWhitespace(s);
    } else {
      assert s[|s| - |t|] == t[0] == r[0];
    }
  }

  /** Every character of `Trim(s)` is a character of `s`. */
  lemma TrimChars(s: string)
    ensures forall i :: 0 <= i < |Trim(s)| ==> Trim(s)[i] in s
  {
    var r := Trim(s);
    var k := |s| - |TrimStart(s)|;
    forall i | 0 <= i < |r| ensures r[i] in s {
      assert r[i] == s[k + i];
    }
  }

  /** A string that neither starts nor ends with white space is its own trim. */
  lemma TrimOfTrimmed(x: string)
    requires x != [] && !IsWhitespace(x[0]) && !IsWhitespace(x[|x| - 1])
    ensures Trim(x) == x
  {
    assert TrimStart(x) == x;
    assert TrimEnd(x) == x;
  }

  /** A trimmed string preceded by white space trims back to itself. */
  lemma {:induction false} TrimOfPaddedTrimmed(pad: string, x: string)
    requires AllWhitespace(pad)
    requires x != [] && !IsWhitespace(x[0]) && !IsWhitespace(x[|x| - 1])
    ensures Trim(pad + x) == x
  {
    TrimStartRun(pad, x);
  }

  /** Trimming is idempotent. */
  lemma TrimIdempotent(s: string)
    ensures Trim(Trim(s)) == Trim(s)
  {
    var r := Trim(s);
    if r != [] {
      TrimOfTrimmed(r);
    }
  }

  function LowerChar(c: char): (d: char)
    ensures 'A' <= c <= 'Z' ==> d as int == c as int + 32
    ensures !('A' <= c <= 'Z') ==> d == c
  {
    if 'A' <= c <= 'Z' then (c as int + 32) as char else c
  }

  /** `String.prototype.toLowerCase`, restricted to the ASCII letters. */
  function ToLower(s: string): (r: string)
    ensures |r| == |s|
    ensures forall i :: 0 <= i < |s| ==> r[i] == LowerChar(s[i])
  {
    seq(|s|, i requires 0 <= i < |s| => LowerChar(s[i]))
  }

  /** `s.split(sep)` for a one-character separator: the maximal runs between separators,
      including the empty ones, so there is always at least one piece. */
  function Split(s: string, sep: char): (r: seq<string>)
    ensures |r| >= 1
    ensures forall i :: 0 <= i < |r| ==> sep !in r[i]
    decreases |s|
  {
    if s == [] then [""]
    else
      var rest := Split(s[1..], sep);
      if s[0] == sep then [""] + rest
      else [[s[0]] + rest[0]] + rest[1..]
  }

  /** `xs.join(sep)`. */
  function Join(xs: seq<string>, sep: string): (r: string)
    decreases |xs|
  {
    if |xs| == 0 then ""
    else if |xs| == 1 then xs[0]
    else xs[0] + sep + Join(xs[1..], sep)
  }

  /** Joining one more element puts one more separator before it. */
  lemma {:induction false} JoinSnoc(xs: seq<string>, x: string, sep: string)
    requires xs != []
    ensures Join(xs + [x], sep) == Join(xs, sep) + sep + x
    decreases |xs|
  {
    var ys := xs + [x];
    assert ys[0] == xs[0];
    assert ys[1..] == xs[1..] + [x];
    if |xs| == 1 {
      assert ys[1..] == [x];
    } else {
      JoinSnoc(xs[1..], x, sep);
      var j := Join(xs[1..], sep);
      ConcatAssoc(xs[0] + sep, j, sep + x);
      ConcatAssoc(xs[0] + sep + j, sep, x);
      ConcatAssoc(j, sep, x);
    }
  }

  /** Splitting and re-joining with the same separator gives the string back. */
  lemma {:induction false} JoinSplit(s: string, sep: char)
    ensures Join(Split(s, sep), [sep]) == s
    decreases |s|
  {
    if s != [] {
      var rest := Split(s[1..], sep);
      JoinSplit(s[1..], sep);
      if s[0] == sep {
        assert Split(s, sep) == [""] + rest;
        assert s == [sep] + s[1..];
      } else {
        var r := Split(s, sep);
        assert r == [[s[0]] + rest[0]] + rest[1..];
        if |rest| == 1 {
          assert s == [s[0]] + rest[0];
        } else {
          assert r[1..] == rest[1..];
          assert Join(rest, [sep]) == rest[0] + [sep] + Join(rest[1..], [sep]);
          assert s == [s[0]] + (rest[0] + [sep] + Join(rest[1..], [sep]));
        }
      }
    }
  }

  /** A string without the separator is one piece. */
  lemma {:induction false} SplitNoSep(a: string, sep: char)
    requires sep !in a
    ensures Split(a, sep) == [a]
    decreases |a|
  {
    if a != [] {
      SplitNoSep(a[1..], sep);
      assert [a[0]] + a[1..] == a;
    }
  }

  /** Splitting at a first separator. */
  lemma {:induction false} SplitAtSep(a: string, sep: char, b: string)
    requires sep !in a
    ensures Split(a + [sep] + b, sep) == [a] + Split(b, sep)
    decreases |a|
  {
    var s := a + [sep] + b;
    if a == [] {
      assert s[0] == sep && s[1..] == b;
    } else {
      assert s[1..] == a[1..] + [sep] + b;
      SplitAtSep(a[1..], sep, b);
      assert [a[0]] + a[1..] == a;
    }
  }

  /** Joining pieces that hold no separator and splitting again gives the pieces back. */
  lemma {:induction false} SplitJoin(xs: seq<string>, sep: char)
    requires xs != []
    requires forall i :: 0 <= i < |xs| ==> sep !in xs[i]
    ensures Split(Join(xs, [sep]), sep) == xs
    decreases |xs|
  {
    if |xs| == 1 {
      SplitNoSep(xs[0], sep);
    } else {
      SplitJoin(xs[1..], sep);
      SplitAtSep(xs[0], sep, Join(xs[1..], [sep]));
      assert [xs[0]] + xs[1..] == xs;
    }
  }

  /** There is more than one piece exactly when the separator occurs. */
  lemma {:induction false} SplitMany(s: string, sep: char)
    ensures |Split(s, sep)| > 1 <==> sep in s
    decreases |s|
  {
    if s != [] {
      SplitMany(s[1..], sep);
      assert sep in s <==> s[0] == sep || sep in s[1..];
    }
  }

  /** `s.replace(/\s+/g, rep)`: every maximal run of white space becomes one copy of `rep`. */
  function ReplaceWhitespaceRuns(s: string, rep: string): (r: string)
    ensures HasNoWhitespace(rep) ==> HasNoWhitespace(r)
    decreases |s|
  {
    if s == [] then ""
    else if IsWhitespace(s[0]) then
      var t := TrimStart(s);
      assert t != s;
      rep + ReplaceWhitespaceRuns(t, rep)
    else [s[0]] + ReplaceWhitespaceRuns(s[1..], rep)
  }

  /** A string without white space is left unchanged. */
  lemma {:induction false} ReplaceWhitespaceRunsNoWhitespace(s: string, rep: string)
    requires HasNoWhitespace(s)
    ensures ReplaceWhitespaceRuns(s, rep) == s
    decreases |s|
  {
    if s != [] {
      assert !IsWhitespace(s[0]);
      ReplaceWhitespaceRunsNoWhitespace(s[1..], rep);
      assert s == [s[0]] + s[1..];
    }
  }

  /** No character other than white space is altered or reordered: removing the copies of
      `rep` from the result leaves what removing the white space and the copies of `rep`
      from `s` leaves, for a one-character `rep` that is not white space. */
  lemma {:induction false} ReplaceWhitespaceRunsKeepsText(s: string, rep: char)
    requires !IsWhitespace(rep)
    ensures Remove(ReplaceWhitespaceRuns(s, [rep]), rep) == Remove(RemoveWhitespace(s), rep)
    decreases |s|
  {
    if s != [] {
      if IsWhitespace(s[0]) {
        var t := TrimStart(s);
        assert t != s;
        TrimStartDropsWhitespace(s);
        ReplaceWhitespaceRunsKeepsText(t, rep);
        RemoveWhitespaceDropsPrefix(s, |s| - |t|);
        assert s[|s| - |t|..] == t;
        RemoveCons(rep, ReplaceWhitespaceRuns(t, [rep]), rep);
      } else {
        ReplaceWhitespaceRunsKeepsText(s[1..], rep);
        RemoveCons(s[0], ReplaceWhitespaceRuns(s[1..], [rep]), rep);
        RemoveCons(s[0], RemoveWhitespace(s[1..]), rep);
      }
    }
  }

  /** A maximal run of white space becomes exactly one copy of `rep`, however long it is:
      with `ReplaceWhitespaceRunsNoWhitespace` this fixes the result for every string. */
  lemma {:induction false} ReplaceWhitespaceRunsCollapse(a: string, w: string, b: string, rep: string)
    requires a == [] || !IsWhitespace(a[|a| - 1])
    requires w != [] && AllWhitespace(w)
    requires b == [] || !IsWhitespace(b[0])
    ensures ReplaceWhitespaceRuns(a + w + b, rep) == ReplaceWhitespaceRuns(a, rep) + rep + ReplaceWhitespaceRuns(b, rep)
    decreases |a|
  {
    if a == [] {
      CollapseAtStart(w, b, rep);
    } else if IsWhitespace(a[0]) {
      var t := TrimStart(a);
      TrimStartKeepsLast(a);
      ReplaceWhitespaceRunsCollapse(t, w, b, rep);
      CollapseAfterWhitespace(a, w, b, rep);
    } else {
      ReplaceWhitespaceRunsCollapse(a[1..], w, b, rep);
      CollapseAfterChar(a, w, b, rep);
    }
  }

  /** The base case of `ReplaceWhitespaceRunsCollapse`: a run at the very start. */
  lemma CollapseAtStart(w: string, b: string, rep: string)
    requires w != [] && AllWhitespace(w)
    requires b == [] || !IsWhitespace(b[0])
    ensures ReplaceWhitespaceRuns([] + w + b, rep) == ReplaceWhitespaceRuns([], rep) + rep + ReplaceWhitespaceRuns(b, rep)
  {
    var s := w + b;
    assert [] + w + b == s;
    assert s[0] == w[0];
    TrimStartRun(w, b);
    assert ReplaceWhitespaceRuns(s, rep) == rep + ReplaceWhitespaceRuns(b, rep);
    assert ReplaceWhitespaceRuns([], rep) + rep == rep;
  }

  /** Dropping the leading white space of a string that starts with white space and ends
      with another character leaves a shorter, non-empty string ending in that character. */
  lemma TrimStartKeepsLast(a: string)
    requires a != [] && IsWhitespace(a[0]) && !IsWhitespace(a[|a| - 1])
    ensures var t := TrimStart(a); t != [] && |t| < |a| && t[|t| - 1] == a[|a| - 1]
  {
    var t := TrimStart(a);
    assert t != a;
    TrimStartDropsWhitespace(a);
    assert t == a[|a| - |t|..];
  }

  lemma DropFirstOfConcat(a: string, c: string)
    requires a != []
    ensures (a + c)[0] == a[0] && (a + c)[1..] == a[1..] + c
  {
  }

  lemma ConcatAssoc(a: string, b: string, c: string)
    ensures a + b + c == a + (b + c)
  {
  }

  /** The step of `ReplaceWhitespaceRunsCollapse` for `a` starting with white space. */
  lemma CollapseAfterWhitespace(a: string, w: string, b: string, rep: string)
    requires a != [] && IsWhitespace(a[0]) && !IsWhitespace(a[|a| - 1])
    requires ReplaceWhitespaceRuns(TrimStart(a) + w + b, rep)
             == ReplaceWhitespaceRuns(TrimStart(a), rep) + rep + ReplaceWhitespaceRuns(b, rep)
    ensures ReplaceWhitespaceRuns(a + w + b, rep) == ReplaceWhitespaceRuns(a, rep) + rep + ReplaceWhitespaceRuns(b, rep)
  {
    var s, t := a + w + b, TrimStart(a);
    var rt, rb := ReplaceWhitespaceRuns(t, rep), ReplaceWhitespaceRuns(b, rep);
    ConcatAssoc(a, w, b);
    TrimStartAppend(a, w + b);
    ConcatAssoc(t, w, b);
    assert TrimStart(s) == t + w + b;
    assert ReplaceWhitespaceRuns(s, rep) == rep + (rt + rep + rb);
    assert ReplaceWhitespaceRuns(a, rep) == rep + rt;
    ConcatAssoc(rep, rt + rep, rb);
    ConcatAssoc(rep, rt, rep);
  }

  /** The step of `ReplaceWhitespaceRunsCollapse` for `a` starting with another character. */
  lemma CollapseAfterChar(a: string, w: string, b: string, rep: string)
    requires a != [] && !IsWhitespace(a[0])
    requires ReplaceWhitespaceRuns(a[1..] + w + b, rep)
             == ReplaceWhitespaceRuns(a[1..], rep) + rep + ReplaceWhitespaceRuns(b, rep)
    ensures ReplaceWhitespaceRuns(a + w + b, rep) == ReplaceWhitespaceRuns(a, rep) + rep + ReplaceWhitespaceRuns(b, rep)
  {
    var s := a + w + b;
    var rt, rb := ReplaceWhitespaceRuns(a[1..], rep), ReplaceWhitespaceRuns(b, rep);
    ConcatAssoc(a, w, b);
    DropFirstOfConcat(a, w + b);
    ConcatAssoc(a[1..], w, b);
    assert ReplaceWhitespaceRuns(s, rep) == [a[0]] + (rt + rep + rb);
    assert ReplaceWhitespaceRuns(a, rep) == [a[0]] + rt;
    ConcatAssoc([a[0]], rt + rep, rb);
    ConcatAssoc([a[0]], rt, rep);
  }

  /** Leading white space followed by a character that is not white space trims to that
      character onwards. */
  lemma {:induction false} TrimStartRun(w: string, b: string)
    requires AllWhitespace(w)
    requires b == [] || !IsWhitespace(b[0])
    ensures TrimStart(w + b) == b
    decreases |w|
  {
    if w == [] {
      assert w + b == b;
    } else {
      assert (w + b)[1..] == w[1..] + b;
      TrimStartRun(w[1..], b);
    }
  }

  /** Trimming the start of a string that ends in a character that is not white space only
      touches that string, not what follows it. */
  lemma {:induction false} TrimStartAppend(a: string, c: string)
    requires a != [] && !IsWhitespace(a[|a| - 1])
    ensures TrimStart(a + c) == TrimStart(a) + c
    decreases |a|
  {
    if IsWhitespace(a[0]) {
      assert |a| > 1;
      assert (a + c)[1..] == a[1..] + c;
      TrimStartAppend(a[1..], c);
    }
  }

  /** `s` without the occurrences of `c`. */
  function Remove(s: string, c: char): (r: string)
    ensures c !in r
    decreases |s|
  {
    if s == [] then ""
    else if s[0] == c then Remove(s[1..], c)
    else [s[0]] + Remove(s[1..], c)
  }

  /** `s` without its white space. */
  function RemoveWhitespace(s: string): (r: string)
    ensures HasNoWhitespace(r)
    decreases |s|
  {
    if s == [] then ""
    else if IsWhitespace(s[0]) then RemoveWhitespace(s[1..])
    else [s[0]] + RemoveWhitespace(s[1..])
  }

  lemma RemoveCons(x: char, s: string, c: char)
    ensures Remove([x] + s, c) == if x == c then Remove(s, c) else [x] + Remove(s, c)
  {
    assert ([x] + s)[1..] == s;
  }

  lemma {:induction false} RemoveWhitespaceDropsPrefix(s: string, k: nat)
    requires k <= |s| && forall i :: 0 <= i < k ==> IsWhitespace(s[i])
    ensures RemoveWhitespace(s) == RemoveWhitespace(s[k..])
    decreases k
  {
    if k > 0 {
      assert IsWhitespace(s[0]);
      RemoveWhitespaceDropsPrefix(s[1..], k - 1);
      assert s[1..][k - 1..] == s[k..];
    }
  }
}
