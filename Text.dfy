/** The JavaScript string operations the pipeline relies on: `String.prototype.trim`,
    `+=` accumulation and `Array.prototype.join("\n")`. */
module Text {

  /** ECMAScript WhiteSpace and LineTerminator code points, the set `trim` removes. */
  predicate IsJsWhitespace(c: char) {
    var n := c as int;
    n == 0x09 || n == 0x0A || n == 0x0B || n == 0x0C || n == 0x0D || n == 0x20
    || n == 0xA0 || n == 0x1680 || (0x2000 <= n <= 0x200A) || n == 0x2028 || n == 0x2029
    || n == 0x202F || n == 0x205F || n == 0x3000 || n == 0xFEFF
  }

  predicate AllWhitespace(s: string) {
    forall i :: 0 <= i < |s| ==> IsJsWhitespace(s[i])
  }

  /** `s` has nothing `trim` would remove. */
  predicate IsTrimmed(s: string) {
    s == [] || (!IsJsWhitespace(s[0]) && !IsJsWhitespace(s[|s| - 1]))
  }

  /** Drops leading whitespace: the result is a suffix of `s` preceded only by whitespace. */
  function TrimStart(s: string): (r: string)
    ensures |r| <= |s| && r == s[|s| - |r|..]
    ensures AllWhitespace(s[..|s| - |r|])
    ensures r == [] || !IsJsWhitespace(r[0])
  {
    if s != [] && IsJsWhitespace(s[0]) then
      var r := TrimStart(s[1..]);
      assert s[..|s| - |r|] == [s[0]] + s[1..][..|s| - 1 - |r|];
      r
    else
      s
  }

  /** Drops trailing whitespace: the result is a prefix of `s` followed only by whitespace. */
  function TrimEnd(s: string): (r: string)
    ensures |r| <= |s| && r == s[..|r|]
    ensures AllWhitespace(s[|r|..])
    ensures r == [] || !IsJsWhitespace(r[|r| - 1])
  {
    if s != [] && IsJsWhitespace(s[|s| - 1]) then
      var r := TrimEnd(s[..|s| - 1]);
      assert s[|r|..] == s[..|s| - 1][|r|..] + [s[|s| - 1]];
      r
    else
      s
  }

  /** `String.prototype.trim`: the part of `s` left once the whitespace at both ends is
      gone. It is itself trimmed, and it is empty exactly when `s` is all whitespace
      (`TrimIsSlice` locates it in `s`). */
  function Trim(s: string): (r: string)
    ensures |r| <= |s|
    ensures IsTrimmed(r)
    ensures r == [] <==> AllWhitespace(s)
  {
    var e := TrimEnd(s);
    var r := TrimStart(e);
    assert TrailingCut(s, e) && LeadingCut(e, r);
    if r == [] then TrimEndsEmpty(s, e); r
    else TrimEndsNonEmpty(s, e, r); r
  }

  /** `r` sits at offset `k` of `s` with only whitespace before and after it. */
  predicate SliceAmidWhitespace(s: string, r: string, k: nat) {
    && k + |r| <= |s| && r == s[k..k + |r|]
    && AllWhitespace(s[..k]) && AllWhitespace(s[k + |r|..])
  }

  /** What `trim` keeps is one slice of its input with only whitespace around it. */
  lemma TrimIsSlice(s: string)
    ensures exists k: nat :: SliceAmidWhitespace(s, Trim(s), k)
  {
    var e := TrimEnd(s);
    assert TrailingCut(s, e) && LeadingCut(e, Trim(s));
    TrimEndsIsSlice(s, e, Trim(s));
  }

  /** `e` is `s` without its trailing whitespace (what `TrimEnd` promises). */
  predicate TrailingCut(s: string, e: string) {
    && |e| <= |s| && e == s[..|e|] && AllWhitespace(s[|e|..])
    && (e == [] || !IsJsWhitespace(e[|e| - 1]))
  }

  /** `r` is `e` without its leading whitespace (what `TrimStart` promises). */
  predicate LeadingCut(e: string, r: string) {
    && |r| <= |e| && r == e[|e| - |r|..] && AllWhitespace(e[..|e| - |r|])
    && (r == [] || !IsJsWhitespace(r[0]))
  }

  lemma {:induction false} TrimEndsNonEmpty(s: string, e: string, r: string)
    requires TrailingCut(s, e) && LeadingCut(e, r) && r != []
    ensures IsTrimmed(r) && !AllWhitespace(s)
  {
    assert r[|r| - 1] == e[|e| - 1];
    assert r[0] == e[|e| - |r|] == s[|e| - |r|];
  }

  lemma {:induction false} TrimEndsEmpty(s: string, e: string)
    requires TrailingCut(s, e) && LeadingCut(e, [])
    ensures AllWhitespace(s)
  {
    if e != [] {
      assert false;
    }
    assert s[|e|..] == s;
  }

  lemma {:induction false} TrimEndsIsSlice(s: string, e: string, r: string)
    requires TrailingCut(s, e) && LeadingCut(e, r)
    ensures SliceAmidWhitespace(s, r, |e| - |r|)
  {
    var k := |e| - |r|;
    assert r == s[k..k + |r|];
    assert s[..k] == e[..k];
    assert s[k + |r|..] == s[|e|..];
  }

  /** Trimming twice is trimming once. */
  lemma TrimIdempotent(s: string)
    ensures Trim(Trim(s)) == Trim(s)
  {
    var t := Trim(s);
    TrimmedIsFixed(t);
  }

  /** `trim` leaves an already trimmed string alone. */
  lemma TrimmedIsFixed(t: string)
    requires IsTrimmed(t)
    ensures Trim(t) == t
  {
    if t != [] {
      assert TrimEnd(t) == t;
      assert TrimStart(t) == t;
    }
  }

  /** The string built by `acc += piece` over `pieces`, from left to right. */
  function Concat(pieces: seq<string>): string {
    if pieces == [] then "" else Concat(pieces[..|pieces| - 1]) + pieces[|pieces| - 1]
  }

  /** The pieces that are not the empty string, in their original order: every
      non-empty piece is kept, as often as it occurs, and nothing else. */
  function NonEmpty(pieces: seq<string>): (r: seq<string>)
    ensures |r| <= |pieces|
    ensures forall i :: 0 <= i < |r| ==> r[i] != ""
    ensures multiset(r) == multiset(pieces)["" := 0]
    ensures (forall i :: 0 <= i < |pieces| ==> pieces[i] != "") ==> r == pieces
  {
    if pieces == [] then []
    else
      var init, last := pieces[..|pieces| - 1], pieces[|pieces| - 1];
      assert pieces == init + [last];
      var rest := NonEmpty(init);
      if last == "" then rest else rest + [last]
  }

  /** Filtering distributes over concatenation: the kept pieces of `a + b` are those of
      `a`, in order, then those of `b`. So the pieces are kept in their original order. */
  lemma {:induction false} NonEmptyAppend(a: seq<string>, b: seq<string>)
    ensures NonEmpty(a + b) == NonEmpty(a) + NonEmpty(b)
    decreases |b|
  {
    if b == [] {
      assert a + b == a;
    } else {
      var init := b[..|b| - 1];
      assert (a + b)[..|a + b| - 1] == a + init;
      assert (a + b)[|a + b| - 1] == b[|b| - 1];
      NonEmptyAppend(a, init);
    }
  }

  /** Leaving out the empty pieces does not change the concatenation. */
  lemma {:induction false} ConcatNonEmpty(pieces: seq<string>)
    ensures Concat(NonEmpty(pieces)) == Concat(pieces)
  {
    if pieces != [] {
      var init, last := pieces[..|pieces| - 1], pieces[|pieces| - 1];
      ConcatNonEmpty(init);
      if last != "" {
        var ne := NonEmpty(init) + [last];
        assert ne[..|ne| - 1] == NonEmpty(init);
      }
    }
  }

  /** `xs.join("\n")`. */
  function JoinLines(xs: seq<string>): string {
    if xs == [] then ""
    else if |xs| == 1 then xs[0]
    else xs[0] + "\n" + JoinLines(xs[1..])
  }

  /** Index of the first newline of `s`, or `|s|` when there is none. */
  function LineEnd(s: string): (n: nat)
    ensures n <= |s|
    ensures forall i :: 0 <= i < n ==> s[i] != '\n'
    ensures n < |s| ==> s[n] == '\n'
  {
    if s == [] || s[0] == '\n' then 0 else 1 + LineEnd(s[1..])
  }

  /** `s.split("\n")`: the reference that `JoinLines` is inverted against. */
  function SplitLines(s: string): (r: seq<string>)
    ensures |r| >= 1
    decreases |s|
  {
    var n := LineEnd(s);
    if n == |s| then [s] else [s[..n]] + SplitLines(s[n + 1..])
  }

  /** Joining appends: one more line after a non-empty list adds a newline and that line. */
  lemma {:induction false} JoinLinesSnoc(xs: seq<string>, y: string)
    requires xs != []
    ensures JoinLines(xs + [y]) == JoinLines(xs) + "\n" + y
  {
    if |xs| > 1 {
      assert (xs + [y])[1..] == xs[1..] + [y];
      JoinLinesSnoc(xs[1..], y);
    }
  }

  /** When no line holds a newline, splitting the joined text gives back the lines. */
  lemma {:induction false} SplitJoinLines(xs: seq<string>)
    requires xs != []
    requires forall i :: 0 <= i < |xs| ==> '\n' !in xs[i]
    ensures SplitLines(JoinLines(xs)) == xs
  {
    if |xs| == 1 {
      assert LineEnd(xs[0]) == |xs[0]|;
    } else {
      SplitLinesCons(xs[0], JoinLines(xs[1..]));
      SplitJoinLines(xs[1..]);
    }
  }

  /** A newline-free first line splits off whole. */
  lemma {:induction false} SplitLinesCons(x: string, rest: string)
    requires '\n' !in x
    ensures SplitLines(x + "\n" + rest) == [x] + SplitLines(rest)
  {
    var s := x + "\n" + rest;
    assert s[|x|] == '\n';
    forall i | 0 <= i < |x| ensures s[i] != '\n' {
      assert s[i] == x[i] && x[i] in x;
    }
    assert LineEnd(s) == |x|;
    assert s[..|x|] == x;
    assert s[|x| + 1..] == rest;
  }

  /** Joined non-empty lines are empty exactly when there are none. */
  lemma {:induction false} JoinLinesEmptyIff(xs: seq<string>)
    requires forall i :: 0 <= i < |xs| ==> xs[i] != ""
    ensures JoinLines(xs) == "" <==> xs == []
  {
    if |xs| >= 2 {
      assert |JoinLines(xs)| >= |xs[0]|;
    }
  }
}
