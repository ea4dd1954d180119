/** The Python `str` operations the briefing script relies on, as functions on
    `string` (= `seq<char>`), each with the laws that pin down its meaning. */
module Text {

  /** Python's `str.isspace()` for one character: the characters that
      `str.split()` with no argument and `str.strip()` treat as white space. */
  predicate IsSpace(c: char) {
    || ('\t' <= c <= '\r')
    || ('\U{1C}' <= c <= '\U{1F}')
    || c == ' '
    || c == '\U{85}'
    || c == '\U{A0}'
    || c == '\U{1680}'
    || ('\U{2000}' <= c <= '\U{200A}')
    || c == '\U{2028}'
    || c == '\U{2029}'
    || c == '\U{202F}'
    || c == '\U{205F}'
    || c == '\U{3000}'
  }

  /** `p` occurs in `s` starting at position `i`. */
  predicate OccursAt(s: string, p: string, i: nat) {
    i + |p| <= |s| && s[i..i + |p|] == p
  }

  /** Python's `p in s` on strings: `p` occurs in `s` as a contiguous block. */
  predicate Contains(s: string, p: string) {
    exists i: nat :: i <= |s| && OccursAt(s, p, i)
  }

  /** `p` occurs in `s` when it starts `s` or occurs in the rest of `s`. */
  lemma ContainsUnfold(s: string, p: string)
    ensures Contains(s, p) <==> p <= s || (|s| > 0 && Contains(s[1..], p))
  {
    if Contains(s, p) {
      var i: nat :| i <= |s| && OccursAt(s, p, i);
      if i > 0 {
        assert s[1..][i - 1..i - 1 + |p|] == s[i..i + |p|];
        assert OccursAt(s[1..], p, i - 1);
      }
    }
    if p <= s {
      assert OccursAt(s, p, 0);
    }
    if |s| > 0 && Contains(s[1..], p) {
      var j: nat :| j <= |s| - 1 && OccursAt(s[1..], p, j);
      assert s[1..][j..j + |p|] == s[j + 1..j + 1 + |p|];
      assert OccursAt(s, p, j + 1);
    }
  }

  lemma ContainsShort(s: string, p: string)
    requires |s| < |p|
    ensures !Contains(s, p)
  {
  }

  /** Whatever is spliced between two strings is contained in the result. */
  lemma ContainsInfix(a: string, x: string, b: string)
    ensures Contains(a + x + b, x)
  {
    assert (a + x + b)[|a|..|a| + |x|] == x;
    assert OccursAt(a + x + b, x, |a|);
  }

  /** Containment is transitive. */
  lemma ContainsTrans(a: string, b: string, c: string)
    requires Contains(a, b) && Contains(b, c)
    ensures Contains(a, c)
  {
    var i: nat :| i <= |a| && OccursAt(a, b, i);
    var j: nat :| j <= |b| && OccursAt(b, c, j);
    assert forall k :: 0 <= k < |c| ==> a[i + j + k] == a[i..i + |b|][j + k] == b[j + k] == c[k];
    assert a[i + j..i + j + |c|] == c;
    assert OccursAt(a, c, i + j);
  }

  /** Containing a longer pattern means containing each of its prefixes. */
  lemma ContainsPrefixOfPattern(s: string, p: string, q: string)
    requires Contains(s, p + q)
    ensures Contains(s, p)
  {
    var i: nat :| i <= |s| && OccursAt(s, p + q, i);
    assert s[i..i + |p|] == (p + q)[..|p|];
    assert OccursAt(s, p, i);
  }

  /** A one-character string is contained exactly when the character occurs. */
  lemma ContainsChar(s: string, c: char)
    ensures Contains(s, [c]) <==> c in s
  {
    if c in s {
      var i :| 0 <= i < |s| && s[i] == c;
      assert OccursAt(s, [c], i);
    }
    if Contains(s, [c]) {
      var i: nat :| i <= |s| && OccursAt(s, [c], i);
      assert s[i] == c;
    }
  }

  /** Python's `s.replace(pat, rep)` for a non-empty `pat`: every occurrence of
      `pat`, found left to right without overlap, becomes `rep`. */
  function Replace(s: string, pat: string, rep: string): string
    requires |pat| > 0
    decreases |s|
  {
    if |s| < |pat| then s
    else if s[..|pat|] == pat then rep + Replace(s[|pat|..], pat, rep)
    else [s[0]] + Replace(s[1..], pat, rep)
  }

  /** Replacing one character by another maps each position separately and
      keeps the length. */
  lemma {:induction false} ReplaceChar(s: string, a: char, b: char)
    ensures |Replace(s, [a], [b])| == |s|
    ensures forall i :: 0 <= i < |s| ==>
              Replace(s, [a], [b])[i] == if s[i] == a then b else s[i]
  {
    if |s| > 0 {
      ReplaceChar(s[1..], a, b);
      assert s[..1] == [s[0]];
    }
  }

  /** A prefix without the pattern's first character is kept as it is. */
  lemma {:induction false} ReplaceKeepsPrefix(p: string, rest: string, pat: string, rep: string)
    requires |pat| > 0 && pat[0] !in p
    ensures Replace(p + rest, pat, rep) == p + Replace(rest, pat, rep)
    decreases |p|
  {
    var s := p + rest;
    if p != [] {
      if |s| < |pat| {
        assert Replace(rest, pat, rep) == rest;
      } else {
        assert s[0] == p[0] && s[..|pat|][0] == p[0];
        assert s[1..] == p[1..] + rest;
        ReplaceKeepsPrefix(p[1..], rest, pat, rep);
      }
    } else {
      assert s == rest;
    }
  }

  /** Replacing a pattern that does not occur changes nothing. */
  lemma {:induction false} ReplaceAbsent(s: string, pat: string, rep: string)
    requires |pat| > 0 && !Contains(s, pat)
    ensures Replace(s, pat, rep) == s
  {
    if |s| >= |pat| {
      ContainsUnfold(s, pat);
      assert s[..|pat|] != pat;
      ReplaceAbsent(s[1..], pat, rep);
      assert [s[0]] + s[1..] == s;
    }
  }

  /** Replacing one character by another distributes over concatenation. */
  lemma ReplaceCharAppend(a: string, b: string, x: char, y: char)
    ensures Replace(a + b, [x], [y]) == Replace(a, [x], [y]) + Replace(b, [x], [y])
  {
    ReplaceChar(a, x, y);
    ReplaceChar(b, x, y);
    ReplaceChar(a + b, x, y);
    var l, r := Replace(a + b, [x], [y]), Replace(a, [x], [y]) + Replace(b, [x], [y]);
    forall i | 0 <= i < |l| ensures l[i] == r[i] {
      if i < |a| {
        assert (a + b)[i] == a[i];
      } else {
        assert (a + b)[i] == b[i - |a|];
      }
    }
  }

  /** The three-backtick code-fence marker. */
  const Fence: string := "```"

  /** A string that does not start with two backticks keeps that property
      when fences are removed from it. */
  lemma NoDoubleTickAfterRemoval(s: string)
    requires !("``" <= s)
    ensures !("``" <= Replace(s, Fence, ""))
  {
    if |s| >= 3 && s[0] == '`' {
      assert s[1] != '`';
      if |s| >= 4 {
        assert s[1..][..3] != Fence;
        assert Replace(s[1..], Fence, "") == [s[1]] + Replace(s[2..], Fence, "");
      }
    }
  }

  /** Removing every fence marker leaves none behind: a run of backticks loses
      whole triples and keeps fewer than three, and runs stay separated by the
      characters between them. */
  lemma {:induction false} NoFenceAfterRemoval(s: string)
    ensures !Contains(Replace(s, Fence, ""), Fence)
    decreases |s|
  {
    var r := Replace(s, Fence, "");
    if |s| < 3 {
      ContainsShort(s, Fence);
    } else if s[..3] == Fence {
      NoFenceAfterRemoval(s[3..]);
      assert r == Replace(s[3..], Fence, "");
    } else {
      var t := Replace(s[1..], Fence, "");
      NoFenceAfterRemoval(s[1..]);
      assert r == [s[0]] + t;
      assert r[1..] == t;
      ContainsUnfold(r, Fence);
      if s[0] == '`' {
        assert !("``" <= s[1..]);
        NoDoubleTickAfterRemoval(s[1..]);
        assert !(Fence <= r);
      } else {
        assert !(Fence <= r);
      }
    }
  }

  /** The length of the longest prefix of `s` free of white space. */
  function WordLen(s: string): (k: nat)
    ensures k <= |s|
    ensures forall i :: 0 <= i < k ==> !IsSpace(s[i])
    ensures k < |s| ==> IsSpace(s[k])
  {
    if s == [] || IsSpace(s[0]) then 0 else 1 + WordLen(s[1..])
  }

  /** A token of `str.split()`: non-empty and free of white space. */
  predicate IsWord(w: string) {
    |w| > 0 && forall i :: 0 <= i < |w| ==> !IsSpace(w[i])
  }

  /** Python's `s.split()` with no argument: the maximal runs of non-space
      characters, in order. */
  function Split(s: string): seq<string>
    decreases |s|
  {
    if s == [] then []
    else if IsSpace(s[0]) then Split(s[1..])
    else
      var k := WordLen(s);
      [s[..k]] + Split(s[k..])
  }

  /** Every token is a word. */
  lemma {:induction false} SplitWords(s: string)
    ensures forall i :: 0 <= i < |Split(s)| ==> IsWord(Split(s)[i])
    decreases |s|
  {
    if s != [] {
      if IsSpace(s[0]) {
        SplitWords(s[1..]);
      } else {
        SplitWords(s[WordLen(s)..]);
      }
    }
  }

  /** Every character of a token is a character of the string split. */
  lemma {:induction false} SplitChars(s: string)
    ensures forall i, c :: 0 <= i < |Split(s)| && c in Split(s)[i] ==> c in s
    decreases |s|
  {
    if s != [] {
      if IsSpace(s[0]) {
        SplitChars(s[1..]);
        assert forall c :: c in s[1..] ==> c in s;
      } else {
        var k := WordLen(s);
        SplitChars(s[k..]);
        assert forall c :: c in s[k..] ==> c in s;
        assert forall c :: c in s[..k] ==> c in s;
      }
    }
  }

  /** The word at the front of `a + t` is the one at the front of `a` when it
      ends inside `a`, or when `t` starts with white space. */
  lemma {:induction false} WordLenAppend(a: string, t: string)
    requires WordLen(a) < |a| || (t != [] && IsSpace(t[0]))
    ensures WordLen(a + t) == WordLen(a)
  {
    if a != [] && !IsSpace(a[0]) {
      WordLenAppend(a[1..], t);
      assert (a + t)[1..] == a[1..] + t;
    }
  }

  /** One white-space character separates: splitting around it is splitting
      both sides. */
  lemma {:induction false} SplitAtSpace(a: string, w: char, b: string)
    requires IsSpace(w)
    ensures Split(a + [w] + b) == Split(a) + Split(b)
    decreases |a|, 2
  {
    var s := a + [w] + b;
    if a == [] {
      assert s[1..] == b;
    } else if IsSpace(a[0]) {
      SplitAtSpace(a[1..], w, b);
      assert s[1..] == a[1..] + [w] + b;
    } else {
      SplitAtSpaceAfterWord(a, w, b);
    }
  }

  /** A string that starts with a word splits into that word and the split
      of what follows it. */
  lemma SplitWordFirst(s: string)
    requires s != [] && !IsSpace(s[0])
    ensures Split(s) == [s[..WordLen(s)]] + Split(s[WordLen(s)..])
  {
  }

  /** When the word at the front of `a` ends inside `a` or where `t` starts
      with white space, it is also the first token of `a + t`. */
  lemma SplitWordAppend(a: string, t: string)
    requires a != [] && !IsSpace(a[0])
    requires WordLen(a) < |a| || (t != [] && IsSpace(t[0]))
    ensures Split(a + t) == [a[..WordLen(a)]] + Split((a + t)[WordLen(a)..])
  {
    var s, k := a + t, WordLen(a);
    WordLenAppend(a, t);
    SplitWordFirst(s);
    assert s[..k] == a[..k];
  }

  /** The case of `SplitAtSpace` where `a` starts with a word. */
  lemma {:induction false} SplitAtSpaceAfterWord(a: string, w: char, b: string)
    requires IsSpace(w) && a != [] && !IsSpace(a[0])
    ensures Split(a + [w] + b) == Split(a) + Split(b)
    decreases |a|, 1
  {
    var k := WordLen(a);
    assert a + [w] + b == a + ([w] + b);
    SplitWordAppend(a, [w] + b);
    SplitWordFirst(a);
    SplitRestAtSpace(a, w, b);
  }

  /** What follows the first word of `a` splits, around `w`, as the rest of
      `a` and then `b`. */
  lemma {:induction false} SplitRestAtSpace(a: string, w: char, b: string)
    requires IsSpace(w) && a != [] && !IsSpace(a[0])
    ensures Split((a + [w] + b)[WordLen(a)..]) == Split(a[WordLen(a)..]) + Split(b)
    decreases |a|, 0
  {
    var k := WordLen(a);
    if k < |a| {
      assert (a + [w] + b)[k..] == a[k..] + [w] + b;
      SplitAtSpace(a[k..], w, b);
    } else {
      SplitAfterLastWord(a, w, b, k);
    }
  }

  /** When the word at the front of `a` is all of `a`, what follows it in
      `a + [w] + b` splits as `b` does. */
  lemma SplitAfterLastWord(a: string, w: char, b: string, k: nat)
    requires IsSpace(w) && k == |a|
    ensures Split(a[k..]) == [] && Split((a + [w] + b)[k..]) == Split(b)
  {
    assert a[k..] == [];
    assert (a + [w] + b)[k..] == [w] + b;
    assert ([w] + b)[1..] == b;
  }

  /** A single word splits into itself. */
  lemma SplitOfWord(w: string)
    requires IsWord(w)
    ensures Split(w) == [w]
  {
    assert WordLen(w) == |w|;
    assert w[..|w|] == w && w[|w|..] == [];
  }

  /** A string of white space only splits into nothing. */
  lemma {:induction false} SplitOfBlank(s: string)
    requires forall i :: 0 <= i < |s| ==> IsSpace(s[i])
    ensures Split(s) == []
  {
    if s != [] {
      SplitOfBlank(s[1..]);
    }
  }

  /** A string of white space only (the empty string included). */
  predicate Blank(s: string) {
    forall k :: 0 <= k < |s| ==> IsSpace(s[k])
  }

  /** The number of white-space characters `s` starts with: what `lstrip()`
      cuts away. */
  function LeadingSpace(s: string): (k: nat)
    ensures k <= |s|
    ensures forall m :: 0 <= m < k ==> IsSpace(s[m])
    ensures k < |s| ==> !IsSpace(s[k])
  {
    if s == [] || !IsSpace(s[0]) then 0
    else 1 + LeadingSpace(s[1..])
  }

  /** The number of white-space characters `s` ends with: what `rstrip()`
      cuts away. */
  function TrailingSpace(s: string): (k: nat)
    ensures k <= |s|
    ensures forall m :: |s| - k <= m < |s| ==> IsSpace(s[m])
    ensures k < |s| ==> !IsSpace(s[|s| - k - 1])
  {
    if s == [] || !IsSpace(s[|s| - 1]) then 0
    else 1 + TrailingSpace(s[..|s| - 1])
  }

  /** Python's `s.strip()`: neither end of the result is white space, and the
      result is a block of `s` around which only white space was cut away. */
  function Strip(s: string): (r: string)
    ensures r == [] || (!IsSpace(r[0]) && !IsSpace(r[|r| - 1]))
    ensures LeadingSpace(s) + |r| <= |s|
    ensures r == s[LeadingSpace(s)..LeadingSpace(s) + |r|]
    ensures Blank(s[..LeadingSpace(s)]) && Blank(s[LeadingSpace(s) + |r|..])
  {
    var i := LeadingSpace(s);
    var j := |s| - TrailingSpace(s[i..]);
    StripCutFront(s, i);
    StripCutBack(s, i, j);
    s[i..j]
  }

  /** What `lstrip()` cuts away is white space, and what it keeps does not
      start with white space. */
  lemma StripCutFront(s: string, i: nat)
    requires i == LeadingSpace(s)
    ensures Blank(s[..i])
    ensures i < |s| ==> !IsSpace(s[i])
  {
  }

  /** What `rstrip()` then cuts away is white space, and what it keeps does
      not end with white space. */
  lemma StripCutBack(s: string, i: nat, j: int)
    requires i <= |s| && j == |s| - TrailingSpace(s[i..])
    ensures i <= j <= |s| && Blank(s[j..])
    ensures i < j ==> !IsSpace(s[j - 1])
  {
    var t := s[i..];
    var k := TrailingSpace(t);
    forall m | 0 <= m < |s[j..]| ensures IsSpace(s[j..][m]) {
      assert s[j..][m] == t[|t| - k + m];
    }
    if i < j {
      assert s[j - 1] == t[|t| - k - 1];
    }
  }

  /** Every character of the stripped string is one of `s`. */
  lemma StripChars(s: string)
    ensures forall c :: c in Strip(s) ==> c in s
  {
    var r, i := Strip(s), LeadingSpace(s);
    forall c | c in r ensures c in s {
      var k :| 0 <= k < |r| && r[k] == c;
      assert s[i + k] == c;
    }
  }

  /** White space in front of a string that does not start with white space
      is exactly what `lstrip()` cuts away. */
  lemma {:induction false} LeadingSpaceOf(p: string, t: string)
    requires Blank(p) && (t == [] || !IsSpace(t[0]))
    ensures LeadingSpace(p + t) == |p|
  {
    if p == [] {
      assert p + t == t;
    } else {
      assert (p + t)[0] == p[0];
      assert (p + t)[1..] == p[1..] + t;
      LeadingSpaceOf(p[1..], t);
    }
  }

  /** White space behind a string that does not end with white space is
      exactly what `rstrip()` cuts away. */
  lemma {:induction false} TrailingSpaceOf(t: string, q: string)
    requires Blank(q) && (t == [] || !IsSpace(t[|t| - 1]))
    ensures TrailingSpace(t + q) == |q|
  {
    if q == [] {
      assert t + q == t;
    } else {
      var n := |t + q|;
      assert (t + q)[n - 1] == q[|q| - 1];
      assert (t + q)[..n - 1] == t + q[..|q| - 1];
      TrailingSpaceOf(t, q[..|q| - 1]);
    }
  }

  /** Stripping a padded string gives back what was padded. */
  lemma StripPadded(p: string, a: string, q: string)
    requires Blank(p) && Blank(q)
    requires a != [] && !IsSpace(a[0]) && !IsSpace(a[|a| - 1])
    ensures Strip(p + a + q) == a
  {
    var s := p + a + q;
    assert s == p + (a + q);
    LeadingSpaceOf(p, a + q);
    assert s[|p|..] == a + q;
    TrailingSpaceOf(a, q);
    assert (a + q)[..|a|] == a;
  }

  /** Stripping a string of white space only leaves nothing. */
  lemma StripBlank(s: string)
    requires Blank(s)
    ensures Strip(s) == []
  {
    assert LeadingSpace(s) == |s|;
  }

  /** The first position of `c` in `s`. */
  function IndexOf(s: string, c: char): (k: nat)
    requires c in s
    ensures k < |s| && s[k] == c && c !in s[..k]
  {
    if s[0] == c then 0
    else
      var k := 1 + IndexOf(s[1..], c);
      assert s[..k] == [s[0]] + s[1..][..k - 1];
      k
  }

  /** Python's `s.split(sep)` for a one-character separator: the pieces
      between separators, empty ones included, so there is always one piece
      more than there are separators. */
  function SplitOn(s: string, sep: char): (r: seq<string>)
    ensures |r| >= 1
    ensures forall i :: 0 <= i < |r| ==> sep !in r[i]
    ensures forall i, c :: 0 <= i < |r| && c in r[i] ==> c in s
    decreases |s|
  {
    if sep !in s then [s]
    else
      var k := IndexOf(s, sep);
      assert forall c :: c in s[k + 1..] ==> c in s;
      assert forall c :: c in s[..k] ==> c in s;
      [s[..k]] + SplitOn(s[k + 1..], sep)
  }

  /** Joining pieces free of the separator and splitting on it gives the
      pieces back. */
  lemma {:induction false} SplitOnJoin(xs: seq<string>, sep: char)
    requires |xs| >= 1
    requires forall i :: 0 <= i < |xs| ==> sep !in xs[i]
    ensures SplitOn(Join(xs, [sep]), sep) == xs
  {
    if |xs| > 1 {
      var a, t := xs[0], Join(xs[1..], [sep]);
      var s := a + [sep] + t;
      assert Join(xs, [sep]) == s;
      assert s[|a|] == sep && s[..|a|] == a;
      IndexOfAt(s, sep, |a|);
      assert s[|a| + 1..] == t;
      SplitOnJoin(xs[1..], sep);
      assert xs == [a] + xs[1..];
    }
  }

  /** The first position of `c` is the position of `c` with no `c` before it. */
  lemma {:induction false} IndexOfAt(s: string, c: char, k: nat)
    requires k < |s| && s[k] == c && c !in s[..k]
    ensures IndexOf(s, c) == k
  {
    if k > 0 {
      assert s[0] == s[..k][0];
      assert s[1..][..k - 1] == s[1..k];
      assert forall x :: x in s[1..k] ==> x in s[..k];
      IndexOfAt(s[1..], c, k - 1);
    }
  }

  /** Python's `sep.join(xs)`. */
  function Join(xs: seq<string>, sep: string): string {
    if |xs| == 0 then ""
    else if |xs| == 1 then xs[0]
    else xs[0] + sep + Join(xs[1..], sep)
  }

  /** A join starts with its first piece. */
  lemma JoinStartsWithFirst(xs: seq<string>, sep: string)
    requires |xs| > 0
    ensures xs[0] <= Join(xs, sep)
  {
  }

  /** Splitting on a separator and joining with it gives the string back. */
  lemma {:induction false} JoinSplitOn(s: string, sep: char)
    ensures Join(SplitOn(s, sep), [sep]) == s
    decreases |s|
  {
    if sep in s {
      var k := IndexOf(s, sep);
      var rest := SplitOn(s[k + 1..], sep);
      var r := SplitOn(s, sep);
      assert r == [s[..k]] + rest;
      assert r[1..] == rest;
      assert Join(r, [sep]) == s[..k] + [sep] + Join(rest, [sep]);
      JoinSplitOn(s[k + 1..], sep);
      assert s == s[..k] + [sep] + s[k + 1..];
    }
  }

  /** The list comprehension `[x for x in xs if x]`: the non-empty strings of
      `xs`, in order. */
  function KeepNonEmpty(xs: seq<string>): (r: seq<string>)
    ensures forall i :: 0 <= i < |r| ==> r[i] != []
    ensures forall x :: x in r ==> x in xs
  {
    if xs == [] then []
    else if xs[0] == [] then KeepNonEmpty(xs[1..])
    else [xs[0]] + KeepNonEmpty(xs[1..])
  }

  /** Filtering a list with no empty string in it keeps all of it. */
  lemma {:induction false} KeepNonEmptyAll(xs: seq<string>)
    requires forall i :: 0 <= i < |xs| ==> xs[i] != []
    ensures KeepNonEmpty(xs) == xs
  {
    if xs != [] {
      KeepNonEmptyAll(xs[1..]);
    }
  }

  /** Filtering a list of empty strings keeps nothing. */
  lemma {:induction false} KeepNonEmptyNone(xs: seq<string>)
    requires forall i :: 0 <= i < |xs| ==> xs[i] == []
    ensures KeepNonEmpty(xs) == []
  {
    if xs != [] {
      KeepNonEmptyNone(xs[1..]);
    }
  }

  /** `"".join(xs)`. */
  function Concat(xs: seq<string>): string {
    if xs == [] then "" else xs[0] + Concat(xs[1..])
  }

  lemma {:induction false} ConcatAppend(a: seq<string>, b: seq<string>)
    ensures Concat(a + b) == Concat(a) + Concat(b)
  {
    if a != [] {
      assert (a + b)[1..] == a[1..] + b;
      ConcatAppend(a[1..], b);
    } else {
      assert a + b == b;
    }
  }

  /** Each piece appears verbatim in the concatenation. */
  lemma ConcatContains(xs: seq<string>, i: nat)
    requires i < |xs|
    ensures Contains(Concat(xs), xs[i])
  {
    var before, rest := xs[..i], xs[i..];
    assert xs == before + rest;
    ConcatAppend(before, rest);
    assert rest[0] == xs[i] && rest[1..] == xs[i + 1..];
    var pre, post := Concat(before), Concat(xs[i + 1..]);
    assert Concat(xs) == pre + (xs[i] + post);
    assert Concat(xs) == pre + xs[i] + post;
    ContainsInfix(pre, xs[i], post);
  }
}
