/**
 * The few pieces of Python's `str` behaviour that the consultation engine
 * relies on: `str.split()` with no argument, `str.count`, `str.lower`,
 * the substring test `k in s`, and `sep.join(xs)`.
 * Python strings are sequences of code points, as Dafny strings are.
 */
module Text {

  /** The characters Python's `str.isspace()` accepts; `str.split()` with no
      argument uses exactly these as separators. */
  predicate IsSpace(c: char) {
    || ('\t' <= c <= '\r')                 // U+0009 .. U+000D
    || ('\U{1C}' <= c <= '\U{1F}')         // information separators
    || c == ' '
    || c == '\U{85}' || c == '\U{A0}'
    || c == '\U{1680}'
    || ('\U{2000}' <= c <= '\U{200A}')
    || c == '\U{2028}' || c == '\U{2029}'
    || c == '\U{202F}' || c == '\U{205F}' || c == '\U{3000}'
  }

  /** No whitespace at all in `w`. */
  predicate NoSpace(w: string) {
    forall i :: 0 <= i < |w| ==> !IsSpace(w[i])
  }

  /** A token as `str.split()` yields it: non-empty and free of whitespace. */
  predicate IsWord(w: string) {
    w != [] && NoSpace(w)
  }

  /** Length of the word that starts `s`: the index of the first whitespace
      character, or `|s|` when there is none. */
  function WordLength(s: string): (k: nat)
    requires s != [] && !IsSpace(s[0])
    ensures 1 <= k <= |s|
    ensures NoSpace(s[..k])
    ensures k < |s| ==> IsSpace(s[k])
  {
    if |s| == 1 || IsSpace(s[1]) then 1
    else
      var k' := WordLength(s[1..]);
      assert s[..k' + 1] == [s[0]] + s[1..][..k'];
      1 + k'
  }

  /** The end of the leading word is determined by the whitespace alone. */
  lemma WordLengthUnique(s: string, k: nat)
    requires s != [] && !IsSpace(s[0])
    requires k <= |s| && NoSpace(s[..k]) && (k < |s| ==> IsSpace(s[k]))
    ensures WordLength(s) == k
  {
    var k0 := WordLength(s);
    assert forall i :: 0 <= i < k0 ==> s[..k0][i] == s[i];
    assert forall i :: 0 <= i < k ==> s[..k][i] == s[i];
    assert k0 < |s| ==> IsSpace(s[k0]);
  }

  /** `s.split()`: the maximal whitespace-free runs of `s`, in order. */
  function Split(s: string): (words: seq<string>)
    ensures forall j :: 0 <= j < |words| ==> IsWord(words[j])
    decreases |s|
  {
    if s == [] then []
    else if IsSpace(s[0]) then Split(s[1..])
    else
      var k := WordLength(s);
      [s[..k]] + Split(s[k..])
  }

  /** A lone word splits into itself. */
  lemma SplitWord(w: string)
    requires IsWord(w)
    ensures Split(w) == [w]
  {
    WordLengthUnique(w, |w|);
    assert w[..|w|] == w;
    assert w[|w|..] == [];
  }

  /** A whitespace character before the text is dropped by the split, so a
      run of whitespace separates no more than a single one does, and
      leading whitespace yields no token. */
  lemma SplitSpace(c: char, s: string)
    requires IsSpace(c)
    ensures Split([c] + s) == Split(s)
  {
    assert ([c] + s)[1..] == s;
  }

  /** A word followed by whitespace is the first token, and the split goes
      on after that whitespace character. */
  lemma SplitWordSpace(w: string, c: char, s: string)
    requires IsWord(w) && IsSpace(c)
    ensures Split(w + [c] + s) == [w] + Split(s)
  {
    var t := w + [c] + s;
    assert t[..|w|] == w;
    assert t[|w|] == c;
    WordLengthUnique(t, |w|);
    assert t[|w|..] == [c] + s;
    SplitSpace(c, s);
  }

  /** `len(s.split())`. */
  function WordCount(s: string): nat {
    |Split(s)|
  }

  /** `"".join(xs)`. */
  function Concat(xs: seq<string>): string {
    if xs == [] then [] else xs[0] + Concat(xs[1..])
  }

  /** Concatenation takes a last element at the back. */
  lemma {:induction false} ConcatSnoc(xs: seq<string>, x: string)
    ensures Concat(xs + [x]) == Concat(xs) + x
    decreases |xs|
  {
    if xs == [] {
      assert [] + [x] == [x];
      assert Concat([x]) == x + Concat([]);
    } else {
      assert (xs + [x])[1..] == xs[1..] + [x];
      ConcatSnoc(xs[1..], x);
    }
  }

  /** `sep.join(xs)`. */
  function Join(sep: string, xs: seq<string>): string {
    if |xs| == 0 then []
    else if |xs| == 1 then xs[0]
    else Join(sep, xs[..|xs| - 1]) + sep + xs[|xs| - 1]
  }

  /** A join is as long as its elements together plus one separator fewer
      than there are elements. */
  lemma {:induction false} JoinLength(sep: string, xs: seq<string>)
    requires xs != []
    ensures |Join(sep, xs)| == |Concat(xs)| + (|xs| - 1) * |sep|
    decreases |xs|
  {
    if |xs| == 1 {
      assert Concat(xs) == xs[0] + Concat([]);
    } else {
      var init, last := xs[..|xs| - 1], xs[|xs| - 1];
      JoinLength(sep, init);
      ConcatSnoc(init, last);
      assert init + [last] == xs;
      var m := |init| - 1;
      assert (m + 1) * |sep| == m * |sep| + |sep|;
    }
  }

  /** A join starts with its first element and ends with its last: there is
      no separator at either end. */
  lemma {:induction false} JoinEnds(sep: string, xs: seq<string>)
    requires xs != []
    ensures |xs[0]| <= |Join(sep, xs)| && Join(sep, xs)[..|xs[0]|] == xs[0]
    ensures |xs[|xs| - 1]| <= |Join(sep, xs)|
    ensures Join(sep, xs)[|Join(sep, xs)| - |xs[|xs| - 1]|..] == xs[|xs| - 1]
    decreases |xs|
  {
    if |xs| > 1 {
      var init := xs[..|xs| - 1];
      JoinEnds(sep, init);
      var j := Join(sep, init);
      assert init[0] == xs[0];
      assert (j + sep + xs[|xs| - 1])[..|xs[0]|] == j[..|xs[0]|];
    }
  }

  /** Joining peels off from the front as well as from the back. */
  lemma {:induction false} JoinCons(sep: string, x: string, xs: seq<string>)
    requires xs != []
    ensures Join(sep, [x] + xs) == x + sep + Join(sep, xs)
    decreases |xs|
  {
    var ys := [x] + xs;
    if |xs| == 1 {
      assert ys[..|ys| - 1] == [x];
    } else {
      var init := xs[..|xs| - 1];
      assert ys[..|ys| - 1] == [x] + init;
      JoinCons(sep, x, init);
    }
  }

  /** The non-whitespace characters of `s`, in order. */
  function Visible(s: string): string {
    if s == [] then []
    else (if IsSpace(s[0]) then [] else [s[0]]) + Visible(s[1..])
  }

  lemma {:induction false} VisiblePrefix(s: string, k: nat)
    requires k <= |s| && NoSpace(s[..k])
    ensures Visible(s) == s[..k] + Visible(s[k..])
    decreases k
  {
    if k > 0 {
      assert s[..k][0] == s[0];
      assert s[1..][..k - 1] == s[1..k];
      VisiblePrefix(s[1..], k - 1);
      assert s[1..][k - 1..] == s[k..];
      assert s[..k] == [s[0]] + s[1..k];
    }
  }

  /** `str.split()` drops the whitespace and nothing else: gluing the words
      back together gives exactly the visible characters of `s`. */
  lemma {:induction false} SplitKeepsVisible(s: string)
    ensures Concat(Split(s)) == Visible(s)
    decreases |s|
  {
    if s == [] {
    } else if IsSpace(s[0]) {
      SplitKeepsVisible(s[1..]);
    } else {
      var k := WordLength(s);
      VisiblePrefix(s, k);
      SplitKeepsVisible(s[k..]);
      assert ([s[..k]] + Split(s[k..]))[1..] == Split(s[k..]);
    }
  }

  /** Round trip: splitting words joined by single spaces gives the words back. */
  lemma {:induction false} SplitJoin(ws: seq<string>)
    requires forall j :: 0 <= j < |ws| ==> IsWord(ws[j])
    ensures Split(Join(" ", ws)) == ws
    decreases |ws|
  {
    if |ws| == 0 {
    } else if |ws| == 1 {
      SplitWord(ws[0]);
    } else {
      var w, rest := ws[0], ws[1..];
      assert ws == [w] + rest;
      JoinCons(" ", w, rest);
      SplitWordSpace(w, ' ', Join(" ", rest));
      SplitJoin(rest);
    }
  }

  /** The number of words depends only on where the whitespace is. */
  lemma {:induction false} SameSpacingSameWordCount(a: string, b: string)
    requires |a| == |b|
    requires forall i :: 0 <= i < |a| ==> (IsSpace(a[i]) <==> IsSpace(b[i]))
    ensures WordCount(a) == WordCount(b)
    decreases |a|
  {
    if a == [] {
    } else if IsSpace(a[0]) {
      SameSpacingSameWordCount(a[1..], b[1..]);
    } else {
      var k := WordLength(a);
      assert forall i :: 0 <= i < k ==> a[..k][i] == a[i] && b[..k][i] == b[i];
      WordLengthUnique(b, k);
      SameSpacingSameWordCount(a[k..], b[k..]);
    }
  }

  /** `s.count(c)` for a single character `c`. */
  function CountOf(s: string, c: char): (n: nat)
    ensures n == multiset(s)[c]
  {
    if s == [] then 0
    else
      assert s == [s[0]] + s[1..];
      (if s[0] == c then 1 else 0) + CountOf(s[1..], c)
  }

  /** An ASCII capital A-Z or a Latin-1 capital U+00C0..U+00DE other than
      the multiplication sign U+00D7. */
  predicate IsCapital(c: char) {
    ('A' <= c <= 'Z') || ('\U{C0}' <= c <= '\U{DE}' && c != '\U{D7}')
  }

  /** `c.lower()` for the characters whose lower case is a single character
      in ASCII and Latin-1: A-Z and the Latin-1 capitals U+00C0..U+00DE
      except the multiplication sign U+00D7. */
  function LowerChar(c: char): char {
    if IsCapital(c) then (c as int + 32) as char
    else c
  }

  /** `s.lower()`, character by character. */
  function Lower(s: string): (r: string)
    ensures |r| == |s|
    ensures forall i :: 0 <= i < |s| ==> r[i] == LowerChar(s[i])
    ensures forall i :: 0 <= i < |r| ==> !IsCapital(r[i])
    ensures forall i :: 0 <= i < |s| && !IsCapital(s[i]) ==> r[i] == s[i]
  {
    seq(|s|, i requires 0 <= i < |s| => LowerChar(s[i]))
  }

  /** A text without capitals is its own lower case. */
  lemma LowerUncapitalized(s: string)
    requires forall i :: 0 <= i < |s| ==> !IsCapital(s[i])
    ensures Lower(s) == s
  {
  }

  /** Lowering keeps whitespace where it was and leaves `?` alone. */
  lemma LowerCharKeepsClass(c: char)
    ensures IsSpace(LowerChar(c)) <==> IsSpace(c)
    ensures LowerChar(c) == '?' <==> c == '?'
    ensures LowerChar(LowerChar(c)) == LowerChar(c)
  {
  }

  /** `s.lower()` is idempotent. */
  lemma LowerIdempotent(s: string)
    ensures Lower(Lower(s)) == Lower(s)
  {
    forall i | 0 <= i < |s| ensures Lower(Lower(s))[i] == Lower(s)[i] {
      LowerCharKeepsClass(s[i]);
    }
  }

  /** `k` occurs in `s` at position `i`. */
  predicate OccursAt(s: string, k: string, i: int) {
    0 <= i && i + |k| <= |s| && s[i..i + |k|] == k
  }

  /** An occurrence that ends no later than where `ext` was appended is an
      occurrence in `s` itself. */
  lemma OccursBeforeExtension(s: string, ext: string, k: string, more: string, i: int)
    requires |more| >= |ext| && OccursAt(s + ext, k + more, i)
    ensures OccursAt(s, k, i)
  {
    var w, e := s + ext, i + |k|;
    assert e <= |s|;
    assert (k + more)[..|k|] == k;
    assert w[i..e + |more|][..|k|] == w[i..e];
    assert forall t :: i <= t < e ==> w[t] == s[t];
    assert w[i..e] == s[i..e];
  }

  /** Python's `k in s`: `k` is a substring of `s` (the empty string is a
      substring of every string). */
  function Contains(s: string, k: string): (b: bool)
    ensures b <==> exists i :: OccursAt(s, k, i)
    decreases |s|
  {
    if |k| > |s| then false
    else if s[..|k|] == k then
      assert OccursAt(s, k, 0);
      true
    else
      ContainsShift(s, k);
      Contains(s[1..], k)
  }

  /** When `k` is not a prefix of `s`, it occurs in `s` exactly when it occurs
      in `s[1..]`. */
  lemma ContainsShift(s: string, k: string)
    requires |k| <= |s| && s[..|k|] != k
    ensures (exists i :: OccursAt(s, k, i)) <==> (exists i :: OccursAt(s[1..], k, i))
  {
    if exists i :: OccursAt(s, k, i) {
      var i :| OccursAt(s, k, i);
      assert i != 0;
      assert s[1..][i - 1..i - 1 + |k|] == s[i..i + |k|];
      assert OccursAt(s[1..], k, i - 1);
    }
    if exists i :: OccursAt(s[1..], k, i) {
      var i :| OccursAt(s[1..], k, i);
      assert s[1..][i..i + |k|] == s[i + 1..i + 1 + |k|];
      assert OccursAt(s, k, i + 1);
    }
  }
}
