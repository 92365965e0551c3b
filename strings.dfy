/**
 * The handful of Python `str` operations the core relies on, stated over
 * `seq<char>`: slicing with a bound, `find`, `in`, `startswith`, `split(sep)`,
 * `sep.join`, `strip()`, `split()` (whitespace tokens), `lower()` and
 * `replace` of one character. Only the ASCII case mapping and the ASCII
 * whitespace characters are modelled.
 */
module Strings {

  /** `s[:n]` for a non-negative bound: the first `n` characters, or all of `s`. */
  function Take<T>(s: seq<T>, n: nat): (r: seq<T>)
    ensures |r| == if n < |s| then n else |s|
    ensures r == s[..|r|]
  {
    if n < |s| then s[..n] else s
  }

  predicate StartsWith(s: string, prefix: string) {
    |prefix| <= |s| && s[..|prefix|] == prefix
  }

  /** `sub` occurs in `s` starting at index `i`. */
  predicate OccursAt(s: string, sub: string, i: nat) {
    i + |sub| <= |s| && s[i..i + |sub|] == sub
  }

  /** `s.find(sub, from)`: the first index at or after `from` where `sub` occurs, or -1. */
  function Find(s: string, sub: string, from: nat): (r: int)
    ensures r == -1 || (from <= r && OccursAt(s, sub, r))
    ensures r == -1 ==> forall i: nat :: from <= i ==> !OccursAt(s, sub, i)
    ensures r != -1 ==> forall i: nat :: from <= i < r ==> !OccursAt(s, sub, i)
    decreases |s| - from
  {
    if from + |sub| > |s| then -1
    else if s[from..from + |sub|] == sub then from
    else Find(s, sub, from + 1)
  }

  /** Python's `sub in s`. */
  predicate Contains(s: string, sub: string) {
    Find(s, sub, 0) != -1
  }

  lemma ContainsIff(s: string, sub: string)
    ensures Contains(s, sub) <==> exists i: nat :: OccursAt(s, sub, i)
  {
    if !Contains(s, sub) {
      assert forall i: nat :: 0 <= i ==> !OccursAt(s, sub, i);
    }
  }

  /** `sep.join(parts)`. */
  function Join(sep: string, parts: seq<string>): (r: string)
    decreases |parts|
  {
    if |parts| == 0 then ""
    else if |parts| == 1 then parts[0]
    else parts[0] + sep + Join(sep, parts[1..])
  }

  /** `s.split(sep)` for a non-empty separator: cut at each occurrence, scanning left to right. */
  function Split(s: string, sep: string): (parts: seq<string>)
    requires sep != []
    ensures |parts| >= 1
    decreases |s|
  {
    var i := Find(s, sep, 0);
    if i == -1 then [s]
    else [s[..i]] + Split(s[i + |sep|..], sep)
  }

  /** A prefix that ends before the first occurrence cannot hold the separator. */
  lemma NoEarlierOccurrence(s: string, sep: string, i: nat)
    requires sep != [] && i <= |s|
    requires forall j: nat :: j < i ==> !OccursAt(s, sep, j)
    ensures !Contains(s[..i], sep)
  {
    var p := s[..i];
    if Contains(p, sep) {
      var j := Find(p, sep, 0);
      assert p[j..j + |sep|] == s[j..j + |sep|];
      assert OccursAt(s, sep, j);
    }
  }

  lemma JoinCons(sep: string, a: string, rest: seq<string>)
    requires rest != []
    ensures Join(sep, [a] + rest) == a + sep + Join(sep, rest)
  {
    assert ([a] + rest)[1..] == rest;
  }

  lemma Recompose(s: string, sep: string, i: nat)
    requires OccursAt(s, sep, i)
    ensures s == s[..i] + sep + s[i + |sep|..]
  {
    assert s == s[..i] + s[i..i + |sep|] + s[i + |sep|..];
  }

  /** Joining the pieces of a split with the same separator gives back the text. */
  lemma {:induction false} JoinSplit(s: string, sep: string)
    requires sep != []
    ensures Join(sep, Split(s, sep)) == s
    decreases |s|
  {
    var i := Find(s, sep, 0);
    if i != -1 {
      var rest := s[i + |sep|..];
      JoinSplit(rest, sep);
      JoinCons(sep, s[..i], Split(rest, sep));
      Recompose(s, sep, i);
    }
  }

  /** With no separator in the text, `split` yields the text alone. */
  lemma SplitWithoutSeparator(s: string, sep: string)
    requires sep != [] && !Contains(s, sep)
    ensures Split(s, sep) == [s]
  {
  }

  /** With the first separator at `i`, the first piece is the text before it. */
  lemma SplitFirst(s: string, sep: string, i: nat)
    requires sep != [] && OccursAt(s, sep, i)
    requires forall j: nat :: j < i ==> !OccursAt(s, sep, j)
    ensures Split(s, sep) == [s[..i]] + Split(s[i + |sep|..], sep)
  {
    var f := Find(s, sep, 0);
    assert f == i;
  }

  /** The first piece of a split is a prefix without the separator, which is either
      the whole text or followed by the separator. */
  lemma FirstPiece(s: string, sep: string)
    requires sep != []
    ensures var p := Split(s, sep)[0];
      StartsWith(s, p) && !Contains(p, sep) && (p == s || OccursAt(s, sep, |p|))
  {
    var i := Find(s, sep, 0);
    if i != -1 {
      NoEarlierOccurrence(s, sep, i);
    }
  }

  /** A text in which the separator's first character never appears does not contain it. */
  lemma ContainsFirstChar(s: string, sep: string)
    requires sep != [] && sep[0] !in s
    ensures !Contains(s, sep)
  {
  }

  /** A slice of a suffix is a slice of the whole text, shifted by where the suffix starts. */
  lemma SliceOfSuffix(s: string, k: nat, a: nat, b: nat)
    requires k <= |s| && a <= b <= |s| - k
    ensures s[k..][a..b] == s[k + a..k + b]
  {
  }

  /** The last piece of a split holds no separator. */
  lemma {:induction false} SplitLastClean(s: string, sep: string)
    requires sep != []
    ensures var parts := Split(s, sep);
      !Contains(parts[|parts| - 1], sep)
    decreases |s|
  {
    var i := Find(s, sep, 0);
    if i != -1 {
      var rest := s[i + |sep|..];
      SplitLastClean(rest, sep);
      SplitFirst(s, sep, i);
      var pr := Split(rest, sep);
      assert ([s[..i]] + pr)[|pr|] == pr[|pr| - 1];
    }
  }

  /** The last piece of a split is a suffix of the text, and when there is more than
      one piece it follows a separator. */
  lemma {:induction false} SplitLastSuffix(s: string, sep: string)
    requires sep != []
    ensures var parts := Split(s, sep);
      var last := parts[|parts| - 1];
      |last| <= |s| && s[|s| - |last|..] == last &&
      (|parts| > 1 ==> |last| + |sep| <= |s| && s[|s| - |last| - |sep|..|s| - |last|] == sep)
    decreases |s|
  {
    var i := Find(s, sep, 0);
    if i == -1 {
      assert s[0..] == s;
    } else {
      var k := i + |sep|;
      var rest := s[k..];
      SplitLastSuffix(rest, sep);
      var pr := Split(rest, sep);
      var last := pr[|pr| - 1];
      SplitFirst(s, sep, i);
      assert ([s[..i]] + pr)[|pr|] == last;
      var a := |rest| - |last|;
      assert k + a == |s| - |last|;
      SliceOfSuffix(s, k, a, |rest|);
      assert s[|s| - |last|..] == s[k + a..k + |rest|];
      if |pr| == 1 {
        assert a == 0 && |s| - |last| - |sep| == i;
        assert s[i..k] == sep;
      } else {
        SliceOfSuffix(s, k, a - |sep|, a);
      }
    }
  }

  /** The last piece of a split is a suffix of the text with no separator in it,
      and when there is more than one piece it follows a separator. */
  lemma SplitLast(s: string, sep: string)
    requires sep != []
    ensures var parts := Split(s, sep);
      var last := parts[|parts| - 1];
      |last| <= |s| && s[|s| - |last|..] == last && !Contains(last, sep) &&
      (|parts| > 1 ==> |last| + |sep| <= |s| && s[|s| - |last| - |sep|..|s| - |last|] == sep)
  {
    SplitLastClean(s, sep);
    SplitLastSuffix(s, sep);
  }

  /** The characters Python's `str.isspace` accepts in the ASCII range. */
  predicate IsSpace(c: char) {
    c == ' ' || (9 <= c as int <= 13) || (28 <= c as int <= 31)
  }

  function TrimLeft(s: string): (r: string)
    ensures |r| <= |s| && r == s[|s| - |r|..]
    ensures forall k :: 0 <= k < |s| - |r| ==> IsSpace(s[k])
    ensures r == [] || !IsSpace(r[0])
  {
    if s != [] && IsSpace(s[0]) then TrimLeft(s[1..]) else s
  }

  function TrimRight(s: string): (r: string)
    ensures |r| <= |s| && r == s[..|r|]
    ensures forall k :: |r| <= k < |s| ==> IsSpace(s[k])
    ensures r == [] || !IsSpace(r[|r| - 1])
  {
    if s != [] && IsSpace(s[|s| - 1]) then TrimRight(s[..|s| - 1]) else s
  }

  /** `s.strip()`: the longest slice without leading or trailing whitespace. */
  function Strip(s: string): (r: string)
    ensures r == [] || (!IsSpace(r[0]) && !IsSpace(r[|r| - 1]))
    ensures exists i, j :: (0 <= i <= j <= |s| && r == s[i..j] &&
      (forall k :: 0 <= k < i ==> IsSpace(s[k])) && (forall k :: j <= k < |s| ==> IsSpace(s[k])))
  {
    var l := TrimLeft(s);
    var r := TrimRight(l);
    assert r == s[|s| - |l|..|s| - |l| + |r|];
    r
  }

  /** `s.split()`: the maximal runs of non-whitespace characters, in order. */
  function Words(s: string): (ws: seq<string>)
    ensures forall k :: 0 <= k < |ws| ==> ws[k] != [] && forall c :: c in ws[k] ==> !IsSpace(c)
    decreases |s|
  {
    var t := TrimLeft(s);
    if t == [] then []
    else
      var n := RunLength(t);
      [t[..n]] + Words(t[n..])
  }

  /** Length of the leading run of non-whitespace characters. */
  function RunLength(s: string): (n: nat)
    ensures n <= |s|
    ensures forall k :: 0 <= k < n ==> !IsSpace(s[k])
    ensures n == |s| || IsSpace(s[n])
  {
    if s == [] || IsSpace(s[0]) then 0 else 1 + RunLength(s[1..])
  }

  /** The same text with every whitespace character removed. */
  function Squeeze(s: string): (r: string)
    ensures forall c :: c in r ==> !IsSpace(c)
  {
    if s == [] then [] else (if IsSpace(s[0]) then [] else [s[0]]) + Squeeze(s[1..])
  }

  function Concat(ws: seq<string>): string {
    if ws == [] then [] else ws[0] + Concat(ws[1..])
  }

  lemma {:induction false} SqueezeAppend(a: string, b: string)
    ensures Squeeze(a + b) == Squeeze(a) + Squeeze(b)
  {
    if a != [] {
      assert (a + b)[1..] == a[1..] + b;
      SqueezeAppend(a[1..], b);
    } else {
      assert a + b == b;
    }
  }

  lemma {:induction false} SqueezeSpaces(s: string)
    requires forall k :: 0 <= k < |s| ==> IsSpace(s[k])
    ensures Squeeze(s) == []
  {
    if s != [] { SqueezeSpaces(s[1..]); }
  }

  lemma {:induction false} SqueezeSolid(s: string)
    requires forall k :: 0 <= k < |s| ==> !IsSpace(s[k])
    ensures Squeeze(s) == s
  {
    if s != [] { SqueezeSolid(s[1..]); }
  }

  lemma ConcatCons(w: string, ws: seq<string>)
    ensures Concat([w] + ws) == w + Concat(ws)
  {
    assert ([w] + ws)[1..] == ws;
  }

  /** Leading whitespace contributes nothing to the squeezed text. */
  lemma SqueezeTrimLeft(s: string)
    ensures Squeeze(s) == Squeeze(TrimLeft(s))
  {
    var t := TrimLeft(s);
    assert s == s[..|s| - |t|] + t;
    SqueezeAppend(s[..|s| - |t|], t);
    SqueezeSpaces(s[..|s| - |t|]);
  }

  /** The words of a text, put back together, are its non-whitespace characters. */
  lemma {:induction false} WordsSqueeze(s: string)
    ensures Concat(Words(s)) == Squeeze(s)
    decreases |s|
  {
    var t := TrimLeft(s);
    SqueezeTrimLeft(s);
    if t != [] {
      var n := RunLength(t);
      assert t == t[..n] + t[n..];
      SqueezeAppend(t[..n], t[n..]);
      SqueezeSolid(t[..n]);
      WordsSqueeze(t[n..]);
      ConcatCons(t[..n], Words(t[n..]));
    }
  }

  function LowerChar(c: char): char {
    if 'A' <= c <= 'Z' then (c as int + 32) as char else c
  }

  /** `s.lower()` on the ASCII letters. */
  function Lower(s: string): (r: string)
    ensures |r| == |s|
    ensures forall k :: 0 <= k < |s| ==> r[k] == LowerChar(s[k])
  {
    seq(|s|, k requires 0 <= k < |s| => LowerChar(s[k]))
  }

  /** `s.replace(a, b)` for single characters `a` and `b`. */
  function ReplaceChar(s: string, a: char, b: char): (r: string)
    ensures |r| == |s|
    ensures forall k :: 0 <= k < |s| ==> r[k] == if s[k] == a then b else s[k]
  {
    seq(|s|, k requires 0 <= k < |s| => if s[k] == a then b else s[k])
  }

  /** Decimal digits of a natural number, as `str(n)` writes them. */
  function NatToString(n: nat): (r: string)
    ensures r != [] && forall c :: c in r ==> '0' <= c <= '9'
  {
    var d := ['0' + (n % 10) as char];
    if n < 10 then d else NatToString(n / 10) + d
  }
}
