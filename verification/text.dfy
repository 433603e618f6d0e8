/** The three PHP string built-ins the plugin relies on, restricted to the way
    it calls them: `trim($s, '/')`, `strrpos($s, '.')` and `substr($s, $start)`.
    Strings are sequences of characters; PHP works on bytes, and the model
    treats one character as one byte. */
module Text {
  import opened Wrappers

  /** Every character of `t` is a slash (vacuously true of the empty string). */
  predicate AllSlashes(t: string) {
    forall k :: 0 <= k < |t| ==> t[k] == '/'
  }

  /** `t` neither starts nor ends with a slash. */
  predicate NoEdgeSlash(t: string) {
    |t| == 0 || (t[0] != '/' && t[|t| - 1] != '/')
  }

  /** `ltrim($s, '/')`: drops the longest run of slashes at the front. */
  function TrimLeft(s: string): (t: string) {
    if |s| > 0 && s[0] == '/' then TrimLeft(s[1..]) else s
  }

  /** `rtrim($s, '/')`: drops the longest run of slashes at the back. */
  function TrimRight(s: string): (t: string) {
    if |s| > 0 && s[|s| - 1] == '/' then TrimRight(s[..|s| - 1]) else s
  }

  /** `trim($s, '/')`: the part of `s` left once every leading and every
      trailing slash is removed. */
  function Trim(s: string): (t: string) {
    TrimRight(TrimLeft(s))
  }

  /** What `TrimLeft` keeps is a suffix of its input that does not start
      with a slash, and everything it drops is a slash. */
  lemma {:induction false} TrimLeftShape(s: string)
    ensures |TrimLeft(s)| <= |s| && TrimLeft(s) == s[|s| - |TrimLeft(s)|..]
    ensures AllSlashes(s[..|s| - |TrimLeft(s)|])
    ensures |TrimLeft(s)| == 0 || TrimLeft(s)[0] != '/'
  {
    if |s| > 0 && s[0] == '/' {
      TrimLeftShape(s[1..]);
      var r := TrimLeft(s);
      assert s[..|s| - |r|] == [s[0]] + s[1..][..|s| - 1 - |r|];
    }
  }

  /** What `TrimRight` keeps is a prefix of its input that does not end with
      a slash, and everything it drops is a slash. */
  lemma {:induction false} TrimRightShape(s: string)
    ensures |TrimRight(s)| <= |s| && TrimRight(s) == s[..|TrimRight(s)|]
    ensures AllSlashes(s[|TrimRight(s)|..])
    ensures |TrimRight(s)| == 0 || TrimRight(s)[|TrimRight(s)| - 1] != '/'
  {
    if |s| > 0 && s[|s| - 1] == '/' {
      TrimRightShape(s[..|s| - 1]);
      var r := TrimRight(s);
      assert s[|r|..] == s[..|s| - 1][|r|..] + [s[|s| - 1]];
    }
  }

  /** `trim($s, '/')` never starts or ends with a slash and is never longer
      than its input. */
  lemma {:induction false} TrimShape(s: string)
    ensures NoEdgeSlash(Trim(s)) && |Trim(s)| <= |s|
  {
    TrimLeftShape(s);
    TrimRightShape(TrimLeft(s));
  }

  /** `strrpos($s, $c)`: the index of the last occurrence of `c` in `s`,
      or None where PHP answers `false`. */
  function LastIndexOf(s: string, c: char): (r: Option<nat>)
    ensures r.None? <==> c !in s
    ensures r.Some? ==> r.value < |s| && s[r.value] == c && c !in s[r.value + 1..]
  {
    if |s| == 0 then None
    else if s[|s| - 1] == c then Some(|s| - 1)
    else
      var r := LastIndexOf(s[..|s| - 1], c);
      assert s == s[..|s| - 1] + [s[|s| - 1]];
      r
  }

  /** `substr($s, $start)` for a start offset that PHP has already coerced to
      an integer: `false` becomes 0, and an offset inside the string keeps
      the suffix from that offset on. */
  function SuffixFrom(s: string, start: Option<nat>): (r: string)
    requires start.Some? ==> start.value <= |s|
  {
    match start
    case None => s
    case Some(i) => s[i..]
  }

  /** Slashes in front of a string that does not itself start with one are
      exactly what `TrimLeft` removes. */
  lemma {:induction false} TrimLeftSkips(a: string, t: string)
    requires AllSlashes(a)
    requires |t| == 0 || t[0] != '/'
    ensures TrimLeft(a + t) == t
  {
    if |a| > 0 {
      assert (a + t)[1..] == a[1..] + t;
      TrimLeftSkips(a[1..], t);
    } else {
      assert a + t == t;
    }
  }

  /** Slashes behind a string that does not itself end with one are exactly
      what `TrimRight` removes. */
  lemma {:induction false} TrimRightSkips(t: string, b: string)
    requires AllSlashes(b)
    requires |t| == 0 || t[|t| - 1] != '/'
    ensures TrimRight(t + b) == t
  {
    if |b| > 0 {
      assert (t + b)[..|t + b| - 1] == t + b[..|b| - 1];
      TrimRightSkips(t, b[..|b| - 1]);
    } else {
      assert t + b == t;
    }
  }

  /** The reference characterisation of `trim($s, '/')`: a string with no
      slash at either edge, wrapped in any runs of slashes, trims back to
      itself. Together with the contract of `Trim`, which says every string
      has this shape around its trimmed value, this pins `Trim` down. */
  lemma {:induction false} TrimUnique(a: string, m: string, b: string)
    requires AllSlashes(a) && AllSlashes(b)
    requires NoEdgeSlash(m)
    ensures Trim(a + m + b) == m
  {
    if |m| == 0 {
      assert a + m + b == (a + b) + m;
      SlashesJoin(a, b);
      TrimLeftSkips(a + b, m);
      TrimRightSkips(m, []);
      assert m + [] == m;
    } else {
      assert a + m + b == a + (m + b);
      TrimLeftSkips(a, m + b);
      TrimRightSkips(m, b);
    }
  }

  /** Two runs of slashes joined are one run of slashes. */
  lemma {:induction false} SlashesJoin(x: string, y: string)
    requires AllSlashes(x) && AllSlashes(y)
    ensures AllSlashes(x + y)
  {
    forall k | 0 <= k < |x + y| ensures (x + y)[k] == '/' {
      if k < |x| { assert (x + y)[k] == x[k]; } else { assert (x + y)[k] == y[k - |x|]; }
    }
  }

  /** Adding or removing slashes at either end never changes what `trim`
      returns. */
  lemma {:induction false} TrimIgnoresEdgeSlashes(a: string, s: string, b: string)
    requires AllSlashes(a) && AllSlashes(b)
    ensures Trim(a + s + b) == Trim(s)
  {
    var front, back := TrimSplit(s);
    var r := Trim(s);
    TrimShape(s);
    SlashesJoin(a, front);
    SlashesJoin(back, b);
    Regroup(a, front, r, back, b);
    TrimUnique(a + front, r, back + b);
  }

  // The four small lemmas below state plain facts about concatenation and
  // slicing. They model nothing of the plugin: naming each step keeps the
  // solver from searching for it, which keeps the proofs that call them
  // cheap.

  /** Concatenation regroups freely. */
  lemma Regroup(a: string, f: string, r: string, k: string, b: string)
    ensures a + (f + r + k) + b == (a + f) + r + (k + b)
  {
  }

  /** Cutting a concatenation where its parts meet gives the parts back. */
  lemma SplitConcat(a: string, b: string)
    ensures (a + b)[..|a|] == a && (a + b)[|a|..] == b
  {
  }

  /** Concatenation is associative. */
  lemma Assoc(a: string, b: string, c: string)
    ensures a + b + c == a + (b + c)
  {
  }

  /** Empty strings on either side change nothing. */
  lemma Unwrap(r: string)
    ensures [] + r + [] == r
  {
  }

  /** Every string is its trimmed value wrapped in two runs of slashes. */
  lemma {:induction false} TrimSplit(s: string) returns (front: string, back: string)
    ensures AllSlashes(front) && AllSlashes(back)
    ensures s == front + Trim(s) + back
  {
    var l := TrimLeft(s);
    var r := TrimRight(l);
    TrimLeftShape(s);
    TrimRightShape(l);
    front, back := s[..|s| - |l|], l[|r|..];
    CutTwice(s, l, r);
  }

  /** Cutting `s` before its suffix `l`, and `l` after its prefix `r`, leaves
      three pieces that put back together make `s`. */
  lemma CutTwice(s: string, l: string, r: string)
    requires |l| <= |s| && l == s[|s| - |l|..]
    requires |r| <= |l| && r == l[..|r|]
    ensures s == s[..|s| - |l|] + r + l[|r|..]
  {
    assert l == r + l[|r|..];
    assert s == s[..|s| - |l|] + l;
  }

  /** Trimming twice is trimming once. */
  lemma {:induction false} TrimIdempotent(s: string)
    ensures Trim(Trim(s)) == Trim(s)
  {
    var r := Trim(s);
    TrimShape(s);
    Unwrap(r);
    TrimUnique([], r, []);
  }
}
