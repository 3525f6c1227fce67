/** The pieces of Python's `str` the model relies on: `strip`, `split`,
    `join`, `replace`, and `str` of an integer. Strings are `seq<char>`. */
module Text {
  import opened Wrappers

  /** Python's `str.isspace` on the ASCII range (space, \t, \n, \v, \f, \r and
      the separators 0x1c to 0x1f). */
  predicate IsSpace(c: char) {
    c == ' ' || (9 <= c as int <= 13) || (28 <= c as int <= 31)
  }

  predicate AllSpace(s: string) {
    forall i :: 0 <= i < |s| ==> IsSpace(s[i])
  }

  function TrimLeft(s: string): (r: string)
    ensures |r| <= |s| && r == s[|s| - |r|..]
    ensures AllSpace(s[..|s| - |r|])
    ensures r == [] || !IsSpace(r[0])
  {
    if s != [] && IsSpace(s[0]) then TrimLeft(s[1..]) else s
  }

  function TrimRight(s: string): (r: string)
    ensures |r| <= |s| && r == s[..|r|]
    ensures AllSpace(s[|r|..])
    ensures r == [] || !IsSpace(r[|r| - 1])
  {
    if s != [] && IsSpace(s[|s| - 1]) then TrimRight(s[..|s| - 1]) else s
  }

  /** `s.strip()`. */
  function Strip(s: string): (r: string)
    ensures r == [] || (!IsSpace(r[0]) && !IsSpace(r[|r| - 1]))
    ensures |r| <= |s|
  {
    var l := TrimLeft(s);
    var r := TrimRight(l);
    assert r != [] ==> r[0] == l[0];
    r
  }

  /** A string without surrounding white space is its own `strip()`. */
  lemma StripUnchanged(s: string)
    requires s == [] || (!IsSpace(s[0]) && !IsSpace(s[|s| - 1]))
    ensures Strip(s) == s
  {
  }

  /** Index of the first `c` in `s`, as `s.index(c)` would find it. */
  function Find(s: string, c: char): (r: Option<nat>)
    ensures r.None? <==> c !in s
    ensures r.Some? ==> r.value < |s| && s[r.value] == c && c !in s[..r.value]
  {
    if s == [] then None
    else if s[0] == c then Some(0)
    else match Find(s[1..], c)
      case None => None
      case Some(i) => assert s[1..][..i] == s[1..i + 1]; Some(i + 1)
  }

  /** `s.split(c, 1)` when it yields two parts: the text before the first `c`
      and everything after it; `None` when `s` holds no `c`. */
  function SplitFirst(s: string, c: char): (r: Option<(string, string)>)
    ensures r.None? <==> c !in s
    ensures r.Some? ==> s == r.value.0 + [c] + r.value.1 && c !in r.value.0
  {
    match Find(s, c)
    case None => None
    case Some(i) => Some((s[..i], s[i + 1..]))
  }

  /** The split at the first `c` is the only one whose left part holds no `c`. */
  lemma SplitFirstUnique(s: string, c: char, a: string, b: string)
    requires s == a + [c] + b && c !in a
    ensures SplitFirst(s, c) == Some((a, b))
  {
    assert s[|a|] == c;
    var i := Find(s, c).value;
    assert s[..i] == a && s[i + 1..] == b;
  }

  /** `p in s` for strings: `p` occurs somewhere in `s`. */
  predicate IsSubstring(p: string, s: string)
    decreases |s|
  {
    p <= s || (s != [] && IsSubstring(p, s[1..]))
  }

  /** `sep.join(parts)`. */
  function Join(sep: string, parts: seq<string>): string {
    if parts == [] then ""
    else if |parts| == 1 then parts[0]
    else parts[0] + sep + Join(sep, parts[1..])
  }

  /** `s.split(c)` for a one-character separator. */
  function Split(s: string, c: char): (r: seq<string>)
    ensures |r| >= 1
    decreases |s|
  {
    match Find(s, c)
    case None => [s]
    case Some(i) => [s[..i]] + Split(s[i + 1..], c)
  }

  /** Joining on a character that no part contains can be undone by splitting
      on it: each part comes back, in order. */
  lemma {:induction false} SplitJoin(parts: seq<string>, c: char)
    requires parts != []
    requires forall i :: 0 <= i < |parts| ==> c !in parts[i]
    ensures Split(Join([c], parts), c) == parts
  {
    if |parts| == 1 {
    } else {
      var rest := Join([c], parts[1..]);
      var s := parts[0] + [c] + rest;
      assert Join([c], parts) == s;
      var f := Find(s, c);
      assert s[|parts[0]|] == c;
      assert s[..|parts[0]|] == parts[0];
      assert f == Some(|parts[0]|);
      assert s[|parts[0]| + 1..] == rest;
      SplitJoin(parts[1..], c);
    }
  }

  /** `s.replace(pat, rep)`: every non-overlapping occurrence of `pat`,
      scanning left to right, is replaced by `rep`. */
  function Replace(s: string, pat: string, rep: string): string
    requires pat != []
    decreases |s|
  {
    if |s| < |pat| then s
    else if s[..|pat|] == pat then rep + Replace(s[|pat|..], pat, rep)
    else [s[0]] + Replace(s[1..], pat, rep)
  }

  /** Dropping the first element of `a + b`, for a non-empty `a`. */
  lemma TailOfAppend<T>(a: seq<T>, b: seq<T>)
    requires a != []
    ensures (a + b)[1..] == a[1..] + b
    ensures [a[0]] + (a[1..] + b) == a + b
  {
  }

  /** Text that cannot start an occurrence of `pat` is copied unchanged, and
      the rest is replaced independently. */
  lemma {:induction false} ReplaceSkips(a: string, b: string, pat: string, rep: string)
    requires pat != [] && pat[0] !in a
    ensures Replace(a + b, pat, rep) == a + Replace(b, pat, rep)
    decreases |a|
  {
    if a != [] {
      var s := a + b;
      assert s[0] == a[0];
      if |s| < |pat| {
        assert Replace(b, pat, rep) == b;
      } else {
        assert s[..|pat|][0] == a[0] && s[..|pat|] != pat;
        TailOfAppend(a, b);
        ReplaceSkips(a[1..], b, pat, rep);
        TailOfAppend(a, Replace(b, pat, rep));
      }
    } else {
      assert a + b == b;
    }
  }

  /** A string that holds no first character of `pat` is left as it is. */
  lemma ReplaceAbsent(s: string, pat: string, rep: string)
    requires pat != [] && pat[0] !in s
    ensures Replace(s, pat, rep) == s
  {
    ReplaceSkips(s, [], pat, rep);
    assert s + [] == s;
  }

  /** An occurrence at the front is replaced and scanning resumes after it. */
  lemma ReplaceHit(pat: string, b: string, rep: string)
    requires pat != []
    ensures Replace(pat + b, pat, rep) == rep + Replace(b, pat, rep)
  {
    assert (pat + b)[..|pat|] == pat;
    assert (pat + b)[|pat|..] == b;
  }

  function DigitChar(d: nat): char
    requires d < 10
  {
    ('0' as int + d) as char
  }

  function NatToString(n: nat): (r: string)
    ensures |r| >= 1
    ensures forall i :: 0 <= i < |r| ==> '0' <= r[i] <= '9'
  {
    if n < 10 then [DigitChar(n)] else NatToString(n / 10) + [DigitChar(n % 10)]
  }

  /** `str(i)` for a Python int. */
  function IntToString(i: int): (r: string)
    ensures r != [] && (r[0] == '-' <==> i < 0)
  {
    if i < 0 then "-" + NatToString(-i) else NatToString(i)
  }
}
