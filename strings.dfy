/**
 * The JavaScript string operations the site's code relies on, on `string` (a sequence of
 * code points): `trim()`-blankness, `toLowerCase` (ASCII letters only), `includes`,
 * `startsWith`, `split` and `join` on a literal separator, and a global literal `replace`.
 */
module Strings {

  /** JavaScript's WhiteSpace and LineTerminator code points: what `trim()` strips and `\s` matches. */
  predicate IsSpace(c: char) {
    || c == '\t' || c == '\n' || c == '\U{000B}' || c == '\U{000C}' || c == '\r' || c == ' '
    || c == '\U{00A0}' || c == '\U{1680}' || ('\U{2000}' <= c <= '\U{200A}')
    || c == '\U{2028}' || c == '\U{2029}' || c == '\U{202F}' || c == '\U{205F}'
    || c == '\U{3000}' || c == '\U{FEFF}'
  }

  /** The code points a regular expression's `.` does not match. */
  predicate IsLineTerminator(c: char) {
    c == '\n' || c == '\r' || c == '\U{2028}' || c == '\U{2029}'
  }

  /** `\d`: the ASCII digits. */
  predicate IsDigit(c: char) {
    '0' <= c <= '9'
  }

  /** `\w`: the ASCII letters, digits and underscore. */
  predicate IsWordChar(c: char) {
    ('a' <= c <= 'z') || ('A' <= c <= 'Z') || IsDigit(c) || c == '_'
  }

  /** Length of the longest prefix of `s` whose characters satisfy `p`: what a greedy `p*` consumes. */
  function LeadingRun(s: string, p: char -> bool): (n: nat)
    ensures n <= |s|
    ensures forall i | 0 <= i < n :: p(s[i])
    ensures n < |s| ==> !p(s[n])
    decreases |s|
  {
    if s != [] && p(s[0]) then 1 + LeadingRun(s[1..], p) else 0
  }

  /** `s.trim() === ''`, equivalently `!s.trim()`. */
  predicate IsBlank(s: string) {
    forall i | 0 <= i < |s| :: IsSpace(s[i])
  }

  function LowerChar(c: char): char {
    if 'A' <= c <= 'Z' then (c as int + 32) as char else c
  }

  function UpperChar(c: char): char {
    if 'a' <= c <= 'z' then (c as int - 32) as char else c
  }

  /** `s.toLowerCase()`, for the ASCII letters. */
  function Lower(s: string): string {
    seq(|s|, i requires 0 <= i < |s| => LowerChar(s[i]))
  }

  predicate StartsWith(s: string, prefix: string) {
    |prefix| <= |s| && s[..|prefix|] == prefix
  }

  predicate OccursAt(s: string, t: string, i: int) {
    0 <= i && i + |t| <= |s| && s[i..i + |t|] == t
  }

  /** `s.includes(t)`. */
  predicate Contains(s: string, t: string) {
    exists i | 0 <= i <= |s| - |t| :: OccursAt(s, t, i)
  }

  /** `s.split(sep)` for a non-empty literal separator: cut at the leftmost non-overlapping occurrences. */
  function Split(s: string, sep: string): (pieces: seq<string>)
    requires sep != []
    ensures 1 <= |pieces| <= |s| + 1
    decreases |s|
  {
    if |s| < |sep| then [s]
    else if s[..|sep|] == sep then [""] + Split(s[|sep|..], sep)
    else
      var rest := Split(s[1..], sep);
      [[s[0]] + rest[0]] + rest[1..]
  }

  /** `pieces.join(sep)`. */
  function Join(pieces: seq<string>, sep: string): string
    decreases |pieces|
  {
    if pieces == [] then ""
    else if |pieces| == 1 then pieces[0]
    else pieces[0] + sep + Join(pieces[1..], sep)
  }

  /** `s.replace(/pat/g, rep)` for a literal pattern: every leftmost non-overlapping occurrence. */
  function ReplaceAll(s: string, pat: string, rep: string): (r: string)
    requires pat != []
    ensures |rep| <= |pat| ==> |r| <= |s|
    ensures |rep| >= |pat| ==> |r| >= |s|
    decreases |s|
  {
    if |s| < |pat| then s
    else if s[..|pat|] == pat then rep + ReplaceAll(s[|pat|..], pat, rep)
    else [s[0]] + ReplaceAll(s[1..], pat, rep)
  }

  lemma ContainsInTail(s: string, t: string)
    requires s != [] && Contains(s[1..], t)
    ensures Contains(s, t)
  {
    var i :| 0 <= i <= |s[1..]| - |t| && OccursAt(s[1..], t, i);
    assert s[i + 1..i + 1 + |t|] == s[1..][i..i + |t|];
    assert OccursAt(s, t, i + 1);
  }

  /** One character that cannot open the pattern is copied by a global replace. */
  lemma ReplaceAllPlainChar(t: string, pat: string, rep: string)
    requires pat != [] && t != [] && t[0] != pat[0]
    ensures ReplaceAll(t, pat, rep) == [t[0]] + ReplaceAll(t[1..], pat, rep)
  {
    if |t| >= |pat| {
      assert t[..|pat|][0] == t[0];
    } else {
      assert ReplaceAll(t[1..], pat, rep) == t[1..];
      assert t == [t[0]] + t[1..];
    }
  }

  /** A prefix without the pattern's first character passes through a global replace unchanged. */
  lemma {:induction false} ReplaceAllPlainPrefix(a: string, x: string, pat: string, rep: string)
    requires pat != []
    requires forall i | 0 <= i < |a| :: a[i] != pat[0]
    ensures ReplaceAll(a + x, pat, rep) == a + ReplaceAll(x, pat, rep)
    decreases |a|
  {
    var t := a + x;
    if a == [] {
      assert t == x;
    } else {
      assert t[0] == a[0] && t[1..] == a[1..] + x;
      ReplaceAllPlainChar(t, pat, rep);
      ReplaceAllPlainPrefix(a[1..], x, pat, rep);
      assert a == [a[0]] + a[1..];
    }
  }

  lemma LowerIdempotent(s: string)
    ensures Lower(Lower(s)) == Lower(s)
  {
  }

  lemma ContainsEmpty(s: string)
    ensures Contains(s, "")
  {
    assert OccursAt(s, "", 0);
  }

  lemma {:induction false} JoinConsHead(c: char, rest: seq<string>, sep: string)
    requires |rest| >= 1
    ensures Join([[c] + rest[0]] + rest[1..], sep) == [c] + Join(rest, sep)
  {
    var pieces := [[c] + rest[0]] + rest[1..];
    if |rest| > 1 {
      assert pieces[1..] == rest[1..];
    }
  }

  lemma JoinEmptyHead(rest: seq<string>, sep: string)
    requires |rest| >= 1
    ensures Join([""] + rest, sep) == sep + Join(rest, sep)
  {
    var pieces := [""] + rest;
    assert pieces[1..] == rest;
  }

  /** The split-join round trip over a leading separator, given it over the rest. */
  lemma SplitJoinAtSep(s: string, sep: string)
    requires sep != [] && |sep| <= |s| && s[..|sep|] == sep
    requires Join(Split(s[|sep|..], sep), sep) == s[|sep|..]
    ensures Join(Split(s, sep), sep) == s
  {
    var rest := Split(s[|sep|..], sep);
    assert Split(s, sep) == [""] + rest;
    JoinEmptyHead(rest, sep);
    assert s == sep + s[|sep|..] by {
      assert s == s[..|sep|] + s[|sep|..];
    }
  }

  /** The split-join round trip over a leading ordinary character, given it over the rest. */
  lemma SplitJoinAtChar(s: string, sep: string)
    requires sep != [] && |sep| <= |s| && s[..|sep|] != sep
    requires Join(Split(s[1..], sep), sep) == s[1..]
    ensures Join(Split(s, sep), sep) == s
  {
    var rest := Split(s[1..], sep);
    var pieces := [[s[0]] + rest[0]] + rest[1..];
    assert Split(s, sep) == pieces;
    assert Join(pieces, sep) == [s[0]] + s[1..] by {
      JoinConsHead(s[0], rest, sep);
    }
    assert [s[0]] + s[1..] == s;
  }

  /** Joining the pieces back with the separator gives the original string. */
  lemma {:induction false} SplitJoin(s: string, sep: string)
    requires sep != []
    ensures Join(Split(s, sep), sep) == s
    decreases |s|
  {
    if |s| < |sep| {
    } else if s[..|sep|] == sep {
      SplitJoin(s[|sep|..], sep);
      SplitJoinAtSep(s, sep);
    } else {
      SplitJoin(s[1..], sep);
      SplitJoinAtChar(s, sep);
    }
  }

  /** The first piece of a split is a prefix of the string. */
  lemma {:induction false} SplitFirstIsPrefix(s: string, sep: string)
    requires sep != []
    ensures StartsWith(s, Split(s, sep)[0])
    decreases |s|
  {
    if |s| < |sep| {
    } else if s[..|sep|] == sep {
    } else {
      SplitFirstIsPrefix(s[1..], sep);
    }
  }

  lemma ContainsShift(c: char, t: string, sep: string)
    requires Contains([c] + t, sep)
    requires !OccursAt([c] + t, sep, 0)
    ensures Contains(t, sep)
  {
    var i :| 0 <= i <= |[c] + t| - |sep| && OccursAt([c] + t, sep, i);
    assert ([c] + t)[i..i + |sep|] == t[i - 1..i - 1 + |sep|];
    assert OccursAt(t, sep, i - 1);
  }

  /** No piece of a split contains the separator: every occurrence was cut. */
  lemma {:induction false} SplitPiecesAvoidSeparator(s: string, sep: string)
    requires sep != []
    ensures forall k | 0 <= k < |Split(s, sep)| :: !Contains(Split(s, sep)[k], sep)
    decreases |s|
  {
    var pieces := Split(s, sep);
    if |s| < |sep| {
      assert pieces == [s];
    } else if s[..|sep|] == sep {
      var rest := Split(s[|sep|..], sep);
      SplitPiecesAvoidSeparator(s[|sep|..], sep);
      assert pieces == [""] + rest;
      forall k | 0 <= k < |pieces| ensures !Contains(pieces[k], sep) {
        if k == 0 {
          assert pieces[0] == "";
        } else {
          assert pieces[k] == rest[k - 1];
        }
      }
    } else {
      var rest := Split(s[1..], sep);
      SplitPiecesAvoidSeparator(s[1..], sep);
      SplitFirstIsPrefix(s[1..], sep);
      var first := [s[0]] + rest[0];
      assert pieces == [first] + rest[1..];
      forall k | 0 <= k < |pieces| ensures !Contains(pieces[k], sep) {
        if k == 0 {
          assert first == s[..|first|];
          assert !OccursAt(first, sep, 0);
          if Contains(first, sep) {
            ContainsShift(s[0], rest[0], sep);
          }
        } else {
          assert pieces[k] == rest[k];
        }
      }
    }
  }

  /** `n` copies of `c`, such as the fence `"```"` or the paragraph break `"\n\n"`. */
  function Repeat(c: char, n: nat): (r: string)
    ensures |r| == n && forall i | 0 <= i < n :: r[i] == c
  {
    seq(n, _ => c)
  }

  /** If the replaced text opens with `k <= n` copies of `c`, so did the original. */
  lemma {:induction false} ReplacedRunComesFromOriginal(u: string, c: char, n: nat, rep: string, k: nat)
    requires 1 <= n && k <= n
    requires k <= |ReplaceAll(u, Repeat(c, n), rep)|
    requires forall i | 0 <= i < k :: ReplaceAll(u, Repeat(c, n), rep)[i] == c
    ensures k <= |u| && forall i | 0 <= i < k :: u[i] == c
    decreases |u|
  {
    var pat := Repeat(c, n);
    if |u| < n {
    } else if u[..n] == pat {
      assert forall i | 0 <= i < k :: u[i] == u[..n][i];
    } else if k > 0 {
      var r := ReplaceAll(u, pat, rep);
      assert r == [u[0]] + ReplaceAll(u[1..], pat, rep);
      assert u[0] == r[0];
      assert forall i | 0 <= i < k - 1 :: ReplaceAll(u[1..], pat, rep)[i] == r[i + 1];
      ReplacedRunComesFromOriginal(u[1..], c, n, rep, k - 1);
      assert forall i | 1 <= i < k :: u[i] == u[1..][i - 1];
    }
  }

  lemma ContainsInSuffix(a: string, b: string, t: string)
    requires Contains(a + b, t) && t != []
    requires forall i | 0 <= i < |a| :: a[i] != t[0]
    ensures Contains(b, t)
  {
    var i :| 0 <= i <= |a + b| - |t| && OccursAt(a + b, t, i);
    assert (a + b)[i] == t[0];
    assert (a + b)[i..i + |t|] == b[i - |a|..i - |a| + |t|];
    assert OccursAt(b, t, i - |a|);
  }

  /** Replacing every run of `n` copies of `c` by text free of `c` leaves no such run. */
  lemma {:induction false} ReplaceAllLeavesNoRun(s: string, c: char, n: nat, rep: string)
    requires 1 <= n
    requires forall i | 0 <= i < |rep| :: rep[i] != c
    ensures !Contains(ReplaceAll(s, Repeat(c, n), rep), Repeat(c, n))
    decreases |s|
  {
    var pat := Repeat(c, n);
    var r := ReplaceAll(s, pat, rep);
    if |s| < n {
    } else if s[..n] == pat {
      ReplaceAllLeavesNoRun(s[n..], c, n, rep);
      if Contains(r, pat) {
        ContainsInSuffix(rep, ReplaceAll(s[n..], pat, rep), pat);
      }
    } else {
      var rest := ReplaceAll(s[1..], pat, rep);
      ReplaceAllLeavesNoRun(s[1..], c, n, rep);
      assert r == [s[0]] + rest;
      if Contains(r, pat) && !OccursAt(r, pat, 0) {
        ContainsShift(s[0], rest, pat);
      }
      if OccursAt(r, pat, 0) {
        assert forall i | 0 <= i < n - 1 :: rest[i] == r[i + 1] == r[..n][i + 1];
        ReplacedRunComesFromOriginal(s[1..], c, n, rep, n - 1);
      }
    }
  }

  /** A global literal replace joins the split pieces with the replacement. */
  lemma {:induction false} ReplaceAllIsJoinOfSplit(s: string, pat: string, rep: string)
    requires pat != []
    ensures ReplaceAll(s, pat, rep) == Join(Split(s, pat), rep)
    decreases |s|
  {
    if |s| < |pat| {
    } else if s[..|pat|] == pat {
      var rest := Split(s[|pat|..], pat);
      ReplaceAllIsJoinOfSplit(s[|pat|..], pat, rep);
      assert ([""] + rest)[1..] == rest;
    } else {
      ReplaceAllIsJoinOfSplit(s[1..], pat, rep);
      JoinConsHead(s[0], Split(s[1..], pat), rep);
    }
  }
}
