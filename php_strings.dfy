/**
 * The PHP string semantics the plugin relies on, stated explicitly.
 * A `char` stands for one byte of a PHP string: `substr` and `strpos`
 * count bytes, and the model counts characters of `string` the same way.
 */
module PhpStrings {

  /** PHP's `empty()` (and the falsiness of `if ($s)`) on a string: "" and "0". */
  predicate Empty(s: string) {
    s == "" || s == "0"
  }

  /** `strpos($s, $p) === 0`: `$s` starts with `$p`. */
  predicate StartsWith(s: string, p: string) {
    p <= s
  }

  /** `strpos($s, $p) !== false`: `$p` occurs somewhere in `$s`. */
  predicate Contains(s: string, p: string)
    decreases |s|
  {
    p <= s || (s != [] && Contains(s[1..], p))
  }

  /** `substr($s, 0, $n)` for a non-negative length `$n`. */
  function Prefix(s: string, n: nat): (r: string)
    ensures r <= s && |r| <= n
    ensures |s| <= n ==> r == s
    ensures n <= |s| ==> |r| == n
  {
    if |s| <= n then s else s[..n]
  }

  // ---------------------------------------------------------------------
  // Whitespace: PCRE's `\s` and `preg_replace('/\s+/', ' ', $s)`
  // ---------------------------------------------------------------------

  /** PCRE's `\s` outside UTF mode: space, tab, LF, VT, FF, CR. */
  predicate IsPcreSpace(c: char) {
    c == ' ' || c == '\t' || c == '\n' || c == '\U{0B}' || c == '\U{0C}' || c == '\r'
  }

  /**
   * `preg_replace('/\s+/', ' ', $s)`: every maximal run of `\s` becomes one
   * space. Read left to right: a `\s` followed by another `\s` is dropped, the
   * last `\s` of a run becomes a space, anything else is kept.
   */
  function CollapseWhitespace(s: string): (r: string)
    ensures |r| <= |s|
    ensures s != [] ==> r != [] && r[0] == (if IsPcreSpace(s[0]) then ' ' else s[0])
    decreases |s|
  {
    if s == [] then []
    else if IsPcreSpace(s[0]) && |s| > 1 && IsPcreSpace(s[1]) then CollapseWhitespace(s[1..])
    else if IsPcreSpace(s[0]) then " " + CollapseWhitespace(s[1..])
    else [s[0]] + CollapseWhitespace(s[1..])
  }

  /** A string in which the only `\s` character is the space, and no two of them are adjacent. */
  predicate Collapsed(t: string) {
    forall i :: 0 <= i < |t| && IsPcreSpace(t[i]) ==>
      t[i] == ' ' && (i + 1 == |t| || !IsPcreSpace(t[i + 1]))
  }

  /** The characters of `s` that are not `\s`, in order. */
  function NonSpaceChars(s: string): string {
    if s == [] then []
    else (if IsPcreSpace(s[0]) then [] else [s[0]]) + NonSpaceChars(s[1..])
  }

  /** Putting `c` in front of a collapsed `t` keeps it collapsed unless two `\s` meet. */
  lemma {:induction false} ConsCollapsed(c: char, t: string)
    requires Collapsed(t)
    requires IsPcreSpace(c) ==> c == ' ' && (t == [] || !IsPcreSpace(t[0]))
    ensures Collapsed([c] + t)
  {
    forall i | 0 <= i < |[c] + t| && IsPcreSpace(([c] + t)[i])
      ensures ([c] + t)[i] == ' ' && (i + 1 == |[c] + t| || !IsPcreSpace(([c] + t)[i + 1]))
    {
      if i > 0 {
        assert ([c] + t)[i] == t[i - 1];
      }
    }
  }

  lemma {:induction false} CollapseIsCollapsed(s: string)
    ensures Collapsed(CollapseWhitespace(s))
    decreases |s|
  {
    if s != [] {
      CollapseIsCollapsed(s[1..]);
      if !(IsPcreSpace(s[0]) && |s| > 1 && IsPcreSpace(s[1])) {
        ConsCollapsed(if IsPcreSpace(s[0]) then ' ' else s[0], CollapseWhitespace(s[1..]));
      }
    }
  }

  /** Collapsing changes whitespace only: the visible characters are kept, in order. */
  lemma {:induction false} CollapseKeepsText(s: string)
    ensures NonSpaceChars(CollapseWhitespace(s)) == NonSpaceChars(s)
    decreases |s|
  {
    if s != [] {
      CollapseKeepsText(s[1..]);
      var t := CollapseWhitespace(s[1..]);
      if !(IsPcreSpace(s[0]) && |s| > 1 && IsPcreSpace(s[1])) {
        var c := if IsPcreSpace(s[0]) then ' ' else s[0];
        assert ([c] + t)[0] == c;
        assert ([c] + t)[1..] == t;
      }
    }
  }

  /** A piece of a collapsed string is collapsed. */
  lemma {:induction false} SliceCollapsed(t: string, i: nat, j: nat)
    requires i <= j <= |t| && Collapsed(t)
    ensures Collapsed(t[i..j])
  {
  }

  // ---------------------------------------------------------------------
  // trim()
  // ---------------------------------------------------------------------

  /** The characters PHP's `trim()` removes by default: " \t\n\r\0\x0B". */
  predicate IsTrimChar(c: char) {
    c == ' ' || c == '\t' || c == '\n' || c == '\r' || c == '\0' || c == '\U{0B}'
  }

  /** `ltrim($s)`: the longest suffix of `s` that does not start with a trim character. */
  function TrimLeft(s: string): (r: string)
    ensures |r| <= |s|
  {
    if s != [] && IsTrimChar(s[0]) then TrimLeft(s[1..]) else s
  }

  /** `ltrim` removes trim characters from the front, and all of them. */
  lemma {:induction false} TrimLeftSpec(s: string)
    ensures var r := TrimLeft(s);
      && r == s[|s| - |r|..]
      && (forall k :: 0 <= k < |s| - |r| ==> IsTrimChar(s[k]))
      && (r != [] ==> !IsTrimChar(r[0]))
    decreases |s|
  {
    if s != [] && IsTrimChar(s[0]) {
      var t := s[1..];
      TrimLeftSpec(t);
      var r := TrimLeft(t);
      assert TrimLeft(s) == r;
      assert t[|t| - |r|..] == s[|s| - |r|..];
      forall k | 0 < k < |s| - |r| ensures IsTrimChar(s[k]) {
        assert s[k] == t[k - 1];
      }
    }
  }

  /** `rtrim($s)`: the longest prefix of `s` that does not end with a trim character. */
  function TrimRight(s: string): (r: string)
    ensures |r| <= |s|
  {
    if s != [] && IsTrimChar(s[|s| - 1]) then TrimRight(s[..|s| - 1]) else s
  }

  /** `rtrim` removes trim characters from the end, and all of them. */
  lemma {:induction false} TrimRightSpec(s: string)
    ensures var r := TrimRight(s);
      && r <= s
      && (forall k :: |r| <= k < |s| ==> IsTrimChar(s[k]))
      && (r != [] ==> !IsTrimChar(r[|r| - 1]))
    decreases |s|
  {
    if s != [] && IsTrimChar(s[|s| - 1]) {
      var t := s[..|s| - 1];
      TrimRightSpec(t);
      var r := TrimRight(t);
      assert TrimRight(s) == r;
      assert r <= s by {
        forall k | 0 <= k < |r| ensures r[k] == s[k] {
          assert r[k] == t[k];
        }
      }
      forall k | |r| <= k < |s| - 1 ensures IsTrimChar(s[k]) {
        assert s[k] == t[k];
      }
    }
  }

  /** How many characters `ltrim($s)` removes from the front of `s`. */
  function LeadingTrimLength(s: string): (n: nat)
    ensures n <= |s|
  {
    |s| - |TrimLeft(s)|
  }

  /** `trim($s)`: `s` without its leading and trailing trim characters. */
  function Trim(s: string): (r: string)
    ensures |r| <= |s|
  {
    TrimRight(TrimLeft(s))
  }

  /**
   * `trim` keeps the piece of `s` between a run of trim characters at the
   * front and one at the end, and that piece neither starts nor ends with one.
   */
  lemma {:induction false} TrimSpec(s: string)
    ensures var r := Trim(s);
      && LeadingTrimLength(s) + |r| <= |s|
      && r == s[LeadingTrimLength(s)..LeadingTrimLength(s) + |r|]
      && (forall k :: 0 <= k < LeadingTrimLength(s) ==> IsTrimChar(s[k]))
      && (forall k :: LeadingTrimLength(s) + |r| <= k < |s| ==> IsTrimChar(s[k]))
      && (r != [] ==> !IsTrimChar(r[0]) && !IsTrimChar(r[|r| - 1]))
  {
    var l := TrimLeft(s);
    var r := TrimRight(l);
    TrimLeftSpec(s);
    TrimRightSpec(l);
    assert LeadingTrimLength(s) == |s| - |l|;
    SuffixOfSuffix(s, l, r);
  }

  /** `trim` yields "" exactly when every character is a trim character. */
  lemma {:induction false} TrimEmpty(s: string)
    ensures Trim(s) == [] <==> forall k :: 0 <= k < |s| ==> IsTrimChar(s[k])
  {
    TrimSpec(s);
    var n := LeadingTrimLength(s);
    if Trim(s) != [] {
      assert Trim(s)[0] == s[n];
    }
  }

  /** What `rtrim` removes from a suffix `l` of `s` is also at the end of `s`. */
  lemma {:induction false} SuffixOfSuffix(s: string, l: string, r: string)
    requires |l| <= |s| && l == s[|s| - |l|..] && r <= l
    requires forall k :: |r| <= k < |l| ==> IsTrimChar(l[k])
    ensures r == s[|s| - |l|..|s| - |l| + |r|]
    ensures r != [] ==> r[0] == l[0]
    ensures forall k :: |s| - |l| + |r| <= k < |s| ==> IsTrimChar(s[k])
  {
    forall k | |s| - |l| + |r| <= k < |s| ensures IsTrimChar(s[k]) {
      assert s[k] == l[k - (|s| - |l|)];
    }
  }

  /**
   * `trim(preg_replace('/\s+/', ' ', $s))`: whitespace collapsed to single
   * spaces, none at either end. Its visible characters are those of `s`,
   * except that `trim` also drops NUL characters at either end.
   */
  function NormalizeSpace(s: string): (r: string)
    ensures Collapsed(r)
    ensures r != [] ==> r[0] != ' ' && r[|r| - 1] != ' '
    ensures NonSpaceChars(r) == Trim(NonSpaceChars(s))
  {
    TrimmedCollapseIsCollapsed(s);
    TrimmedCollapseKeepsText(s);
    TrimSpec(CollapseWhitespace(s));
    Trim(CollapseWhitespace(s))
  }

  lemma {:induction false} TrimmedCollapseIsCollapsed(s: string)
    ensures Collapsed(Trim(CollapseWhitespace(s)))
  {
    var c := CollapseWhitespace(s);
    CollapseIsCollapsed(s);
    TrimSpec(c);
    var n := LeadingTrimLength(c);
    SliceCollapsed(c, n, n + |Trim(c)|);
  }

  lemma {:induction false} TrimmedCollapseKeepsText(s: string)
    ensures NonSpaceChars(Trim(CollapseWhitespace(s))) == Trim(NonSpaceChars(s))
  {
    var c := CollapseWhitespace(s);
    CollapseIsCollapsed(s);
    assert OnlyBlanks(c);
    CollapseKeepsText(s);
    TrimVisible(c);
  }

  /** Every character of `w` is `\s`. */
  predicate AllSpace(w: string) {
    forall k :: 0 <= k < |w| ==> IsPcreSpace(w[k])
  }

  /**
   * Collapsing works run by run: content split at a point that is not inside
   * a whitespace run collapses as its two parts do.
   */
  lemma {:induction false} CollapseConcat(a: string, b: string)
    requires a == [] || b == [] || !IsPcreSpace(a[|a| - 1]) || !IsPcreSpace(b[0])
    ensures CollapseWhitespace(a + b) == CollapseWhitespace(a) + CollapseWhitespace(b)
    decreases |a|
  {
    if a == [] {
      assert a + b == b;
    } else if b == [] {
      assert a + b == a;
    } else {
      var t := a[1..];
      assert (a + b)[0] == a[0];
      assert (a + b)[1..] == t + b;
      if |a| == 1 {
        assert t + b == b;
        assert CollapseWhitespace(a) == [if IsPcreSpace(a[0]) then ' ' else a[0]];
      } else {
        assert (a + b)[1] == a[1];
        assert t[|t| - 1] == a[|a| - 1];
        CollapseConcat(t, b);
      }
    }
  }

  /** A run of `\s` between two visible characters (or the ends) becomes exactly one space. */
  lemma {:induction false} CollapseRun(a: string, w: string, b: string)
    requires w != [] && AllSpace(w)
    requires a == [] || !IsPcreSpace(a[|a| - 1])
    requires b == [] || !IsPcreSpace(b[0])
    ensures CollapseWhitespace(a + w + b) == CollapseWhitespace(a) + " " + CollapseWhitespace(b)
  {
    AllSpaceCollapses(w);
    CollapseConcat(w, b);
    CollapseConcat(a, w + b);
    ConcatAssoc(a, w, b);
    ConcatAssoc(CollapseWhitespace(a), " ", CollapseWhitespace(b));
  }

  lemma {:induction false} ConcatAssoc(x: string, y: string, z: string)
    ensures x + y + z == x + (y + z)
  {
  }

  /** A non-empty run of `\s` on its own becomes one space. */
  lemma {:induction false} AllSpaceCollapses(w: string)
    requires w != [] && AllSpace(w)
    ensures CollapseWhitespace(w) == " "
    decreases |w|
  {
    if |w| > 1 {
      assert IsPcreSpace(w[1]);
      AllSpaceCollapses(w[1..]);
    }
  }

  /** Text without `\s` is left as it is. */
  lemma {:induction false} CollapseKeepsSpaceFree(a: string)
    requires forall k :: 0 <= k < |a| ==> !IsPcreSpace(a[k])
    ensures CollapseWhitespace(a) == a
    decreases |a|
  {
    if a != [] {
      CollapseKeepsSpaceFree(a[1..]);
      assert a == [a[0]] + a[1..];
    }
  }

  /** The visible characters of a concatenation are those of its parts. */
  lemma {:induction false} NonSpaceConcat(x: string, y: string)
    ensures NonSpaceChars(x + y) == NonSpaceChars(x) + NonSpaceChars(y)
    decreases |x|
  {
    if x == [] {
      assert x + y == y;
    } else {
      var t := x[1..];
      var h := if IsPcreSpace(x[0]) then [] else [x[0]];
      assert (x + y)[0] == x[0];
      assert (x + y)[1..] == t + y;
      assert NonSpaceChars(x + y) == h + NonSpaceChars(t + y);
      assert NonSpaceChars(x) == h + NonSpaceChars(t);
      NonSpaceConcat(t, y);
    }
  }

  /** The only `\s` character in `c` is the space, as after collapsing. */
  predicate OnlyBlanks(c: string) {
    forall k :: 0 <= k < |c| && IsPcreSpace(c[k]) ==> c[k] == ' '
  }

  lemma {:induction false} TrimLeftVisible(c: string)
    requires OnlyBlanks(c)
    ensures NonSpaceChars(TrimLeft(c)) == TrimLeft(NonSpaceChars(c))
    decreases |c|
  {
    if c != [] {
      var t := c[1..];
      var v := NonSpaceChars(t);
      if IsTrimChar(c[0]) {
        assert TrimLeft(c) == TrimLeft(t);
        assert OnlyBlanks(t) by {
          forall k | 0 <= k < |t| && IsPcreSpace(t[k]) ensures t[k] == ' ' {
            assert t[k] == c[k + 1];
          }
        }
        TrimLeftVisible(t);
        if IsPcreSpace(c[0]) {
          assert NonSpaceChars(c) == v;
        } else {
          assert c[0] == '\0';
          assert NonSpaceChars(c) == "\0" + v;
          assert ("\0" + v)[1..] == v;
          assert TrimLeft("\0" + v) == TrimLeft(v);
        }
      } else {
        assert !IsPcreSpace(c[0]);
        assert TrimLeft(c) == c;
        assert NonSpaceChars(c) == [c[0]] + v;
        assert ([c[0]] + v)[0] == c[0];
      }
    }
  }

  lemma {:induction false} TrimRightVisible(c: string)
    requires OnlyBlanks(c)
    ensures NonSpaceChars(TrimRight(c)) == TrimRight(NonSpaceChars(c))
    decreases |c|
  {
    if c != [] {
      var x := c[..|c| - 1];
      var y := c[|c| - 1];
      assert c == x + [y];
      NonSpaceConcat(x, [y]);
      var v := NonSpaceChars(x);
      if IsTrimChar(y) {
        TrimRightVisible(x);
        if y == '\0' {
          assert NonSpaceChars([y]) == "\0";
          assert (v + "\0")[..|v|] == v;
        } else {
          assert NonSpaceChars(c) == v;
        }
      } else {
        assert NonSpaceChars(c) == v + [y];
      }
    }
  }

  /**
   * On text whose only `\s` is the space, trimming and then keeping the
   * visible characters is the same as keeping them and then trimming.
   */
  lemma {:induction false} TrimVisible(c: string)
    requires OnlyBlanks(c)
    ensures NonSpaceChars(Trim(c)) == Trim(NonSpaceChars(c))
  {
    var l := TrimLeft(c);
    TrimLeftVisible(c);
    TrimLeftSpec(c);
    assert OnlyBlanks(l) by {
      forall k | 0 <= k < |l| && IsPcreSpace(l[k]) ensures l[k] == ' ' {
        assert l[k] == c[|c| - |l| + k];
      }
    }
    TrimRightVisible(l);
  }

  // ---------------------------------------------------------------------
  // Fallback chains: `if (empty($x)) { $x = ...; }` repeated
  // ---------------------------------------------------------------------

  /**
   * The value a chain of `if (empty($x)) $x = next;` steps ends with: the first
   * candidate that is not empty, or the last candidate when all are empty.
   */
  function FirstFilled(candidates: seq<string>): (r: string)
    requires |candidates| > 0
    ensures r in candidates
    ensures Empty(r) ==> r == candidates[|candidates| - 1]
  {
    if |candidates| == 1 || !Empty(candidates[0]) then candidates[0]
    else FirstFilled(candidates[1..])
  }

  /** The chain stops at the first non-empty candidate, and only there. */
  lemma {:induction false} FirstFilledPicks(candidates: seq<string>, i: nat)
    requires i < |candidates|
    requires forall j :: 0 <= j < i ==> Empty(candidates[j])
    requires !Empty(candidates[i]) || i == |candidates| - 1
    ensures FirstFilled(candidates) == candidates[i]
    decreases i
  {
    if i > 0 {
      FirstFilledPicks(candidates[1..], i - 1);
    }
  }

  /** The chain yields an empty value only when every candidate is empty. */
  lemma {:induction false} FirstFilledEmpty(candidates: seq<string>)
    requires |candidates| > 0
    ensures Empty(FirstFilled(candidates)) <==> forall j :: 0 <= j < |candidates| ==> Empty(candidates[j])
    decreases |candidates|
  {
    if |candidates| > 1 && Empty(candidates[0]) {
      FirstFilledEmpty(candidates[1..]);
      forall j | 0 < j < |candidates| ensures candidates[j] == candidates[1..][j - 1] { }
    }
  }

  /** A three-step chain, the shape both of the synthesiser's chains take. */
  lemma {:induction false} FirstFilledOfThree(a: string, b: string, c: string)
    ensures !Empty(a) ==> FirstFilled([a, b, c]) == a
    ensures Empty(a) && !Empty(b) ==> FirstFilled([a, b, c]) == b
    ensures Empty(a) && Empty(b) ==> FirstFilled([a, b, c]) == c
  {
  }

  // ---------------------------------------------------------------------
  // ASCII case folding, for the `/i` flag of a pattern
  // ---------------------------------------------------------------------

  function LowerAscii(c: char): char {
    if 'A' <= c <= 'Z' then (c as int - 'A' as int + 'a' as int) as char else c
  }

  /** `s` starts with `p`, letters compared without regard to ASCII case. */
  predicate StartsWithIgnoringCase(s: string, p: string) {
    |p| <= |s| && forall i :: 0 <= i < |p| ==> LowerAscii(s[i]) == LowerAscii(p[i])
  }
}
