/**
  The few Python `str` operations the scraper and the documentation helpers
  rely on, restricted to ASCII: `isspace`, `isupper`, `lower`, `in` (substring),
  `startswith`, `strip`, `split()`, `split('\n')`, `' '.join` and `replace`.
 */
module TextUtil {

  function Min(a: int, b: int): int {
    if a <= b then a else b
  }

  /** Python's `str.isspace` on one ASCII character: tab, line feed, vertical
      tab, form feed, carriage return, the four separators 0x1C-0x1F and space. */
  predicate IsSpace(c: char) {
    var n := c as int;
    (9 <= n <= 13) || (28 <= n <= 32)
  }

  /** `char.isupper()` over ASCII: digits and punctuation are not upper case. */
  predicate IsUpper(c: char) {
    'A' <= c <= 'Z'
  }

  function Lower(c: char): char {
    if IsUpper(c) then (c as int + 32) as char else c
  }

  predicate NoSpace(s: string) {
    forall i :: 0 <= i < |s| ==> !IsSpace(s[i])
  }

  predicate NoUpper(s: string) {
    forall i :: 0 <= i < |s| ==> !IsUpper(s[i])
  }

  /** `s.lower()`: each ASCII capital is replaced by its small letter. */
  function ToLower(s: string): (r: string)
    ensures |r| == |s|
    ensures forall i :: 0 <= i < |s| ==> r[i] == Lower(s[i])
  {
    seq(|s|, i requires 0 <= i < |s| => Lower(s[i]))
  }

  lemma ToLowerNoUpper(s: string)
    ensures NoUpper(ToLower(s))
  {
  }

  lemma ToLowerIdempotent(s: string)
    ensures ToLower(ToLower(s)) == ToLower(s)
  {
    assert forall i :: 0 <= i < |s| ==> Lower(Lower(s[i])) == Lower(s[i]);
  }

  /** `s.startswith(p)`. */
  predicate StartsWith(s: string, p: string) {
    |p| <= |s| && s[..|p|] == p
  }

  /** `p` occurs in `s` beginning at index `i`. */
  predicate OccursAt(s: string, p: string, i: int) {
    0 <= i && i + |p| <= |s| && s[i..i + |p|] == p
  }

  /** Python's `p in s` for strings, scanning `s` from the left. */
  function Contains(s: string, p: string): bool
    decreases |s|
  {
    if StartsWith(s, p) then true
    else if |s| == 0 then false
    else Contains(s[1..], p)
  }

  /** The scan finds `p` exactly when `p` occurs somewhere in `s`. */
  lemma {:induction false} ContainsIffOccurs(s: string, p: string)
    ensures Contains(s, p) <==> exists i :: OccursAt(s, p, i)
    decreases |s|
  {
    if StartsWith(s, p) {
      assert OccursAt(s, p, 0);
    } else if |s| > 0 {
      ContainsIffOccurs(s[1..], p);
      forall i | OccursAt(s[1..], p, i) ensures OccursAt(s, p, i + 1) {
        assert s[1..][i..i + |p|] == s[i + 1..i + 1 + |p|];
      }
      forall i | OccursAt(s, p, i) && i > 0 ensures OccursAt(s[1..], p, i - 1) {
        assert s[1..][i - 1..i - 1 + |p|] == s[i..i + |p|];
      }
    }
  }

  /** A pattern with a character that `s` lacks cannot occur in `s`. */
  lemma MissingCharNotContained(s: string, p: string, k: nat)
    requires k < |p| && p[k] !in s
    ensures !Contains(s, p)
  {
    ContainsIffOccurs(s, p);
    forall i | 0 <= i && i + |p| <= |s| ensures !OccursAt(s, p, i) {
      assert s[i..i + |p|][k] == s[i + k];
      assert s[i + k] in s;
    }
  }

  /** Some pattern of `ps` occurs in `s` (Python's `any(p in s for p in ps)`). */
  function ContainsAny(s: string, ps: seq<string>): bool {
    if |ps| == 0 then false
    else if Contains(s, ps[0]) then true
    else ContainsAny(s, ps[1..])
  }

  /** `ContainsAny` holds exactly when one of the patterns is contained. */
  lemma {:induction false} ContainsAnyIffSome(s: string, ps: seq<string>)
    ensures ContainsAny(s, ps) <==> exists k :: 0 <= k < |ps| && Contains(s, ps[k])
  {
    if |ps| > 0 && !Contains(s, ps[0]) {
      ContainsAnyIffSome(s, ps[1..]);
      assert forall k :: 1 <= k < |ps| ==> ps[1..][k - 1] == ps[k];
    }
  }

  // ---------------------------------------------------------------- strip

  /** `s.lstrip()`: the suffix of `s` left after dropping leading whitespace. */
  function TrimLeft(s: string): (r: string)
    ensures |r| <= |s|
    ensures r == [] || !IsSpace(r[0])
  {
    if s != [] && IsSpace(s[0]) then TrimLeft(s[1..]) else s
  }

  /** `lstrip` keeps a suffix and drops only whitespace. */
  lemma {:induction false} TrimLeftShape(s: string)
    ensures var r := TrimLeft(s);
      && r == s[|s| - |r|..]
      && forall k :: 0 <= k < |s| - |r| ==> IsSpace(s[k])
  {
    if s != [] && IsSpace(s[0]) {
      TrimLeftShape(s[1..]);
    }
  }

  /** `s.rstrip()`: the prefix of `s` left after dropping trailing whitespace. */
  function TrimRight(s: string): (r: string)
    ensures |r| <= |s|
    ensures r == [] || !IsSpace(r[|r| - 1])
  {
    if s != [] && IsSpace(s[|s| - 1]) then TrimRight(s[..|s| - 1]) else s
  }

  /** `rstrip` keeps a prefix and drops only whitespace. */
  lemma {:induction false} TrimRightShape(s: string)
    ensures var r := TrimRight(s);
      && r == s[..|r|]
      && forall k :: |r| <= k < |s| ==> IsSpace(s[k])
  {
    if s != [] && IsSpace(s[|s| - 1]) {
      TrimRightShape(s[..|s| - 1]);
    }
  }

  /** `s.strip()`. */
  function Strip(s: string): string {
    TrimRight(TrimLeft(s))
  }

  /** `Strip(s)` is empty exactly when `s` is all whitespace. */
  lemma StripEmptyIffBlank(s: string)
    ensures Strip(s) == [] <==> forall k :: 0 <= k < |s| ==> IsSpace(s[k])
  {
    var t := TrimLeft(s);
    TrimLeftShape(s);
    TrimRightShape(t);
    assert forall k :: |s| - |t| <= k < |s| ==> s[k] == t[k - (|s| - |t|)];
  }

  /** Text that starts with a non-space character is its own `lstrip`. */
  lemma TrimLeftKeeps(s: string)
    requires s == [] || !IsSpace(s[0])
    ensures TrimLeft(s) == s
  {
  }

  /** Text that starts with a non-space character keeps that character first
      after `strip()`. */
  lemma StripKeepsFirst(s: string)
    requires s != [] && !IsSpace(s[0])
    ensures Strip(s) != [] && Strip(s)[0] == s[0]
  {
    TrimLeftKeeps(s);
    TrimRightShape(s);
  }

  // ---------------------------------------------------------------- split()

  /** Length of the run of non-whitespace characters at the start of `t`. */
  function TokenEnd(t: string): (k: nat)
    ensures k <= |t|
    ensures t != [] && !IsSpace(t[0]) ==> k >= 1
  {
    if t == [] || IsSpace(t[0]) then 0 else 1 + TokenEnd(t[1..])
  }

  /** The token is maximal: no whitespace before `TokenEnd(t)`, and
      whitespace (or the end) at it. */
  lemma {:induction false} TokenEndShape(t: string)
    ensures var k := TokenEnd(t);
      && (k < |t| ==> IsSpace(t[k]))
      && NoSpace(t[..k])
  {
    if t != [] && !IsSpace(t[0]) {
      TokenEndShape(t[1..]);
      var k := TokenEnd(t);
      assert t[..k] == [t[0]] + t[1..][..k - 1];
    }
  }

  /** Python's `s.split()`: the maximal runs of non-whitespace, in order;
      leading, trailing and repeated whitespace yield no empty token. */
  function Split(s: string): (words: seq<string>)
    decreases |s|
  {
    var t := TrimLeft(s);
    if t == [] then []
    else
      var k := TokenEnd(t);
      [t[..k]] + Split(t[k..])
  }

  /** No token of `Split(s)` is empty or holds whitespace. */
  lemma {:induction false} SplitTokens(s: string)
    ensures forall w :: w in Split(s) ==> w != [] && NoSpace(w)
    decreases |s|
  {
    var t := TrimLeft(s);
    if t != [] {
      var k := TokenEnd(t);
      var tail := Split(t[k..]);
      TokenEndShape(t);
      SplitTokens(t[k..]);
      assert Split(s) == [t[..k]] + tail;
      forall w | w in Split(s) ensures w != [] && NoSpace(w) {
        if w != t[..k] {
          assert w in tail;
        }
      }
    }
  }

  /** `' '.join(words)`. */
  function JoinWords(words: seq<string>): string {
    if |words| == 0 then ""
    else if |words| == 1 then words[0]
    else words[0] + " " + JoinWords(words[1..])
  }

  lemma TokenEndOfWord(w: string, rest: string)
    requires NoSpace(w)
    requires rest == [] || IsSpace(rest[0])
    ensures TokenEnd(w + rest) == |w|
    decreases |w|
  {
    if w != [] {
      assert (w + rest)[1..] == w[1..] + rest;
      TokenEndOfWord(w[1..], rest);
    }
  }

  /** Splitting the words joined by single spaces gives the words back, as
      long as none of them is empty or holds whitespace. */
  lemma {:induction false} SplitJoinWords(words: seq<string>)
    requires forall w :: w in words ==> w != [] && NoSpace(w)
    ensures Split(JoinWords(words)) == words
  {
    if |words| == 0 {
    } else if |words| == 1 {
      var w := words[0];
      assert w in words;
      TrimLeftKeeps(w);
      TokenEndOfWord(w, []);
      assert w + [] == w;
      assert w[|w|..] == [];
    } else {
      assert words[0] in words;
      forall w | w in words[1..] ensures w != [] && NoSpace(w) {
        assert w in words;
      }
      SplitWordThenRest(words[0], JoinWords(words[1..]));
      SplitJoinWords(words[1..]);
      assert words == [words[0]] + words[1..];
    }
  }

  lemma SplitWordThenRest(w: string, rest: string)
    requires w != [] && NoSpace(w)
    ensures Split(w + " " + rest) == [w] + Split(rest)
  {
    var s := w + " " + rest;
    assert s == w + (" " + rest);
    TrimLeftKeeps(s);
    TokenEndOfWord(w, " " + rest);
    assert Split(s) == [s[..|w|]] + Split(s[|w|..]);
    assert s[..|w|] == w;
    assert s[|w|..] == " " + rest;
    SplitLeadingSpace(rest);
  }

  lemma SplitLeadingSpace(rest: string)
    ensures Split(" " + rest) == Split(rest)
  {
    assert (" " + rest)[1..] == rest;
    assert TrimLeft(" " + rest) == TrimLeft(rest);
  }

  // ---------------------------------------------------------------- split('\n')

  /** Index of the first `sep` in `s`, or `|s|` when there is none. */
  function IndexOf(s: string, sep: char): (k: nat)
    ensures k <= |s|
    ensures k < |s| ==> s[k] == sep
  {
    if s == [] || s[0] == sep then 0 else 1 + IndexOf(s[1..], sep)
  }

  /** `IndexOf` finds the first `sep`. */
  lemma {:induction false} IndexOfFirst(s: string, sep: char)
    ensures sep !in s[..IndexOf(s, sep)]
  {
    if s != [] && s[0] != sep {
      IndexOfFirst(s[1..], sep);
      var k := IndexOf(s, sep);
      assert s[..k] == [s[0]] + s[1..][..k - 1];
    }
  }

  /** Python's `s.split('\n')`: always at least one piece, empty pieces kept. */
  function SplitLines(s: string): (lines: seq<string>)
    ensures |lines| >= 1
    decreases |s|
  {
    var k := IndexOf(s, '\n');
    if k == |s| then [s] else [s[..k]] + SplitLines(s[k + 1..])
  }

  /** No piece of `SplitLines(s)` holds a line feed. */
  lemma {:induction false} SplitLinesNoBreak(s: string)
    ensures forall l :: l in SplitLines(s) ==> '\n' !in l
    decreases |s|
  {
    var k := IndexOf(s, '\n');
    IndexOfFirst(s, '\n');
    if k == |s| {
      assert s[..k] == s;
    } else {
      SplitLinesNoBreak(s[k + 1..]);
      assert SplitLines(s) == [s[..k]] + SplitLines(s[k + 1..]);
    }
  }

  /** `'\n'.join(lines)`. */
  function JoinLines(lines: seq<string>): string {
    if |lines| == 0 then ""
    else if |lines| == 1 then lines[0]
    else lines[0] + "\n" + JoinLines(lines[1..])
  }

  /** Splitting joined lines at line feeds gives the lines back. */
  lemma {:induction false} SplitJoinLines(lines: seq<string>)
    requires |lines| >= 1
    requires forall l :: l in lines ==> '\n' !in l
    ensures SplitLines(JoinLines(lines)) == lines
  {
    var l := lines[0];
    IndexOfAbsent(l, "\n");
    if |lines| == 1 {
    } else {
      var rest := JoinLines(lines[1..]);
      var s := l + "\n" + rest;
      IndexOfAbsent(l, "\n" + rest);
      assert s == l + ("\n" + rest);
      assert s[..|l|] == l;
      assert s[|l| + 1..] == rest;
      SplitJoinLines(lines[1..]);
    }
  }

  lemma IndexOfAbsent(l: string, rest: string)
    requires '\n' !in l
    requires rest == [] || rest[0] == '\n'
    ensures IndexOf(l + rest, '\n') == |l|
    decreases |l|
  {
    if l != [] {
      assert (l + rest)[1..] == l[1..] + rest;
      IndexOfAbsent(l[1..], rest);
    }
  }

  // ---------------------------------------------------------------- replace

  /** Python's `s.replace(pat, rep)` for a non-empty `pat`: occurrences are
      found left to right and do not overlap; replaced text is not rescanned. */
  function ReplaceAll(s: string, pat: string, rep: string): string
    requires pat != []
    decreases |s|
  {
    if |s| < |pat| then s
    else if s[..|pat|] == pat then rep + ReplaceAll(s[|pat|..], pat, rep)
    else [s[0]] + ReplaceAll(s[1..], pat, rep)
  }

  /** Replacing one character by one character acts position by position. */
  lemma {:induction false} ReplaceCharAt(s: string, a: char, b: char)
    ensures |ReplaceAll(s, [a], [b])| == |s|
    ensures forall i :: 0 <= i < |s| ==>
      ReplaceAll(s, [a], [b])[i] == (if s[i] == a then b else s[i])
    decreases |s|
  {
    if |s| > 0 {
      ReplaceCharAt(s[1..], a, b);
      assert s[..1] == [s[0]];
      var r := ReplaceAll(s, [a], [b]);
      var tail := ReplaceAll(s[1..], [a], [b]);
      assert r == [if s[0] == a then b else s[0]] + tail;
      forall i | 1 <= i < |s| ensures r[i] == (if s[i] == a then b else s[i]) {
        assert r[i] == tail[i - 1] && s[1..][i - 1] == s[i];
      }
    }
  }

  /** Deleting a character removes every occurrence of it. */
  lemma {:induction false} ReplaceCharByNothing(s: string, a: char)
    ensures a !in ReplaceAll(s, [a], "")
    ensures |ReplaceAll(s, [a], "")| <= |s|
    decreases |s|
  {
    if |s| > 0 {
      assert s[..1] == [s[0]];
      ReplaceCharByNothing(s[1..], a);
    }
  }
}
