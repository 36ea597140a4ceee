/** The string primitives the front-end relies on, written out over `seq<char>`:
    ASCII lowering (for `toLowerCase`), the JavaScript white-space set (for
    `trim` and the regular-expression class `\s`), substring search (for
    `includes`), `Array.prototype.join` on strings, global replacement (for
    `replace(/…/g, …)`) and the decimal rendering of an integer. */
module Text {

  // ---------------------------------------------------------------- lowering

  function LowerChar(c: char): char {
    if 'A' <= c <= 'Z' then (c as int + 32) as char else c
  }

  /** `toLowerCase`, restricted to ASCII letters. */
  function Lower(s: string): (r: string)
    ensures |r| == |s|
    ensures forall i :: 0 <= i < |s| ==> r[i] == LowerChar(s[i])
  {
    if s == [] then [] else [LowerChar(s[0])] + Lower(s[1..])
  }

  // ---------------------------------------------------------------- substrings

  /** `t` occurs in `s` at offset `i`. */
  ghost predicate OccursAt(s: string, t: string, i: int) {
    0 <= i && i + |t| <= |s| && s[i..i + |t|] == t
  }

  predicate StartsWith(s: string, p: string) {
    |p| <= |s| && s[..|p|] == p
  }

  predicate EndsWith(s: string, p: string) {
    |p| <= |s| && s[|s| - |p|..] == p
  }

  /** `s.includes(t)`: tried at every offset, left to right. */
  predicate Contains(s: string, t: string)
    decreases |s|
  {
    StartsWith(s, t) || (|s| > 0 && Contains(s[1..], t))
  }

  /** `Contains` agrees with the reference definition "some offset holds `t`". */
  lemma ContainsIff(s: string, t: string)
    ensures Contains(s, t) <==> exists i :: OccursAt(s, t, i)
  {
    if Contains(s, t) {
      var i := ContainsWitness(s, t);
    }
    forall i | OccursAt(s, t, i) ensures Contains(s, t) {
      ContainsAt(s, t, i);
    }
  }

  lemma {:induction false} ContainsWitness(s: string, t: string) returns (i: int)
    requires Contains(s, t)
    ensures OccursAt(s, t, i)
    decreases |s|
  {
    if StartsWith(s, t) {
      i := 0;
    } else {
      var k := ContainsWitness(s[1..], t);
      assert s[1..][k..k + |t|] == s[k + 1..k + 1 + |t|];
      i := k + 1;
    }
  }

  lemma {:induction false} ContainsAt(s: string, t: string, i: int)
    requires OccursAt(s, t, i)
    ensures Contains(s, t)
    decreases i
  {
    if i > 0 {
      assert s[1..][i - 1..i - 1 + |t|] == s[i..i + |t|];
      ContainsAt(s[1..], t, i - 1);
    } else {
      assert s[..|t|] == t;
    }
  }

  /** A string contains every piece it is built from. */
  lemma ContainsMiddle(a: string, t: string, b: string)
    ensures Contains(a + t + b, t)
  {
    assert (a + t + b)[|a|..|a| + |t|] == t;
    ContainsAt(a + t + b, t, |a|);
  }

  /** Substring containment is transitive. */
  lemma ContainsTransitive(a: string, b: string, c: string)
    requires Contains(a, b) && Contains(b, c)
    ensures Contains(a, c)
  {
    var i := ContainsWitness(a, b);
    var j := ContainsWitness(b, c);
    assert b == a[i..i + |b|];
    forall k | 0 <= k < |c| ensures a[i + j + k] == c[k] {
      assert c[k] == b[j + k];
    }
    assert a[i + j..i + j + |c|] == c;
    ContainsAt(a, c, i + j);
  }

  // ---------------------------------------------------------------- white space

  /** The characters that `String.prototype.trim` removes and that the
      regular-expression class `\s` matches: WhiteSpace and LineTerminator
      of the ECMAScript grammar. */
  predicate IsSpace(c: char) {
    c == '\t' || c == '\n' || c == '\U{B}' || c == '\U{C}' || c == '\r' || c == ' '
    || c == '\U{A0}' || c == '\U{1680}' || ('\U{2000}' <= c <= '\U{200A}')
    || c == '\U{2028}' || c == '\U{2029}' || c == '\U{202F}' || c == '\U{205F}'
    || c == '\U{3000}' || c == '\U{FEFF}'
  }

  /** The regular-expression class `\w`. */
  predicate IsWordChar(c: char) {
    ('a' <= c <= 'z') || ('A' <= c <= 'Z') || ('0' <= c <= '9') || c == '_'
  }

  /** `\s` and `\w` are disjoint. */
  lemma SpaceIsNotWord(c: char)
    requires IsSpace(c)
    ensures !IsWordChar(c)
  {
  }

  predicate AllSpace(s: string) {
    forall i :: 0 <= i < |s| ==> IsSpace(s[i])
  }

  predicate AllWord(s: string) {
    forall i :: 0 <= i < |s| ==> IsWordChar(s[i])
  }

  function TrimStart(s: string): (r: string)
    ensures |r| <= |s| && r == s[|s| - |r|..]
    ensures r == [] || !IsSpace(r[0])
  {
    if |s| > 0 && IsSpace(s[0]) then TrimStart(s[1..]) else s
  }

  function TrimEnd(s: string): (r: string)
    ensures |r| <= |s| && r == s[..|r|]
    ensures r == [] || !IsSpace(r[|r| - 1])
  {
    if |s| > 0 && IsSpace(s[|s| - 1]) then TrimEnd(s[..|s| - 1]) else s
  }

  /** `String.prototype.trim`. */
  function Trim(s: string): (r: string)
    ensures r == [] || (!IsSpace(r[0]) && !IsSpace(r[|r| - 1]))
  {
    TrimEnd(TrimStart(s))
  }

  lemma {:induction false} TrimStartSpaces(ws: string, x: string)
    requires AllSpace(ws)
    ensures TrimStart(ws + x) == TrimStart(x)
    decreases |ws|
  {
    if ws != [] {
      assert (ws + x)[1..] == ws[1..] + x;
      TrimStartSpaces(ws[1..], x);
    } else {
      assert ws + x == x;
    }
  }

  lemma {:induction false} TrimEndSpaces(x: string, ws: string)
    requires AllSpace(ws)
    ensures TrimEnd(x + ws) == TrimEnd(x)
    decreases |ws|
  {
    if ws != [] {
      assert (x + ws)[..|x + ws| - 1] == x + ws[..|ws| - 1];
      TrimEndSpaces(x, ws[..|ws| - 1]);
    } else {
      assert x + ws == x;
    }
  }

  /** A string is its front and its back, cut anywhere. */
  lemma CutAt(s: string, k: nat)
    requires k <= |s|
    ensures s == s[..k] + s[k..]
  {
  }

  /** A string is its front, middle and back, cut at two places. */
  lemma CutTwice(s: string, i: nat, j: nat)
    requires i <= j <= |s|
    ensures s == s[..i] + s[i..j] + s[j..]
  {
  }

  /** What `TrimStart` drops is white space. */
  lemma {:induction false} TrimStartSplit(s: string)
    ensures AllSpace(s[..|s| - |TrimStart(s)|])
    decreases |s|
  {
    if |s| > 0 && IsSpace(s[0]) {
      TrimStartSplit(s[1..]);
      var k := |s| - |TrimStart(s)|;
      forall i | 0 <= i < k ensures IsSpace(s[i]) {
        if i > 0 {
          assert s[1..][..k - 1][i - 1] == s[i];
        }
      }
    }
  }

  /** What `TrimEnd` drops is white space. */
  lemma {:induction false} TrimEndSplit(s: string)
    ensures AllSpace(s[|TrimEnd(s)|..])
    decreases |s|
  {
    if |s| > 0 && IsSpace(s[|s| - 1]) {
      var s' := s[..|s| - 1];
      TrimEndSplit(s');
      var k := |TrimEnd(s)|;
      forall i | k <= i < |s| ensures IsSpace(s[i]) {
        if i < |s| - 1 {
          assert s'[k..][i - k] == s[i];
        }
      }
    }
  }

  /** A string is its leading white space followed by its `TrimStart`. */
  lemma LeadingSpace(s: string) returns (ws: string)
    ensures s == ws + TrimStart(s) && AllSpace(ws)
  {
    ws := s[..|s| - |TrimStart(s)|];
    TrimStartSplit(s);
    CutAt(s, |s| - |TrimStart(s)|);
  }

  /** A string is its `TrimEnd` followed by its trailing white space. */
  lemma TrailingSpace(s: string) returns (ws: string)
    ensures s == TrimEnd(s) + ws && AllSpace(ws)
  {
    ws := s[|TrimEnd(s)|..];
    TrimEndSplit(s);
    CutAt(s, |TrimEnd(s)|);
  }

  /** A string without white space at either end is its own trim. */
  lemma TrimOfTrimmed(s: string)
    requires s == [] || (!IsSpace(s[0]) && !IsSpace(s[|s| - 1]))
    ensures Trim(s) == s
  {
  }

  /** Trimming twice is trimming once. */
  lemma TrimIdempotent(s: string)
    ensures Trim(Trim(s)) == Trim(s)
  {
    TrimOfTrimmed(Trim(s));
  }

  /** `s.trim()` is empty exactly when `s` is all white space. */
  lemma TrimEmptyIffAllSpace(s: string)
    ensures Trim(s) == [] <==> AllSpace(s)
  {
    if AllSpace(s) {
      TrimFramed(s, [], []);
      assert s + [] + [] == s;
    }
    if Trim(s) == [] {
      var ws1 := LeadingSpace(s);
      var ws2 := TrailingSpace(TrimStart(s));
      assert TrimStart(s) == ws2;
      assert s == ws1 + ws2;
    }
  }

  /** Trimming white space framed text gives back the text. */
  lemma TrimFramed(ws1: string, b: string, ws2: string)
    requires AllSpace(ws1) && AllSpace(ws2)
    requires b == [] || (!IsSpace(b[0]) && !IsSpace(b[|b| - 1]))
    ensures Trim(ws1 + b + ws2) == b
  {
    assert ws1 + b + ws2 == ws1 + (b + ws2);
    TrimStartSpaces(ws1, b + ws2);
    if b == [] {
      assert b + ws2 == [] + ws2;
      TrimStartSpaces(ws2, []);
      assert ws2 + [] == ws2;
    } else {
      assert (b + ws2)[0] == b[0];
    }
    if b != [] {
      TrimEndSpaces(b, ws2);
    }
  }

  /** Removes a leading run of `\w` characters (a fence's language tag). */
  function DropWord(s: string): (r: string)
    ensures |r| <= |s| && r == s[|s| - |r|..]
    ensures r == [] || !IsWordChar(r[0])
  {
    if |s| > 0 && IsWordChar(s[0]) then DropWord(s[1..]) else s
  }

  /** What `DropWord` drops is a run of word characters. */
  lemma {:induction false} DropWordSplit(s: string)
    ensures AllWord(s[..|s| - |DropWord(s)|])
    decreases |s|
  {
    if |s| > 0 && IsWordChar(s[0]) {
      DropWordSplit(s[1..]);
      var k := |s| - |DropWord(s)|;
      forall i | 0 <= i < k ensures IsWordChar(s[i]) {
        if i > 0 {
          assert s[1..][..k - 1][i - 1] == s[i];
        }
      }
    }
  }

  /** A string is its leading word characters followed by its `DropWord`. */
  lemma LeadingWord(s: string) returns (tag: string)
    ensures s == tag + DropWord(s) && AllWord(tag)
  {
    tag := s[..|s| - |DropWord(s)|];
    DropWordSplit(s);
    CutAt(s, |s| - |DropWord(s)|);
  }

  lemma {:induction false} DropWordPrefix(tag: string, y: string)
    requires AllWord(tag)
    requires y == [] || !IsWordChar(y[0])
    ensures DropWord(tag + y) == y
    decreases |tag|
  {
    if tag != [] {
      assert (tag + y)[1..] == tag[1..] + y;
      DropWordPrefix(tag[1..], y);
    } else {
      assert tag + y == y;
    }
  }

  // ---------------------------------------------------------------- join, replace

  /** `xs.join(sep)` on strings. */
  function Join(xs: seq<string>, sep: string): string {
    if xs == [] then "" else if |xs| == 1 then xs[0] else xs[0] + sep + Join(xs[1..], sep)
  }

  /** `s.replace(/pat/g, rep)`: non-overlapping occurrences, left to right. */
  function ReplaceAll(s: string, pat: string, rep: string): string
    requires pat != []
    decreases |s|
  {
    if s == [] then []
    else if StartsWith(s, pat) then rep + ReplaceAll(s[|pat|..], pat, rep)
    else [s[0]] + ReplaceAll(s[1..], pat, rep)
  }

  /** Replacing skips a prefix that holds no first character of the
      pattern. */
  lemma {:induction false} ReplaceAllSkips(a: string, x: string, pat: string, rep: string)
    requires pat != []
    requires forall i :: 0 <= i < |a| ==> a[i] != pat[0]
    ensures ReplaceAll(a + x, pat, rep) == a + ReplaceAll(x, pat, rep)
    decreases |a|
  {
    if a == [] {
      assert a + x == x;
    } else {
      var s := a + x;
      assert s[0] == a[0] && s[1..] == a[1..] + x;
      assert !StartsWith(s, pat) by {
        if |pat| <= |s| {
          assert s[..|pat|][0] == a[0];
        }
      }
      ReplaceAllSkips(a[1..], x, pat, rep);
      assert [a[0]] + (a[1..] + ReplaceAll(x, pat, rep)) == a + ReplaceAll(x, pat, rep);
    }
  }

  // ---------------------------------------------------------------- numbers

  function DigitChar(d: nat): char
    requires d < 10
  {
    "0123456789"[d]
  }

  function NatToString(n: nat): (r: string)
    ensures r != []
  {
    if n < 10 then [DigitChar(n)] else NatToString(n / 10) + [DigitChar(n % 10)]
  }

  /** Decimal rendering of an integer, as `String(n)` gives it. */
  function IntToString(n: int): string {
    if n < 0 then "-" + NatToString(-n) else NatToString(n)
  }
}
