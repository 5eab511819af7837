/** Character and string helpers shared by the log classifiers: ASCII case
    mapping, substring search, the `a.*b` regular-expression shape, the
    keyword-then-number regular expressions, stripping, splitting and
    decimal/hexadecimal text. */
module Text {

  // ---------------------------------------------------------------- case

  predicate IsUpper(c: char) { 'A' <= c <= 'Z' }
  predicate IsLower(c: char) { 'a' <= c <= 'z' }
  predicate IsDigit(c: char) { '0' <= c <= '9' }

  function UpperChar(c: char): char {
    if IsLower(c) then (c as int - 32) as char else c
  }

  function LowerChar(c: char): char {
    if IsUpper(c) then (c as int + 32) as char else c
  }

  /** `str.upper()` restricted to ASCII letters. */
  function Upper(s: string): (r: string)
    ensures |r| == |s|
    ensures forall i :: 0 <= i < |s| ==> r[i] == UpperChar(s[i])
  {
    seq(|s|, i requires 0 <= i < |s| => UpperChar(s[i]))
  }

  /** `str.lower()` / `String.toLowerCase()` restricted to ASCII letters. */
  function Lower(s: string): (r: string)
    ensures |r| == |s|
    ensures forall i :: 0 <= i < |s| ==> r[i] == LowerChar(s[i])
  {
    seq(|s|, i requires 0 <= i < |s| => LowerChar(s[i]))
  }

  predicate HasUpper(s: string) { exists i | 0 <= i < |s| :: IsUpper(s[i]) }

  /** Lower-casing works character by character, so it distributes over
      concatenation. */
  lemma LowerConcat(a: string, b: string)
    ensures Lower(a + b) == Lower(a) + Lower(b)
  {
  }

  /** Lower-casing text without upper-case letters changes nothing. */
  lemma LowerOfLowerCase(s: string)
    requires !HasUpper(s)
    ensures Lower(s) == s
  {
  }

  lemma UpperIdempotent(s: string)
    ensures Upper(Upper(s)) == Upper(s)
  {
  }

  lemma LowerHasNoUpper(s: string)
    ensures !HasUpper(Lower(s))
  {
  }

  // ---------------------------------------------------------- substrings

  predicate OccursAt(s: string, p: string, i: int) {
    0 <= i <= |s| - |p| && s[i..i + |p|] == p
  }

  /** Python's `p in s`, Java's `s.contains(p)`. */
  predicate Contains(s: string, p: string) {
    exists i | 0 <= i <= |s| - |p| :: OccursAt(s, p, i)
  }

  predicate StartsWith(s: string, p: string) { OccursAt(s, p, 0) }

  predicate EndsWith(s: string, p: string) { OccursAt(s, p, |s| - |p|) }

  /** `s[i + j..i + |p|] == p[j..]`, character by character: a form the
      verifier can evaluate on literal strings. */
  function MatchFrom(s: string, p: string, i: nat, j: nat): (b: bool)
    requires i + |p| <= |s| && j <= |p|
    ensures b <==> forall k :: j <= k < |p| ==> s[i + k] == p[k]
    decreases |p| - j
  {
    j == |p| || (s[i + j] == p[j] && MatchFrom(s, p, i, j + 1))
  }

  /** A prefix test the verifier can evaluate on literal strings. */
  lemma StartsWithMatch(s: string, p: string)
    ensures StartsWith(s, p) <==> |p| <= |s| && MatchFrom(s, p, 0, 0)
  {
    if |p| <= |s| && MatchFrom(s, p, 0, 0) {
      assert s[..|p|] == p;
    }
  }

  /** A character of `p` missing from `s` rules out `p` occurring in `s`. */
  lemma MissingChar(s: string, p: string, k: nat)
    requires k < |p| && p[k] !in s
    ensures !Contains(s, p)
  {
  }

  /** A pattern with an upper-case letter never occurs in lower-cased text. */
  lemma {:induction false} NotInLowered(s: string, p: string)
    requires HasUpper(p)
    ensures !Contains(Lower(s), p)
  {
    var k :| 0 <= k < |p| && IsUpper(p[k]);
    forall i | OccursAt(Lower(s), p, i) ensures false {
    }
  }

  /** Containment is preserved by upper-casing both sides. */
  lemma ContainsUpper(s: string, p: string)
    requires Contains(s, p)
    ensures Contains(Upper(s), Upper(p))
  {
    var i :| 0 <= i <= |s| - |p| && OccursAt(s, p, i);
    assert Upper(s)[i..i + |p|] == Upper(p);
    assert OccursAt(Upper(s), Upper(p), i);
  }

  lemma ContainsLower(s: string, p: string)
    requires Contains(s, p)
    ensures Contains(Lower(s), Lower(p))
  {
    var i :| 0 <= i <= |s| - |p| && OccursAt(s, p, i);
    assert Lower(s)[i..i + |p|] == Lower(p);
    assert OccursAt(Lower(s), Lower(p), i);
  }

  /** A substring of the needle is found wherever the needle is. */
  lemma ContainsTransitive(s: string, p: string, q: string)
    requires Contains(s, p) && Contains(p, q)
    ensures Contains(s, q)
  {
    var i :| 0 <= i <= |s| - |p| && OccursAt(s, p, i);
    var j :| 0 <= j <= |p| - |q| && OccursAt(p, q, j);
    forall m | 0 <= m < |q| ensures s[i + j + m] == q[m] {
      assert s[i..i + |p|][j + m] == p[j + m];
      assert p[j..j + |q|][m] == q[m];
    }
    assert s[i + j..i + j + |q|] == q;
    assert OccursAt(s, q, i + j);
  }

  // ------------------------------------------- the regular expression a.*b

  /** The literals `ls` occur in `t` in order and without overlapping. */
  predicate InOrder(t: string, ls: seq<string>)
    decreases |ls|
  {
    ls == [] ||
    exists i | 0 <= i <= |t| - |ls[0]| ::
      OccursAt(t, ls[0], i) && InOrder(t[i + |ls[0]|..], ls[1..])
  }

  /** `re.search` of the pattern `l0.*l1.*...` (no flags): `.` matches any
      character but a newline, so the match lies inside one line of `s`. */
  predicate Search(s: string, ls: seq<string>) {
    exists a, b | 0 <= a <= b <= |s| :: '\n' !in s[a..b] && InOrder(s[a..b], ls)
  }

  /** The same search with `re.IGNORECASE`, for ASCII text and patterns. */
  predicate SearchI(s: string, ls: seq<string>) {
    Search(Lower(s), seq(|ls|, k requires 0 <= k < |ls| => Lower(ls[k])))
  }

  /** A literal found after a gap, followed by text holding the remaining
      literals in order, starts an in-order occurrence. */
  lemma InOrderAfter(gap: string, p: string, t: string, rest: seq<string>)
    requires InOrder(t, rest)
    ensures InOrder(gap + p + t, [p] + rest)
  {
    var s := gap + p + t;
    assert OccursAt(s, p, |gap|) by {
      assert s[|gap|..|gap| + |p|] == p;
    }
    assert s[|gap| + |p|..] == t;
    assert ([p] + rest)[0] == p && ([p] + rest)[1..] == rest;
  }

  /** The literals `ls[k..]` occur in `t` at the positions `pos[k..]`, in
      order and without overlapping, and not before `from`: a witness the
      verifier can check on literal strings. */
  function PlacedFrom(t: string, ls: seq<string>, pos: seq<nat>, k: nat, from: nat): bool
    requires |pos| == |ls| && k <= |ls|
    decreases |ls| - k
  {
    k == |ls|
    || (from <= pos[k] && pos[k] + |ls[k]| <= |t| && MatchFrom(t, ls[k], pos[k], 0)
        && PlacedFrom(t, ls, pos, k + 1, pos[k] + |ls[k]|))
  }

  lemma {:induction false} PlacedInOrder(t: string, ls: seq<string>, pos: seq<nat>, k: nat, from: nat)
    requires |pos| == |ls| && k <= |ls| && from <= |t|
    requires PlacedFrom(t, ls, pos, k, from)
    ensures InOrder(t[from..], ls[k..])
    decreases |ls| - k
  {
    if k < |ls| {
      var next := pos[k] + |ls[k]|;
      PlacedInOrder(t, ls, pos, k + 1, next);
      var u := t[from..];
      var i := pos[k] - from;
      assert u[i..i + |ls[k]|] == t[pos[k]..next];
      assert OccursAt(u, ls[k..][0], i);
      assert u[i + |ls[k..][0]|..] == t[next..];
      assert ls[k..][1..] == ls[k + 1..];
    }
  }

  /** Literals in order in a text without line breaks are found by the
      search. */
  lemma SearchWhole(s: string, ls: seq<string>)
    requires '\n' !in s && InOrder(s, ls)
    ensures Search(s, ls)
  {
    assert s[0..|s|] == s;
  }

  lemma {:induction false} InOrderContains(t: string, ls: seq<string>, k: nat)
    requires InOrder(t, ls) && k < |ls|
    ensures Contains(t, ls[k])
    decreases |ls|
  {
    var i :| 0 <= i <= |t| - |ls[0]| && OccursAt(t, ls[0], i) && InOrder(t[i + |ls[0]|..], ls[1..]);
    if k == 0 {
      assert OccursAt(t, ls[0], i);
    } else {
      var off := i + |ls[0]|;
      var u := t[off..];
      InOrderContains(u, ls[1..], k - 1);
      assert ls[1..][k - 1] == ls[k];
      assert t[off..off + |u|] == u;
      assert OccursAt(t, u, off);
      ContainsTransitive(t, u, ls[k]);
    }
  }

  /** Every literal of a matching pattern occurs in the searched text. */
  lemma SearchContains(s: string, ls: seq<string>, k: nat)
    requires Search(s, ls) && k < |ls|
    ensures Contains(s, ls[k])
  {
    var a, b :| 0 <= a <= b <= |s| && '\n' !in s[a..b] && InOrder(s[a..b], ls);
    InOrderContains(s[a..b], ls, k);
    SliceOfSlice(s, a, b);
    ContainsTransitive(s, s[a..b], ls[k]);
  }

  lemma SliceOfSlice(s: string, a: nat, b: nat)
    requires a <= b <= |s|
    ensures Contains(s, s[a..b])
  {
    assert OccursAt(s, s[a..b], a);
  }

  /** A single literal is searched for exactly as a substring when it holds
      no newline. */
  lemma SearchOne(s: string, p: string)
    requires '\n' !in p
    ensures Search(s, [p]) <==> Contains(s, p)
  {
    if Contains(s, p) {
      var i :| 0 <= i <= |s| - |p| && OccursAt(s, p, i);
      var t := s[i..i + |p|];
      assert t[0..|p|] == p;
      assert OccursAt(t, p, 0);
      assert t[|p|..] == [];
      assert [p][0] == p && [p][1..] == [];
      assert InOrder(t[|p|..], [p][1..]);
      assert OccursAt(t, [p][0], 0) && InOrder(t[0 + |[p][0]|..], [p][1..]);
      assert InOrder(t, [p]);
      assert '\n' !in s[i..i + |p|];
      assert Search(s, [p]) by {
        assert 0 <= i <= i + |p| <= |s| && '\n' !in s[i..i + |p|] && InOrder(s[i..i + |p|], [p]);
      }
    }
    if Search(s, [p]) {
      SearchContains(s, [p], 0);
    }
  }

  /** Searching for a pattern with an upper-case letter in lower-cased text
      never succeeds. */
  lemma SearchLoweredFails(s: string, ls: seq<string>, k: nat)
    requires k < |ls| && HasUpper(ls[k])
    ensures !Search(Lower(s), ls)
  {
    if Search(Lower(s), ls) {
      SearchContains(Lower(s), ls, k);
      NotInLowered(s, ls[k]);
    }
  }

  // ------------------------------------- whitespace, stripping and splitting

  /** Python's `str.isspace()` (also the `\s` class of `re` on text). */
  predicate IsPySpace(c: char) {
    var n := c as int;
    n == 0x20 || (0x09 <= n <= 0x0d) || (0x1c <= n <= 0x1f) || n == 0x85 || n == 0xa0 ||
    n == 0x1680 || (0x2000 <= n <= 0x200a) || n == 0x2028 || n == 0x2029 || n == 0x202f ||
    n == 0x205f || n == 0x3000
  }

  function DropLeading(s: string, ws: char -> bool): (r: string)
    ensures |r| <= |s| && r == s[|s| - |r|..]
    ensures r == [] || !ws(r[0])
    ensures forall i :: 0 <= i < |s| - |r| ==> ws(s[i])
    decreases |s|
  {
    if s != [] && ws(s[0]) then DropLeading(s[1..], ws) else s
  }

  function DropTrailing(s: string, ws: char -> bool): (r: string)
    ensures |r| <= |s| && r == s[..|r|]
    ensures r == [] || !ws(r[|r| - 1])
    ensures forall i :: |r| <= i < |s| ==> ws(s[i])
    decreases |s|
  {
    if s != [] && ws(s[|s| - 1]) then DropTrailing(s[..|s| - 1], ws) else s
  }

  /** Python's `str.strip()`. */
  function Strip(s: string): string {
    DropTrailing(DropLeading(s, IsPySpace), IsPySpace)
  }

  /** Java's `String.trim()`: removes characters up to U+0020 at both ends. */
  function Trim(s: string): string {
    DropTrailing(DropLeading(s, c => c <= ' '), c => c <= ' ')
  }

  /** A string strips to nothing exactly when it is all whitespace. */
  lemma StripEmpty(s: string)
    ensures Strip(s) == [] <==> forall i :: 0 <= i < |s| ==> IsPySpace(s[i])
  {
    var d := DropLeading(s, IsPySpace);
    if d != [] {
      assert !IsPySpace(d[0]) && d[0] == s[|s| - |d|];
      assert DropTrailing(d, IsPySpace) != [];
    }
  }

  lemma TrimEmpty(s: string)
    ensures Trim(s) == [] <==> forall i :: 0 <= i < |s| ==> s[i] <= ' '
  {
    var d := DropLeading(s, c => c <= ' ');
    if d != [] {
      assert d[0] == s[|s| - |d|];
      assert DropTrailing(d, c => c <= ' ') != [];
    }
  }

  /** Python's `s.split(c)` for a one-character separator. */
  function Split(s: string, c: char): (r: seq<string>)
    ensures |r| >= 1
    decreases |s|
  {
    if s == [] then [[]]
    else
      var rest := Split(s[1..], c);
      if s[0] == c then [[]] + rest else [[s[0]] + rest[0]] + rest[1..]
  }

  function Join(parts: seq<string>, c: char): string
    decreases |parts|
  {
    if parts == [] then [] else if |parts| == 1 then parts[0]
    else parts[0] + [c] + Join(parts[1..], c)
  }

  /** Splitting and joining again gives back the text. */
  lemma {:induction false} JoinSplit(s: string, c: char)
    ensures Join(Split(s, c), c) == s
    decreases |s|
  {
    if s != [] {
      JoinSplit(s[1..], c);
      var rest := Split(s[1..], c);
      if s[0] != c {
        if |rest| > 1 {
          assert Join(rest, c) == rest[0] + [c] + Join(rest[1..], c);
          assert Join([[s[0]] + rest[0]] + rest[1..], c)
              == ([s[0]] + rest[0]) + [c] + Join(rest[1..], c);
        }
      }
    }
  }

  /** No piece holds the separator. */
  lemma {:induction false} SplitPieces(s: string, c: char)
    ensures forall k :: 0 <= k < |Split(s, c)| ==> c !in Split(s, c)[k]
    decreases |s|
  {
    if s != [] {
      SplitPieces(s[1..], c);
    }
  }

  /** A text without the separator is one piece. */
  lemma {:induction false} SplitNoSeparator(s: string, c: char)
    requires c !in s
    ensures Split(s, c) == [s]
    decreases |s|
  {
    if s != [] {
      assert c !in s[1..] && s[0] != c;
      SplitNoSeparator(s[1..], c);
      var rest := Split(s[1..], c);
      assert rest[0] == s[1..] && rest[1..] == [];
      assert [s[0]] + s[1..] == s;
      assert Split(s, c) == [[s[0]] + rest[0]] + rest[1..];
    }
  }

  /** A text with exactly one separator splits into the two sides. */
  lemma {:induction false} SplitAround(a: string, b: string, c: char)
    requires c !in a && c !in b
    ensures Split(a + [c] + b, c) == [a, b]
    decreases |a|
  {
    var s := a + [c] + b;
    if a == [] {
      assert s[1..] == b;
      SplitNoSeparator(b, c);
    } else {
      assert s[0] == a[0] && s[1..] == a[1..] + [c] + b;
      SplitAround(a[1..], b, c);
      assert [a[0]] + a[1..] == a;
    }
  }

  /** The separator count is one less than the piece count. */
  function CountChar(s: string, c: char): nat
    decreases |s|
  {
    if s == [] then 0 else (if s[0] == c then 1 else 0) + CountChar(s[1..], c)
  }

  lemma {:induction false} SplitCount(s: string, c: char)
    ensures |Split(s, c)| == CountChar(s, c) + 1
    decreases |s|
  {
    if s != [] {
      SplitCount(s[1..], c);
    }
  }

  /** A text splits into two or more pieces exactly when it holds the
      separator. */
  lemma {:induction false} SplitsIffSeparator(s: string, c: char)
    ensures |Split(s, c)| >= 2 <==> c in s
    decreases |s|
  {
    SplitCount(s, c);
    CountCharIn(s, c);
  }

  lemma {:induction false} CountCharIn(s: string, c: char)
    ensures CountChar(s, c) > 0 <==> c in s
    decreases |s|
  {
    if s != [] {
      CountCharIn(s[1..], c);
      assert c in s <==> s[0] == c || c in s[1..];
    }
  }

  /** Java drops the empty strings at the end of a split result. */
  function DropTrailingEmpty(parts: seq<string>): (r: seq<string>)
    ensures |r| <= |parts| && r == parts[..|r|]
    ensures r == [] || r[|r| - 1] != []
    ensures forall k :: |r| <= k < |parts| ==> parts[k] == []
    decreases |parts|
  {
    if parts != [] && parts[|parts| - 1] == [] then DropTrailingEmpty(parts[..|parts| - 1]) else parts
  }

  /** Java's `s.split(re)` for a regular expression matching only the
      single character `c`: with no match the text itself, otherwise the
      pieces with the trailing empty ones removed. */
  function JavaSplit(s: string, c: char): seq<string> {
    if c !in s then [s] else DropTrailingEmpty(Split(s, c))
  }

  // -------------------------------------------------------- decimal text

  function DigitValue(c: char): nat requires IsDigit(c) { c as int - '0' as int }

  function DigitChar(d: nat): (c: char)
    requires d < 10
    ensures IsDigit(c) && DigitValue(c) == d
  {
    ('0' as int + d) as char
  }

  predicate AllDigits(s: string) { forall i :: 0 <= i < |s| ==> IsDigit(s[i]) }

  /** The value of a run of decimal digits. */
  function DigitsValue(s: string): nat
    requires AllDigits(s)
    decreases |s|
  {
    if s == [] then 0 else DigitsValue(s[..|s| - 1]) * 10 + DigitValue(s[|s| - 1])
  }

  /** Decimal text of a natural number, without leading zeros. */
  function NatText(n: nat): (r: string)
    ensures |r| >= 1 && AllDigits(r)
    ensures |r| > 1 ==> r[0] != '0'
    decreases n
  {
    if n < 10 then [DigitChar(n)] else NatText(n / 10) + [DigitChar(n % 10)]
  }

  /** Decimal text of an integer, the way `"" + n` and `str(n)` print it. */
  function IntText(n: int): string {
    if n < 0 then "-" + NatText(-n) else NatText(n)
  }

  lemma {:induction false} NatTextValue(n: nat)
    ensures DigitsValue(NatText(n)) == n
    decreases n
  {
    if n >= 10 {
      NatTextValue(n / 10);
      var r := NatText(n);
      assert r[..|r| - 1] == NatText(n / 10);
    }
  }

  // --------------------------------------------------- hexadecimal text

  predicate IsHexDigit(c: char) { IsDigit(c) || 'a' <= c <= 'f' || 'A' <= c <= 'F' }

  function HexValue(c: char): (v: nat)
    requires IsHexDigit(c)
    ensures v < 16
  {
    if IsDigit(c) then DigitValue(c)
    else if 'a' <= c <= 'f' then c as int - 'a' as int + 10
    else c as int - 'A' as int + 10
  }

  /** Upper-case hexadecimal digit, as `%X` prints it. */
  function HexChar(d: nat): (c: char)
    requires d < 16
    ensures IsHexDigit(c) && HexValue(c) == d && !IsLower(c)
  {
    if d < 10 then DigitChar(d) else ('A' as int + d - 10) as char
  }

  predicate AllHex(s: string) { forall i :: 0 <= i < |s| ==> IsHexDigit(s[i]) }

  /** The value of a run of hexadecimal digits. */
  function HexDigitsValue(s: string): nat
    requires AllHex(s)
    decreases |s|
  {
    if s == [] then 0 else HexDigitsValue(s[..|s| - 1]) * 16 + HexValue(s[|s| - 1])
  }

  /** `%04X` of a 16-bit value: four upper-case hexadecimal digits. */
  function Hex4(n: nat): (r: string)
    requires n < 0x10000
    ensures |r| == 4 && AllHex(r)
  {
    [HexChar(n / 0x1000), HexChar(n / 0x100 % 16), HexChar(n / 16 % 16), HexChar(n % 16)]
  }

  lemma Hex4Value(n: nat)
    requires n < 0x10000
    ensures HexDigitsValue(Hex4(n)) == n
  {
    var r := Hex4(n);
    var hi, mid := n / 0x100, n / 16;
    assert hi / 16 == n / 0x1000 && hi % 16 == n / 0x100 % 16;
    assert mid / 16 == hi && mid % 16 == n / 16 % 16;
    assert HexDigitsValue(r[..1]) == n / 0x1000 by {
      assert r[..1][..0] == [];
    }
    assert HexDigitsValue(r[..2]) == hi by {
      assert r[..2][..1] == r[..1];
    }
    assert HexDigitsValue(r[..3]) == mid by {
      assert r[..3][..2] == r[..2];
    }
    assert r[..4][..3] == r[..3] && r[..4] == r;
  }
}
