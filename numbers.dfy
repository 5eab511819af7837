/** The keyword-then-number regular expressions of the classifiers,
    `KEY[^\d-]*(-?\d+)`, `key[:\s]+(-?\d+)`, `KEY[:\s=]+(-?\d+)` and
    `(?:Cell|PCI)[:\s=]+(\d+)`, as a leftmost search, and Python's `int()` of
    the captured text. */
module NumberSearch {
  import opened Wrappers
  import opened Text

  /** The character class between the keyword and the number. */
  datatype Gap =
    | NotDigitOrMinus    // [^\d-]
    | ColonOrSpace       // [:\s]
    | ColonSpaceOrEquals // [:\s=]

  predicate InGap(g: Gap, c: char) {
    match g
    case NotDigitOrMinus => !IsDigit(c) && c != '-'
    case ColonOrSpace => c == ':' || IsPySpace(c)
    case ColonSpaceOrEquals => c == ':' || c == '=' || IsPySpace(c)
  }

  /** No gap class holds a digit or a minus sign, so the gap run can only end
      where the number starts: the regex engine never has to give back a
      gap character. */
  lemma GapExcludesNumber(g: Gap, c: char)
    requires IsDigit(c) || c == '-'
    ensures !InGap(g, c)
  {
  }

  /** Length of the longest run of `g` characters starting at `i`. */
  function GapRun(s: string, i: nat, g: Gap): (n: nat)
    requires i <= |s|
    ensures i + n <= |s|
    ensures forall k :: i <= k < i + n ==> InGap(g, s[k])
    ensures i + n == |s| || !InGap(g, s[i + n])
    decreases |s| - i
  {
    if i < |s| && InGap(g, s[i]) then 1 + GapRun(s, i + 1, g) else 0
  }

  /** Length of the longest run of digits starting at `i`. */
  function DigitRun(s: string, i: nat): (n: nat)
    requires i <= |s|
    ensures i + n <= |s|
    ensures AllDigits(s[i..i + n])
    ensures i + n == |s| || !IsDigit(s[i + n])
    decreases |s| - i
  {
    if i < |s| && IsDigit(s[i]) then
      var n := DigitRun(s, i + 1);
      assert s[i..i + 1 + n] == [s[i]] + s[i + 1..i + 1 + n];
      1 + n
    else 0
  }

  /** The text `-?\d+` (or `\d+` when not `signed`) captures at `j`, if any. */
  function NumberAt(s: string, j: nat, signed: bool): (r: Option<string>)
    requires j <= |s|
    ensures r.Some? ==> |r.value| >= 1 && StartsWith(s[j..], r.value)
  {
    if signed && j < |s| && s[j] == '-' && DigitRun(s, j + 1) > 0 then
      Some(s[j..j + 1 + DigitRun(s, j + 1)])
    else if DigitRun(s, j) > 0 then Some(s[j..j + DigitRun(s, j)])
    else None
  }

  /** What the pattern `(k0|k1|...)G{min,}(-?\d+)` captures when its match
      starts at `i`; the alternatives are tried in order. */
  function MatchAt(s: string, keys: seq<string>, g: Gap, min: nat, signed: bool, i: nat): Option<string>
    requires i <= |s|
    decreases |keys|
  {
    if keys == [] then None
    else if OccursAt(s, keys[0], i) && GapRun(s, i + |keys[0]|, g) >= min
         && NumberAt(s, i + |keys[0]| + GapRun(s, i + |keys[0]|, g), signed).Some?
    then NumberAt(s, i + |keys[0]| + GapRun(s, i + |keys[0]|, g), signed)
    else MatchAt(s, keys[1..], g, min, signed, i)
  }

  /** `re.search`: the capture of the leftmost match at or after `from`. */
  function Find(s: string, keys: seq<string>, g: Gap, min: nat, signed: bool, from: nat): Option<string>
    requires from <= |s|
    decreases |s| - from
  {
    if MatchAt(s, keys, g, min, signed, from).Some? then MatchAt(s, keys, g, min, signed, from)
    else if from == |s| then None
    else Find(s, keys, g, min, signed, from + 1)
  }

  /** The pattern matches at no position in `lo..hi`, tried from the left. */
  predicate NoMatchIn(s: string, keys: seq<string>, g: Gap, min: nat, signed: bool, lo: nat, hi: nat)
    requires hi <= |s| + 1
    decreases hi - lo
  {
    lo >= hi || (MatchAt(s, keys, g, min, signed, lo).None? && NoMatchIn(s, keys, g, min, signed, lo + 1, hi))
  }

  /** Read pointwise: no position of the range matches. */
  lemma {:induction false} NoMatchAt(s: string, keys: seq<string>, g: Gap, min: nat, signed: bool, lo: nat, hi: nat, k: nat)
    requires hi <= |s| + 1 && NoMatchIn(s, keys, g, min, signed, lo, hi) && lo <= k < hi
    ensures MatchAt(s, keys, g, min, signed, k).None?
    decreases k - lo
  {
    if k > lo {
      NoMatchAt(s, keys, g, min, signed, lo + 1, hi, k);
    }
  }

  /** The search finds the leftmost position where the pattern matches, and
      fails only when it matches nowhere. */
  lemma {:induction false} FindLeftmost(s: string, keys: seq<string>, g: Gap, min: nat, signed: bool, from: nat)
    requires from <= |s|
    ensures Find(s, keys, g, min, signed, from).Some? ==>
              exists i :: from <= i <= |s| && MatchAt(s, keys, g, min, signed, i) == Find(s, keys, g, min, signed, from)
                          && NoMatchIn(s, keys, g, min, signed, from, i)
    ensures Find(s, keys, g, min, signed, from).None? ==> NoMatchIn(s, keys, g, min, signed, from, |s| + 1)
    decreases |s| - from
  {
    var r := Find(s, keys, g, min, signed, from);
    if MatchAt(s, keys, g, min, signed, from).Some? {
      assert NoMatchIn(s, keys, g, min, signed, from, from);
    } else if from == |s| {
      assert NoMatchIn(s, keys, g, min, signed, from + 1, |s| + 1);
    } else {
      assert r == Find(s, keys, g, min, signed, from + 1);
      FindLeftmost(s, keys, g, min, signed, from + 1);
      if r.Some? {
        var i :| from + 1 <= i <= |s| && MatchAt(s, keys, g, min, signed, i) == r
                 && NoMatchIn(s, keys, g, min, signed, from + 1, i);
        assert NoMatchIn(s, keys, g, min, signed, from, i);
      } else {
        assert NoMatchIn(s, keys, g, min, signed, from, |s| + 1);
      }
    }
  }

  /** A capture is a run of digits, optionally after a minus sign. */
  predicate IsNumberText(t: string) {
    (|t| >= 1 && AllDigits(t)) || (|t| >= 2 && t[0] == '-' && AllDigits(t[1..]))
  }

  lemma NumberAtShape(s: string, j: nat, signed: bool)
    requires j <= |s| && NumberAt(s, j, signed).Some?
    ensures IsNumberText(NumberAt(s, j, signed).value)
    ensures !signed ==> AllDigits(NumberAt(s, j, signed).value)
  {
    var t := NumberAt(s, j, signed).value;
    if signed && s[j] == '-' && DigitRun(s, j + 1) > 0 {
      assert t[1..] == s[j + 1..j + 1 + DigitRun(s, j + 1)];
    }
  }

  lemma {:induction false} MatchAtShape(s: string, keys: seq<string>, g: Gap, min: nat, signed: bool, i: nat)
    requires i <= |s| && MatchAt(s, keys, g, min, signed, i).Some?
    ensures IsNumberText(MatchAt(s, keys, g, min, signed, i).value)
    ensures !signed ==> AllDigits(MatchAt(s, keys, g, min, signed, i).value)
    decreases |keys|
  {
    var j := i + |keys[0]|;
    if OccursAt(s, keys[0], i) && GapRun(s, j, g) >= min && NumberAt(s, j + GapRun(s, j, g), signed).Some? {
      NumberAtShape(s, j + GapRun(s, j, g), signed);
    } else {
      MatchAtShape(s, keys[1..], g, min, signed, i);
    }
  }

  /** Every capture of the search is number text, `int()` accepts it. */
  lemma FindShape(s: string, keys: seq<string>, g: Gap, min: nat, signed: bool, from: nat)
    requires from <= |s| && Find(s, keys, g, min, signed, from).Some?
    ensures IsNumberText(Find(s, keys, g, min, signed, from).value)
    ensures !signed ==> AllDigits(Find(s, keys, g, min, signed, from).value)
  {
    FindLeftmost(s, keys, g, min, signed, from);
    var i :| from <= i <= |s| && MatchAt(s, keys, g, min, signed, i) == Find(s, keys, g, min, signed, from);
    MatchAtShape(s, keys, g, min, signed, i);
  }

  /** Python's `int()` of a capture. */
  function ToInt(t: string): int
    requires IsNumberText(t)
  {
    if t[0] == '-' then -(DigitsValue(t[1..]) as int) else DigitsValue(t)
  }

  /** `int(group(1))` of the search from the start, `None` when it fails. */
  function SearchInt(s: string, keys: seq<string>, g: Gap, min: nat): (r: Option<int>)
    ensures r.None? <==> Find(s, keys, g, min, true, 0).None?
  {
    var m := Find(s, keys, g, min, true, 0);
    if m.None? then None
    else
      FindShape(s, keys, g, min, true, 0);
      Some(ToInt(m.value))
  }

  /** The first alternative that matches wins, so a keyword that does not
      occur in the text can only contribute through the others. */
  lemma {:induction false} MatchAtNeedsKey(s: string, keys: seq<string>, g: Gap, min: nat, signed: bool, i: nat)
    requires i <= |s| && MatchAt(s, keys, g, min, signed, i).Some?
    ensures exists k :: 0 <= k < |keys| && OccursAt(s, keys[k], i)
    decreases |keys|
  {
    if !(OccursAt(s, keys[0], i) && GapRun(s, i + |keys[0]|, g) >= min
         && NumberAt(s, i + |keys[0]| + GapRun(s, i + |keys[0]|, g), signed).Some?) {
      MatchAtNeedsKey(s, keys[1..], g, min, signed, i);
      var k :| 0 <= k < |keys[1..]| && OccursAt(s, keys[1..][k], i);
      assert OccursAt(s, keys[k + 1], i);
    }
  }

  /** A text that holds none of the keywords yields no number. */
  lemma FindNeedsKey(s: string, keys: seq<string>, g: Gap, min: nat, signed: bool)
    requires forall k :: 0 <= k < |keys| ==> !Contains(s, keys[k])
    ensures Find(s, keys, g, min, signed, 0).None?
  {
    FindLeftmost(s, keys, g, min, signed, 0);
    if Find(s, keys, g, min, signed, 0).Some? {
      var i :| 0 <= i <= |s| && MatchAt(s, keys, g, min, signed, i) == Find(s, keys, g, min, signed, 0);
      MatchAtNeedsKey(s, keys, g, min, signed, i);
    }
  }
}
