/** Ordered tables of line tests, as the classifiers use them: a row is a
    list of alternatives, each either a regular expression `l0.*l1.*...`
    over literals or a conjunction of substring tests, and the first row
    with a holding alternative wins. */
module Patterns {
  import opened Wrappers
  import opened Text

  /** One alternative: `re.search` of `l0.*l1.*...`, or `w0 in s and w1 in s and ...`. */
  datatype Test = Chain(ls: seq<string>) | AllOf(ws: seq<string>)

  /** The alternatives of a row: the branches of a regular expression
      `c0|c1|...`, the operands of an `or`, or a list of expressions tried
      one after the other. */
  type Alternation = seq<Test>

  /** The test holds, with or without `re.IGNORECASE` (ASCII case folding). */
  predicate Holds(s: string, t: Test, ignoreCase: bool) {
    match t
    case Chain(ls) => if ignoreCase then SearchI(s, ls) else Search(s, ls)
    case AllOf(ws) =>
      forall k | 0 <= k < |ws| :: if ignoreCase then Contains(Lower(s), Lower(ws[k])) else Contains(s, ws[k])
  }

  predicate Matches(s: string, p: Alternation, ignoreCase: bool) {
    exists j | 0 <= j < |p| :: Holds(s, p[j], ignoreCase)
  }

  /** The index of the first row of `table` at or after `from` that matches. */
  function FirstMatchFrom(s: string, table: seq<Alternation>, ignoreCase: bool, from: nat): (r: Option<nat>)
    requires from <= |table|
    ensures r.Some? ==> from <= r.value < |table| && Matches(s, table[r.value], ignoreCase)
                        && forall i :: from <= i < r.value ==> !Matches(s, table[i], ignoreCase)
    ensures r.None? ==> forall i :: from <= i < |table| ==> !Matches(s, table[i], ignoreCase)
    decreases |table| - from
  {
    if from == |table| then None
    else if Matches(s, table[from], ignoreCase) then Some(from)
    else FirstMatchFrom(s, table, ignoreCase, from + 1)
  }

  /** The first matching row, if any: an `if/elif` chain or a loop that
      returns on the first hit. */
  function FirstMatch(s: string, table: seq<Alternation>, ignoreCase: bool): (r: Option<nat>)
    ensures r.Some? ==> r.value < |table| && Matches(s, table[r.value], ignoreCase)
                        && forall i :: 0 <= i < r.value ==> !Matches(s, table[i], ignoreCase)
    ensures r.None? ==> forall i :: 0 <= i < |table| ==> !Matches(s, table[i], ignoreCase)
  {
    FirstMatchFrom(s, table, ignoreCase, 0)
  }

  /** The row a text selects is determined by which rows match: row `i` is
      chosen exactly when it matches and no earlier row does. */
  lemma FirstMatchIff(s: string, table: seq<Alternation>, ignoreCase: bool, i: nat)
    requires i < |table|
    ensures FirstMatch(s, table, ignoreCase) == Some(i)
            <==> Matches(s, table[i], ignoreCase) && forall j :: 0 <= j < i ==> !Matches(s, table[j], ignoreCase)
  {
  }

  /** The label of the first matching row, each row carrying one label. */
  function Pick<K>(s: string, table: seq<Alternation>, ignoreCase: bool, labels: seq<K>): (r: Option<K>)
    requires |labels| == |table|
    ensures r.Some? <==> exists i :: 0 <= i < |table| && Matches(s, table[i], ignoreCase)
  {
    var i := FirstMatch(s, table, ignoreCase);
    if i.Some? then Some(labels[i.value]) else None
  }

  /** With distinct labels, label `labels[i]` is picked exactly when row `i`
      matches and no earlier row does. */
  lemma PickIff<K>(s: string, table: seq<Alternation>, ignoreCase: bool, labels: seq<K>, i: nat)
    requires |labels| == |table| && i < |table|
    requires forall a, b :: 0 <= a < b < |labels| ==> labels[a] != labels[b]
    ensures Pick(s, table, ignoreCase, labels) == Some(labels[i])
            <==> Matches(s, table[i], ignoreCase) && forall j :: 0 <= j < i ==> !Matches(s, table[j], ignoreCase)
  {
    FirstMatchIff(s, table, ignoreCase, i);
  }

  /** A row with a single alternative matches when that alternative holds. */
  lemma MatchesOne(s: string, t: Test, ignoreCase: bool)
    ensures Matches(s, [t], ignoreCase) <==> Holds(s, t, ignoreCase)
  {
    assert [t][0] == t;
  }

  /** Substring conjunctions of one and of two words. */
  lemma AllOfOne(s: string, w: string)
    ensures Holds(s, AllOf([w]), false) <==> Contains(s, w)
  {
    assert [w][0] == w;
  }

  lemma AllOfTwo(s: string, v: string, w: string)
    ensures Holds(s, AllOf([v, w]), false) <==> Contains(s, v) && Contains(s, w)
  {
    assert [v, w][0] == v && [v, w][1] == w;
  }

  /** An alternative that is a one-word regular expression matches every
      text that holds the word (in any ASCII case, under `re.IGNORECASE`). */
  lemma MatchesWord(s: string, p: Alternation, ignoreCase: bool, j: nat, w: string)
    requires j < |p| && p[j] == Chain([w]) && '\n' !in w
    requires ignoreCase ==> Contains(Lower(s), Lower(w))
    requires !ignoreCase ==> Contains(s, w)
    ensures Matches(s, p, ignoreCase)
  {
    if ignoreCase {
      var lw := seq(|[w]|, k requires 0 <= k < |[w]| => Lower([w][k]));
      assert lw == [Lower(w)];
      SearchOne(Lower(s), Lower(w));
      assert Holds(s, p[j], ignoreCase);
    } else {
      SearchOne(s, w);
      assert Holds(s, p[j], ignoreCase);
    }
  }

  // ------------------------------------------------- tables of single words

  /** One row `[AllOf([w])]` per word: `for key in table: if key in s`. */
  function Words(keys: seq<string>): (rows: seq<Alternation>)
    ensures |rows| == |keys|
    ensures forall i :: 0 <= i < |keys| ==> rows[i] == [AllOf([keys[i]])]
  {
    seq(|keys|, i requires 0 <= i < |keys| => [AllOf([keys[i]])])
  }

  lemma WordsMatch(s: string, keys: seq<string>, i: nat)
    requires i < |keys|
    ensures Matches(s, Words(keys)[i], false) <==> Contains(s, keys[i])
  {
    MatchesOne(s, AllOf([keys[i]]), false);
    AllOfOne(s, keys[i]);
  }

  /** The loop `for key in keys: if key in s: return key's index`. */
  method FirstWord(s: string, keys: seq<string>) returns (r: Option<nat>)
    ensures r == FirstMatch(s, Words(keys), false)
  {
    var i := 0;
    while i < |keys|
      invariant 0 <= i <= |keys|
      invariant forall j :: 0 <= j < i ==> !Contains(s, keys[j])
    {
      if Contains(s, keys[i]) {
        WordsMatch(s, keys, i);
        forall j | 0 <= j < i
          ensures !Matches(s, Words(keys)[j], false)
        {
          WordsMatch(s, keys, j);
        }
        FirstMatchIff(s, Words(keys), false, i);
        return Some(i);
      }
      i := i + 1;
    }
    forall j | 0 <= j < |keys|
      ensures !Matches(s, Words(keys)[j], false)
    {
      WordsMatch(s, keys, j);
    }
    return None;
  }
}
