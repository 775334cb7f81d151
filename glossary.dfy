/**
 * A topic's term glossary (the `allTerms` object literal: an ordered table
 * from a symbolic key to its definition) and the per-step filter
 * `Object.fromEntries(Object.entries(allTerms).filter(([key]) =>
 * relevantTerms[step].includes(key)))`.
 */
module Glossary {
  import opened Js

  /** One glossary entry: (key, definition). */
  type Term = (string, string)

  /** The glossary in `Object.entries` order. */
  type Table = seq<Term>

  /**
   * `Array.prototype.filter` from index `i` on: keeps, in table order, every
   * entry whose key is in `wanted` (compared by exact string equality).
   */
  function FilterFrom(g: Table, wanted: seq<string>, i: nat): Table
    decreases |g| - i
  {
    if i >= |g| then []
    else (if g[i].0 in wanted then [g[i]] else []) + FilterFrom(g, wanted, i + 1)
  }

  /** The entries of `g` whose key is listed in `wanted`. */
  function Filter(g: Table, wanted: seq<string>): Table {
    FilterFrom(g, wanted, 0)
  }

  /** `getRelevantMathTerms(step)`; `relevantTerms[step].includes` throws past the table. */
  function RelevantFor(g: Table, relevant: seq<seq<string>>, step: int): (r: Lookup<Table>)
    ensures r.Defined? <==> 0 <= step < |relevant|
    ensures r.Defined? ==> r.value == Filter(g, relevant[step])
  {
    if 0 <= step < |relevant| then Defined(Filter(g, relevant[step])) else Undefined
  }

  /** The keys of the entries of `g` from index `j` on, in table order. */
  function KeysFrom(g: Table, j: nat): seq<string>
    decreases |g| - j
  {
    if j >= |g| then [] else [g[j].0] + KeysFrom(g, j + 1)
  }

  /** The keys of `g`, in table order. */
  function Keys(g: Table): (ks: seq<string>)
    ensures |ks| == |g|
    ensures forall i :: 0 <= i < |g| ==> ks[i] == g[i].0
  {
    KeysFromIndexes(g, 0);
    KeysFrom(g, 0)
  }

  lemma {:induction false} KeysFromIndexes(g: Table, j: nat)
    ensures |KeysFrom(g, j)| == if j <= |g| then |g| - j else 0
    ensures forall t :: 0 <= t < |KeysFrom(g, j)| ==> KeysFrom(g, j)[t] == g[j + t].0
    decreases |g| - j
  {
    if j < |g| {
      KeysFromIndexes(g, j + 1);
    }
  }

  /** No key appears twice, as in an object literal. */
  ghost predicate DistinctKeys(g: Table) {
    forall i, j :: 0 <= i < j < |g| ==> g[i].0 != g[j].0
  }

  ghost predicate Distinct(w: seq<string>) {
    forall i, j :: 0 <= i < j < |w| ==> w[i] != w[j]
  }

  /** `r` is `s` with some elements left out and the rest in their original order. */
  ghost predicate IsSubsequence<T>(r: seq<T>, s: seq<T>)
    decreases |s|
  {
    if r == [] then true
    else if s == [] then false
    else (r[0] == s[0] && IsSubsequence(r[1..], s[1..])) || IsSubsequence(r, s[1..])
  }

  // ---------------------------------------------------------------------
  // Lemmas

  /** Filtering from index `i` is filtering the suffix that starts there. */
  lemma {:induction false} FilterFromSuffix(g: Table, wanted: seq<string>, i: nat)
    requires i <= |g|
    ensures FilterFrom(g, wanted, i) == Filter(g[i..], wanted)
    decreases |g| - i
  {
    if i < |g| {
      FilterFromSuffix(g, wanted, i + 1);
      FilterFromSuffix(g[i..], wanted, 1);
      assert g[i..][1..] == g[i + 1..];
    }
  }

  /** The head entry is kept exactly when its key is wanted; the rest is filtered alike. */
  lemma FilterCons(g: Table, wanted: seq<string>)
    requires g != []
    ensures Filter(g, wanted) == (if g[0].0 in wanted then [g[0]] else []) + Filter(g[1..], wanted)
  {
    FilterFromSuffix(g, wanted, 1);
  }

  /** Filtering distributes over concatenation of glossaries. */
  lemma {:induction false} FilterAppend(a: Table, b: Table, wanted: seq<string>)
    ensures Filter(a + b, wanted) == Filter(a, wanted) + Filter(b, wanted)
    decreases |a|
  {
    if a != [] {
      FilterCons(a + b, wanted);
      FilterCons(a, wanted);
      assert (a + b)[1..] == a[1..] + b;
      FilterAppend(a[1..], b, wanted);
    } else {
      assert a + b == b;
    }
  }

  /** An entry is in the result exactly when it is in the glossary and its key is wanted. */
  lemma {:induction false} FilterMembers(g: Table, wanted: seq<string>, e: Term)
    ensures e in Filter(g, wanted) <==> e in g && e.0 in wanted
    decreases |g|
  {
    if g != [] {
      FilterCons(g, wanted);
      FilterMembers(g[1..], wanted, e);
      assert g == [g[0]] + g[1..];
    }
  }

  /** Every result key is wanted and is a glossary key. */
  lemma FilterKeysAreWantedGlossaryKeys(g: Table, wanted: seq<string>)
    ensures forall k :: k in Keys(Filter(g, wanted)) ==> k in wanted && k in Keys(g)
  {
    var r := Filter(g, wanted);
    forall k | k in Keys(r) ensures k in wanted && k in Keys(g) {
      var p :| 0 <= p < |r| && Keys(r)[p] == k;
      FilterMembers(g, wanted, r[p]);
      var i :| 0 <= i < |g| && g[i] == r[p];
      assert Keys(g)[i] == k;
    }
  }

  /** The result keeps the glossary's order: it is a subsequence of the glossary. */
  lemma {:induction false} FilterIsSubsequence(g: Table, wanted: seq<string>)
    ensures IsSubsequence(Filter(g, wanted), g)
    decreases |g|
  {
    if g != [] {
      FilterCons(g, wanted);
      FilterIsSubsequence(g[1..], wanted);
      if g[0].0 !in wanted && Filter(g, wanted) != [] {
        assert Filter(g, wanted) == Filter(g[1..], wanted);
      }
    }
  }

  /** The filter's specification: exactly the wanted glossary entries, in glossary order. */
  lemma FilterMeetsSpec(g: Table, wanted: seq<string>)
    ensures IsSubsequence(Filter(g, wanted), g)
    ensures forall e :: e in Filter(g, wanted) <==> e in g && e.0 in wanted
  {
    FilterIsSubsequence(g, wanted);
    forall e ensures e in Filter(g, wanted) <==> e in g && e.0 in wanted {
      FilterMembers(g, wanted, e);
    }
  }

  /**
   * Two wanted entries come out in glossary order, whatever order the
   * step's key list gives them: the earlier glossary entry is output first.
   */
  lemma FilterKeepsGlossaryOrder(g: Table, wanted: seq<string>, i: nat, j: nat)
    requires i < j < |g|
    requires g[i].0 in wanted && g[j].0 in wanted
    ensures exists p, q ::
      (0 <= p < q < |Filter(g, wanted)| && Filter(g, wanted)[p] == g[i] && Filter(g, wanted)[q] == g[j])
  {
    var a, mid, b := g[..i], g[i + 1..j], g[j + 1..];
    assert g == a + ([g[i]] + (mid + ([g[j]] + b)));
    FilterAppend(a, [g[i]] + (mid + ([g[j]] + b)), wanted);
    FilterAppend([g[i]], mid + ([g[j]] + b), wanted);
    FilterAppend(mid, [g[j]] + b, wanted);
    FilterAppend([g[j]], b, wanted);
    FilterCons([g[i]], wanted);
    FilterCons([g[j]], wanted);
    var r := Filter(g, wanted);
    var p := |Filter(a, wanted)|;
    var q := p + 1 + |Filter(mid, wanted)|;
    assert r[p] == g[i] && r[q] == g[j];
  }

  /**
   * The result depends only on which glossary keys the list mentions: the
   * order of the list, repetitions in it and keys missing from the glossary
   * make no difference.
   */
  lemma {:induction false} FilterDependsOnlyOnKnownKeys(g: Table, w1: seq<string>, w2: seq<string>)
    requires forall k :: k in Keys(g) ==> (k in w1 <==> k in w2)
    ensures Filter(g, w1) == Filter(g, w2)
    decreases |g|
  {
    if g != [] {
      FilterCons(g, w1);
      FilterCons(g, w2);
      assert Keys(g)[0] == g[0].0;
      assert forall k :: k in Keys(g[1..]) ==> k in Keys(g) by {
        forall k | k in Keys(g[1..]) ensures k in Keys(g) {
          var p :| 0 <= p < |g| - 1 && Keys(g[1..])[p] == k;
          assert Keys(g)[p + 1] == k;
        }
      }
      FilterDependsOnlyOnKnownKeys(g[1..], w1, w2);
    }
  }

  /** Filtering a glossary with distinct keys yields an entry list with distinct keys. */
  lemma FilterKeepsDistinctKeys(g: Table, wanted: seq<string>)
    requires DistinctKeys(g)
    ensures DistinctKeys(Filter(g, wanted))
  {
    var r := Filter(g, wanted);
    FilterIsSubsequence(g, wanted);
    var f := SubsequencePositions(r, g);
    forall p, q | 0 <= p < q < |r| ensures r[p].0 != r[q].0 {
      assert r[p] == g[f[p]] && r[q] == g[f[q]] && f[p] < f[q];
    }
  }

  /** A list without repetitions has as many elements as its set of elements. */
  lemma {:induction false} DistinctCardinality(w: seq<string>)
    requires Distinct(w)
    ensures |set k | k in w| == |w|
    decreases |w|
  {
    if w != [] {
      DistinctCardinality(w[1..]);
      assert (set k | k in w) == {w[0]} + (set k | k in w[1..]);
      assert w[0] !in w[1..];
    }
  }

  /** The result's keys are the listed keys, when every listed key is a glossary key. */
  lemma FilterKeySet(g: Table, wanted: seq<string>)
    requires forall k :: k in wanted ==> k in Keys(g)
    ensures (set k | k in Keys(Filter(g, wanted))) == (set k | k in wanted)
  {
    var r := Filter(g, wanted);
    FilterKeysAreWantedGlossaryKeys(g, wanted);
    forall k | k in wanted ensures k in Keys(r) {
      var i :| 0 <= i < |g| && Keys(g)[i] == k;
      FilterMembers(g, wanted, g[i]);
      var p :| 0 <= p < |r| && r[p] == g[i];
      assert Keys(r)[p] == k;
    }
  }

  /**
   * When every listed key is defined and neither the glossary nor the list
   * repeats a key, one entry is output per listed key.
   */
  lemma FilterSizeWhenComplete(g: Table, wanted: seq<string>)
    requires DistinctKeys(g) && Distinct(wanted)
    requires forall k :: k in wanted ==> k in Keys(g)
    ensures |Filter(g, wanted)| == |wanted|
  {
    var r := Filter(g, wanted);
    FilterKeepsDistinctKeys(g, wanted);
    assert Distinct(Keys(r)) by {
      forall p, q | 0 <= p < q < |Keys(r)| ensures Keys(r)[p] != Keys(r)[q] {
        assert Keys(r)[p] == r[p].0 && Keys(r)[q] == r[q].0;
      }
    }
    FilterKeySet(g, wanted);
    DistinctCardinality(Keys(r));
    DistinctCardinality(wanted);
  }

  /** The positions in `s` at which a subsequence `r` is found, strictly increasing. */
  lemma {:induction false} SubsequencePositions<T>(r: seq<T>, s: seq<T>) returns (f: seq<nat>)
    requires IsSubsequence(r, s)
    ensures |f| == |r|
    ensures forall k :: 0 <= k < |r| ==> f[k] < |s| && r[k] == s[f[k]]
    ensures forall k, l :: 0 <= k < l < |r| ==> f[k] < f[l]
    decreases |s|
  {
    if r == [] {
      f := [];
    } else if r[0] == s[0] && IsSubsequence(r[1..], s[1..]) {
      var t := SubsequencePositions(r[1..], s[1..]);
      f := [0] + Shifted(t);
      forall k | 0 < k < |r| ensures f[k] < |s| && r[k] == s[f[k]] {
        assert f[k] == t[k - 1] + 1 && r[k] == r[1..][k - 1];
      }
    } else {
      var t := SubsequencePositions(r, s[1..]);
      f := Shifted(t);
      forall k | 0 <= k < |r| ensures f[k] < |s| && r[k] == s[f[k]] {
        assert f[k] == t[k] + 1;
      }
    }
  }

  /** Every position moved one place on. */
  function Shifted(t: seq<nat>): (f: seq<nat>)
    ensures |f| == |t| && forall k :: 0 <= k < |t| ==> f[k] == t[k] + 1
  {
    seq(|t|, k requires 0 <= k < |t| => t[k] + 1)
  }
}
