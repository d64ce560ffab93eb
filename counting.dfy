/** Frequency counts and the most frequent value, as the Swift code computes them with
    `reduce(into: [:]) { $0[$1, default: 0] += 1 }` and `max { $0.value < $1.value }`. */
module Counting {
  import opened Wrappers
  import opened Text

  /** `freq[x, default: 0]` */
  function Count<T>(freq: map<T, nat>, x: T): nat {
    if x in freq then freq[x] else 0
  }

  /** Counts how often each value occurs. */
  method Frequencies<T(==)>(values: seq<T>) returns (freq: map<T, nat>)
    ensures forall e :: e in freq ==> freq[e] > 0
    ensures forall e :: Count(freq, e) == Occurrences(values, e)
  {
    freq := map[];
    var i := 0;
    while i < |values|
      invariant 0 <= i <= |values|
      invariant forall e :: e in freq ==> freq[e] > 0
      invariant forall e :: Count(freq, e) == Occurrences(values[..i], e)
    {
      var e := values[i];
      assert values[..i + 1][..i] == values[..i] && values[..i + 1][i] == e;
      freq := freq[e := Count(freq, e) + 1];
      i := i + 1;
    }
    assert values[..i] == values;
  }

  /** `counts.max { $0.value < $1.value }?.key`: some key with the largest value. Which of
      several tied keys comes back depends on the dictionary's order; only the maximality
      is specified. */
  method MaxByValue<K>(counts: map<K, nat>) returns (best: Option<K>)
    ensures best.None? <==> counts == map[]
    ensures best.Some? ==> best.value in counts && forall k :: k in counts ==> counts[k] <= counts[best.value]
  {
    best := None;
    var rest := counts.Keys;
    while rest != {}
      invariant rest <= counts.Keys
      invariant best.None? ==> rest == counts.Keys
      invariant best.Some? ==> best.value in counts
      invariant best.Some? ==> forall k :: k in counts.Keys - rest ==> counts[k] <= counts[best.value]
      decreases rest
    {
      var k :| k in rest;
      if best.None? || counts[best.value] < counts[k] {
        best := Some(k);
      }
      rest := rest - {k};
    }
    if best.None? {
      assert counts.Keys == {};
    }
  }

  /** `m` is a value occurring at least as often as any other in `values`. */
  ghost predicate IsMode<T(!new)>(values: seq<T>, m: T) {
    Occurrences(values, m) > 0 && forall e :: Occurrences(values, e) <= Occurrences(values, m)
  }

  /** What the most-frequent computation with fallback `d` may return: `d` for no values,
      otherwise a mode. */
  ghost predicate IsMostCommon<T(!new)>(values: seq<T>, d: T, m: T) {
    if |values| == 0 then m == d else IsMode(values, m)
  }

  /** Counts, then takes a key of largest count; an empty collection gives `d`. */
  method MostCommon<T(==,!new)>(values: seq<T>, d: T) returns (m: T)
    ensures IsMostCommon(values, d, m)
  {
    var freq := Frequencies(values);
    var best := MaxByValue(freq);
    m := best.GetOr(d);
    if |values| == 0 {
      forall e ensures e !in freq {
        assert Count(freq, e) == Occurrences(values, e) == 0;
      }
      assert freq == map[];
    } else {
      assert Count(freq, values[0]) == Occurrences(values, values[0]) > 0;
      assert values[0] in freq;
      forall e ensures Occurrences(values, e) <= Occurrences(values, m) {
        assert Count(freq, e) == Occurrences(values, e);
      }
    }
  }

  /** When every value is `v`, the only mode is `v`. */
  lemma ModeOfUniform<T(!new)>(values: seq<T>, v: T, m: T)
    requires forall k :: 0 <= k < |values| ==> values[k] == v
    requires IsMode(values, m)
    ensures m == v
  {
    assert m in values;
  }
}
