/** Shared building blocks: an Option type for JavaScript's optional fields, the
    dictionary tally that several pages build with `dict[k] = (dict[k] || 0) + 1`
    inside a `forEach`, and an enumeration of a dictionary's entries in an
    unspecified order (the model of `Object.entries`, `Object.keys` and
    `Object.values`, whose order this model never promises). */
module Collections {

  datatype Option<T> = None | Some(value: T) {
    /** `x ?? default` */
    function GetOr(default: T): T {
      match this
      case Some(v) => v
      case None => default
    }
  }

  /** `(m[k] || 0)`: the current count of `k`, zero when absent. */
  function Count(m: map<string, nat>, k: string): (c: nat)
    ensures k in m ==> c == m[k]
    ensures k !in m ==> c == 0
  {
    if k in m then m[k] else 0
  }

  /** The dictionary `m` is exactly the tally of `keys`: its keys are the values
      that occur in `keys`, and each maps to its number of occurrences. */
  ghost predicate IsTallyOf(m: map<string, nat>, keys: seq<string>) {
    && (forall k :: k in m <==> k in keys)
    && (forall k :: k in m ==> m[k] == multiset(keys)[k])
  }

  /** One step of the tally: `m[k] = (m[k] || 0) + 1`. */
  function Bump(m: map<string, nat>, k: string): (m': map<string, nat>)
    ensures m'.Keys == m.Keys + {k}
    ensures m'[k] == Count(m, k) + 1
    ensures forall j :: j in m && j != k ==> m'[j] == m[j]
  {
    m[k := Count(m, k) + 1]
  }

  lemma BumpExtendsTally(m: map<string, nat>, keys: seq<string>, k: string)
    requires IsTallyOf(m, keys)
    ensures IsTallyOf(Bump(m, k), keys + [k])
  {
    assert multiset(keys + [k]) == multiset(keys) + multiset{k};
    forall j ensures j in Bump(m, k) <==> j in keys + [k] {
      assert j in keys + [k] <==> j in keys || j == k;
    }
  }

  /** The dictionary the tally loop builds from `keys`, one `Bump` per key, in order. */
  function TallyOf(keys: seq<string>): map<string, nat> {
    if keys == [] then map[]
    else Bump(TallyOf(keys[..|keys| - 1]), keys[|keys| - 1])
  }

  /** Tallying one more key bumps its bucket. */
  lemma TallyOfSnoc(keys: seq<string>, k: string)
    ensures TallyOf(keys + [k]) == Bump(TallyOf(keys), k)
  {
    assert (keys + [k])[..|keys|] == keys;
  }

  /** The tally loop: every key adds one to its own bucket. */
  method Tally(keys: seq<string>) returns (m: map<string, nat>)
    ensures m == TallyOf(keys)
    ensures IsTallyOf(m, keys)
    ensures forall k :: k in m ==> m[k] >= 1
    ensures MapSum(m) == |keys|
  {
    m := map[];
    var i := 0;
    while i < |keys|
      invariant 0 <= i <= |keys|
      invariant m == TallyOf(keys[..i])
    {
      assert keys[..i + 1][..i] == keys[..i];
      m := Bump(m, keys[i]);
      i := i + 1;
    }
    assert keys[..i] == keys;
    TallyOfCounts(keys);
    TallyOfSum(keys);
    forall k | k in m ensures m[k] >= 1 {
      assert k in multiset(keys);
    }
  }

  /** Every key counts its own occurrences. */
  lemma {:induction false} TallyOfCounts(keys: seq<string>)
    ensures IsTallyOf(TallyOf(keys), keys)
    decreases |keys|
  {
    if keys != [] {
      var front := keys[..|keys| - 1];
      TallyOfCounts(front);
      BumpExtendsTally(TallyOf(front), front, keys[|keys| - 1]);
      assert front + [keys[|keys| - 1]] == keys;
    }
  }

  /** The counts add up to the number of keys tallied. */
  lemma {:induction false} TallyOfSum(keys: seq<string>)
    ensures MapSum(TallyOf(keys)) == |keys|
    decreases |keys|
  {
    if keys != [] {
      var front := keys[..|keys| - 1];
      TallyOfSum(front);
      MapSumBump(TallyOf(front), keys[|keys| - 1]);
    }
  }

  /** The sum of all the counts of a dictionary, in no particular order. */
  ghost function MapSum<K>(m: map<K, nat>): nat
  {
    if m.Keys == {} then 0
    else
      var k :| k in m.Keys;
      m[k] + MapSum(m - {k})
  }

  /** Whichever key is taken out first, the sum is the same. */
  lemma {:induction false} MapSumRemove<K>(m: map<K, nat>, k: K)
    requires k in m
    ensures MapSum(m) == m[k] + MapSum(m - {k})
    decreases |m|
  {
    var j :| j in m.Keys && MapSum(m) == m[j] + MapSum(m - {j});
    if j != k {
      var mj := m - {j};
      var mk := m - {k};
      assert |mj| < |m| by { assert mj.Keys == m.Keys - {j}; }
      assert |mk| < |m| by { assert mk.Keys == m.Keys - {k}; }
      MapSumRemove(mj, k);
      MapSumRemove(mk, j);
      assert mj - {k} == mk - {j};
    }
  }

  lemma MapSumBump(m: map<string, nat>, k: string)
    ensures MapSum(Bump(m, k)) == MapSum(m) + 1
  {
    var m' := Bump(m, k);
    MapSumRemove(m', k);
    if k in m {
      MapSumRemove(m, k);
      assert m' - {k} == m - {k};
    } else {
      assert m' - {k} == m;
    }
  }

  /** Keys of a list of entries are pairwise different. */
  predicate DistinctKeys<K(==)>(es: seq<(K, nat)>) {
    forall i, j :: 0 <= i < j < |es| ==> es[i].0 != es[j].0
  }

  /** The listed keys, as a set. */
  function KeySet<K(==)>(es: seq<(K, nat)>): set<K> {
    set i | 0 <= i < |es| :: es[i].0
  }

  /** `es` lists every entry of `m` exactly once, in some order. */
  ghost predicate EnumeratesMap<K>(es: seq<(K, nat)>, m: map<K, nat>) {
    && DistinctKeys(es)
    && KeySet(es) == m.Keys
    && (forall i :: 0 <= i < |es| ==> es[i].1 == m[es[i].0])
  }

  lemma KeySetAppend<K>(es: seq<(K, nat)>, e: (K, nat))
    ensures KeySet(es + [e]) == KeySet(es) + {e.0}
  {
    var es' := es + [e];
    forall x | x in KeySet(es') ensures x in KeySet(es) + {e.0} {
      var i :| 0 <= i < |es'| && es'[i].0 == x;
      if i < |es| { assert es[i].0 == x; }
    }
    forall x | x in KeySet(es) ensures x in KeySet(es') {
      var i :| 0 <= i < |es| && es[i].0 == x;
      assert es'[i].0 == x;
    }
    assert es'[|es|].0 == e.0;
  }
  lemma DistinctAppend<K>(es: seq<(K, nat)>, e: (K, nat))
    requires DistinctKeys(es) && e.0 !in KeySet(es)
    ensures DistinctKeys(es + [e])
  {
    forall i | 0 <= i < |es| ensures es[i].0 != e.0 {
      assert es[i].0 in KeySet(es);
    }
  }
  /** Partway through listing `m`: `es` holds the entries of the keys already
      taken, once each, and `rest` the keys still to take. */
  ghost predicate ListedSoFar<K>(m: map<K, nat>, es: seq<(K, nat)>, rest: set<K>) {
    && rest == m.Keys - KeySet(es)
    && KeySet(es) <= m.Keys
    && DistinctKeys(es)
    && (forall i :: 0 <= i < |es| ==> es[i].0 in m && es[i].1 == m[es[i].0])
    && |es| + |rest| == |m.Keys|
  }

  /** Taking one more key keeps the listing consistent. */
  lemma ListedStep<K>(m: map<K, nat>, es: seq<(K, nat)>, rest: set<K>, k: K)
    requires ListedSoFar(m, es, rest) && k in rest
    ensures ListedSoFar(m, es + [(k, m[k])], rest - {k})
  {
    var e := (k, m[k]);
    KeySetAppend(es, e);
    DistinctAppend(es, e);
    var es' := es + [e];
    forall i | 0 <= i < |es'| ensures es'[i].0 in m && es'[i].1 == m[es'[i].0] {
      if i < |es| { assert es'[i] == es[i]; }
    }
  }

  /** `Object.entries(m)`: all entries, in an order this model leaves open. */
  method Entries<K(==)>(m: map<K, nat>) returns (es: seq<(K, nat)>)
    ensures EnumeratesMap(es, m)
    ensures |es| == |m|
  {
    es := [];
    var rest := m.Keys;
    while rest != {}
      invariant ListedSoFar(m, es, rest)
      decreases rest
    {
      var k :| k in rest;
      ListedStep(m, es, rest, k);
      es := es + [(k, m[k])];
      rest := rest - {k};
    }
    assert m.Keys - KeySet(es) == {};
  }

  /** The total of the counts shown, `Object.values(m)` added up. */
  function SumCounts(es: seq<(string, nat)>): nat {
    if es == [] then 0 else es[0].1 + SumCounts(es[1..])
  }

  lemma KeySetTail(es: seq<(string, nat)>)
    requires es != [] && DistinctKeys(es)
    ensures KeySet(es[1..]) == KeySet(es) - {es[0].0}
  {
    forall x | x in KeySet(es) - {es[0].0} ensures x in KeySet(es[1..]) {
      var i :| 0 <= i < |es| && es[i].0 == x;
      assert es[1..][i - 1].0 == x;
    }
    forall x | x in KeySet(es[1..]) ensures x in KeySet(es) - {es[0].0} {
      var i :| 0 <= i < |es[1..]| && es[1..][i].0 == x;
      assert es[i + 1].0 == x;
    }
  }

  /** Any listing of the dictionary adds up to the dictionary's sum. */
  lemma {:induction false} SumCountsOfEntries(es: seq<(string, nat)>, m: map<string, nat>)
    requires EnumeratesMap(es, m)
    ensures SumCounts(es) == MapSum(m)
    decreases |es|
  {
    if es != [] {
      var k := es[0].0;
      assert k in KeySet(es);
      var rest := m - {k};
      KeySetTail(es);
      assert EnumeratesMap(es[1..], rest) by {
        forall i | 0 <= i < |es[1..]| ensures es[1..][i].1 == rest[es[1..][i].0] {
          assert es[1..][i] == es[i + 1];
        }
      }
      SumCountsOfEntries(es[1..], rest);
      MapSumRemove(m, k);
    }
  }

  /** Entries listing a tally add up to the number of keys tallied. */
  lemma EntriesOfTallySum(es: seq<(string, nat)>, keys: seq<string>)
    requires EnumeratesMap(es, TallyOf(keys))
    ensures SumCounts(es) == |keys|
  {
    SumCountsOfEntries(es, TallyOf(keys));
    TallyOfSum(keys);
  }

  /** One particular listing of a dictionary's entries, for stating what the
      pages compute independently of the order `Object.entries` picks. */
  ghost function ListingOf(m: map<string, nat>): seq<(string, nat)>
    decreases |m|
  {
    if m.Keys == {} then []
    else
      var k :| k in m.Keys;
      assert |m - {k}| < |m| by { assert (m - {k}).Keys == m.Keys - {k}; }
      [(k, m[k])] + ListingOf(m - {k})
  }

  lemma {:induction false} ListingOfEnumerates(m: map<string, nat>)
    ensures EnumeratesMap(ListingOf(m), m)
    decreases |m|
  {
    if m.Keys != {} {
      var k :| k in m.Keys && ListingOf(m) == [(k, m[k])] + ListingOf(m - {k});
      var rest := m - {k};
      assert |rest| < |m| by { assert rest.Keys == m.Keys - {k}; }
      ListingOfEnumerates(rest);
      EnumeratesPrepend(ListingOf(rest), m, k);
    }
  }

  lemma EnumeratesPrepend(tail: seq<(string, nat)>, m: map<string, nat>, k: string)
    requires k in m && EnumeratesMap(tail, m - {k})
    ensures EnumeratesMap([(k, m[k])] + tail, m)
  {
    var es := [(k, m[k])] + tail;
    assert KeySet(es) == KeySet(tail) + {k} by {
      KeySetCons((k, m[k]), tail);
    }
    assert (m - {k}).Keys == m.Keys - {k};
    forall i, j | 0 <= i < j < |es| ensures es[i].0 != es[j].0 {
      assert es[j] == tail[j - 1];
      if i == 0 {
        assert tail[j - 1].0 in KeySet(tail);
      } else {
        assert es[i] == tail[i - 1];
      }
    }
    forall i | 0 <= i < |es| ensures es[i].1 == m[es[i].0] {
      if i > 0 {
        assert es[i] == tail[i - 1];
        assert tail[i - 1].0 in KeySet(tail);
      }
    }
  }

  lemma KeySetCons(e: (string, nat), es: seq<(string, nat)>)
    ensures KeySet([e] + es) == KeySet(es) + {e.0}
  {
    var es' := [e] + es;
    forall x | x in KeySet(es') ensures x in KeySet(es) + {e.0} {
      var i :| 0 <= i < |es'| && es'[i].0 == x;
      if i > 0 { assert es[i - 1].0 == x; }
    }
    forall x | x in KeySet(es) ensures x in KeySet(es') {
      var i :| 0 <= i < |es| && es[i].0 == x;
      assert es'[i + 1].0 == x;
    }
    assert es'[0].0 == e.0;
  }

  lemma DistinctTail(es: seq<(string, nat)>)
    requires es != [] && DistinctKeys(es)
    ensures DistinctKeys(es[1..])
  {
    forall i, j | 0 <= i < j < |es[1..]| ensures es[1..][i].0 != es[1..][j].0 {
      assert es[1..][i] == es[i + 1] && es[1..][j] == es[j + 1];
    }
  }

  /** A listing of distinct keys has as many entries as keys. */
  lemma {:induction false} DistinctKeySetSize(es: seq<(string, nat)>)
    requires DistinctKeys(es)
    ensures |KeySet(es)| == |es|
  {
    if es != [] {
      DistinctTail(es);
      KeySetTail(es);
      DistinctKeySetSize(es[1..]);
      assert es[0].0 in KeySet(es);
    }
  }

  /** A listing of a dictionary has one entry per key. */
  lemma EnumerationSize(es: seq<(string, nat)>, m: map<string, nat>)
    requires EnumeratesMap(es, m)
    ensures |es| == |m|
  {
    DistinctKeySetSize(es);
  }
}
