/** Python's insertion-ordered dictionaries, written to by key, and
    str.lower(), as the material code and the writer use them. */
module Dicts {
  import opened Definitions

  // ---------------------------------------------------------------------
  // str.lower() on the ASCII letters

  function LowerChar(c: char): char {
    if 'A' <= c <= 'Z' then (c as int + 32) as char else c
  }

  function Lower(s: string): string {
    seq(|s|, i requires 0 <= i < |s| => LowerChar(s[i]))
  }

  /** Lower-casing twice is lower-casing once, so a lower-cased request
      finds what the original found. */
  lemma LowerIdempotent(s: string)
    ensures Lower(Lower(s)) == Lower(s)
  {
  }

  // ---------------------------------------------------------------------
  // Dictionary writes: d[key] = value on an insertion-ordered dictionary

  /** d[key] = value: an existing key keeps its place, a new key goes last. */
  function SetKey(entries: seq<(string, Value)>, key: string, value: Value): (r: seq<(string, Value)>)
    ensures Get(r, key) == value
    ensures forall k :: k != key ==> Get(r, k) == Get(entries, k)
    ensures forall k :: HasKey(r, k) <==> HasKey(entries, k) || k == key
  {
    if |entries| == 0 then [(key, value)]
    else if entries[0].0 == key then
      HasKeyCons(entries[0], entries[1..]);
      HasKeyCons((key, value), entries[1..]);
      assert entries == [entries[0]] + entries[1..];
      [(key, value)] + entries[1..]
    else
      var rest := SetKey(entries[1..], key, value);
      HasKeyCons(entries[0], entries[1..]);
      HasKeyCons(entries[0], rest);
      assert entries == [entries[0]] + entries[1..];
      [entries[0]] + rest
  }

  lemma HasKeyCons(e: (string, Value), rest: seq<(string, Value)>)
    ensures forall k :: HasKey([e] + rest, k) <==> e.0 == k || HasKey(rest, k)
    ensures forall k :: e.0 != k ==> Get([e] + rest, k) == Get(rest, k)
  {
    assert ([e] + rest)[0].0 == e.0;
    forall k | HasKey([e] + rest, k) && e.0 != k
      ensures HasKey(rest, k)
    {
      var i :| 0 <= i < |[e] + rest| && ([e] + rest)[i].0 == k;
      assert rest[i - 1].0 == k;
    }
    forall k | HasKey(rest, k)
      ensures HasKey([e] + rest, k)
    {
      var i :| 0 <= i < |rest| && rest[i].0 == k;
      assert ([e] + rest)[i + 1].0 == k;
    }
    forall k | e.0 != k
      ensures Get([e] + rest, k) == Get(rest, k)
    {
      assert ([e] + rest)[1..] == rest;
    }
  }

  /** for key, value in props.items(): d[key] = value */
  function SetAll(entries: seq<(string, Value)>, props: seq<(string, Value)>): seq<(string, Value)> {
    if |props| == 0 then entries
    else
      var last := props[|props| - 1];
      SetKey(SetAll(entries, props[..|props| - 1]), last.0, last.1)
  }

  /** A Python dictionary holds each key once. */
  predicate DistinctKeys(entries: seq<(string, Value)>) {
    forall i, j :: 0 <= i < j < |entries| ==> entries[i].0 != entries[j].0
  }

  /** After copying props into a dictionary, every key of props holds the
      value props gives it and every other key keeps its value. */
  lemma {:induction false} SetAllGet(entries: seq<(string, Value)>, props: seq<(string, Value)>, k: string)
    requires DistinctKeys(props)
    ensures Get(SetAll(entries, props), k) == if HasKey(props, k) then Get(props, k) else Get(entries, k)
  {
    if |props| > 0 {
      var init, last := props[..|props| - 1], props[|props| - 1];
      assert props == init + [last];
      SetAllGet(entries, init, k);
      GetAppend(init, last, k);
      if k == last.0 {
        forall i | 0 <= i < |init|
          ensures init[i].0 != k
        {
          assert props[i].0 != props[|props| - 1].0;
        }
      }
    }
  }

  /** Looking a key up in a dictionary with one entry appended. */
  lemma {:induction false} GetAppend(init: seq<(string, Value)>, last: (string, Value), k: string)
    ensures HasKey(init + [last], k) <==> HasKey(init, k) || last.0 == k
    ensures Get(init + [last], k) ==
      if HasKey(init, k) then Get(init, k) else if last.0 == k then last.1 else VNone
  {
    if |init| == 0 {
      assert init + [last] == [last];
      assert [last][0].0 == last.0;
    } else {
      assert init + [last] == [init[0]] + (init[1..] + [last]);
      GetAppend(init[1..], last, k);
      HasKeyCons(init[0], init[1..] + [last]);
      HasKeyCons(init[0], init[1..]);
      assert init == [init[0]] + init[1..];
    }
  }

  // ---------------------------------------------------------------------
  // First occurrences in order

  /** The keys of an insertion-ordered dictionary, in order. */
  function Keys<K, V>(d: seq<(K, V)>): (r: seq<K>)
    ensures |r| == |d| && forall i :: 0 <= i < |d| ==> r[i] == d[i].0
  {
    seq(|d|, i requires 0 <= i < |d| => d[i].0)
  }

  /** `d[name] = value` for a value a repeated name already holds: the
      dictionary is unchanged, or gains the name at the end. */
  function Put<V>(d: seq<(string, V)>, name: string, value: V): seq<(string, V)> {
    if name in Keys(d) then d else d + [(name, value)]
  }

  /** Order-preserving removal of repeated elements, as a `seen` set or the
      keys of a dictionary built in order give: an element is kept the
      first time it is seen. */
  function Dedup<T(==)>(s: seq<T>): seq<T> {
    if |s| == 0 then []
    else
      var d := Dedup(s[..|s| - 1]);
      if s[|s| - 1] in d then d else d + [s[|s| - 1]]
  }

  /** No element occurs twice in the result. */
  lemma {:induction false} DedupNoDuplicates<T>(s: seq<T>)
    ensures forall i, j :: 0 <= i < j < |Dedup(s)| ==> Dedup(s)[i] != Dedup(s)[j]
  {
    if |s| > 0 {
      DedupNoDuplicates(s[..|s| - 1]);
    }
  }

  /** The result holds exactly the elements of the input. */
  lemma {:induction false} DedupSameElements<T>(s: seq<T>)
    ensures forall x :: x in Dedup(s) <==> x in s
  {
    if |s| > 0 {
      var t := s[..|s| - 1];
      DedupSameElements(t);
      assert s == t + [s[|s| - 1]];
    }
  }

  /** Elements keep the order of their first occurrence: deduplicating any
      prefix of the input gives a prefix of the result. */
  lemma {:induction false} DedupPrefix<T>(s: seq<T>, k: nat)
    requires k <= |s|
    ensures Dedup(s[..k]) <= Dedup(s)
  {
    if k < |s| {
      var t := s[..|s| - 1];
      assert t[..k] == s[..k];
      DedupPrefix(t, k);
    } else {
      assert s[..k] == s;
    }
  }

  /** Order-preserving removal of repeats under a key, as a `seen` set
      holding each kept element's key gives: an element is kept unless an
      element with the same key was kept before it. */
  function DedupBy<T, K(==)>(key: T -> K, s: seq<T>): (r: seq<T>)
    ensures forall x :: x in r ==> x in s
  {
    if |s| == 0 then []
    else
      var d := DedupBy(key, s[..|s| - 1]);
      if exists k :: 0 <= k < |d| && key(d[k]) == key(s[|s| - 1]) then d else d + [s[|s| - 1]]
  }

  /** No two kept elements share a key. */
  lemma {:induction false} DedupByDistinct<T, K>(key: T -> K, s: seq<T>)
    ensures forall i, j :: 0 <= i < j < |DedupBy(key, s)| ==> key(DedupBy(key, s)[i]) != key(DedupBy(key, s)[j])
  {
    if |s| > 0 {
      DedupByDistinct(key, s[..|s| - 1]);
    }
  }

  /** Every element of the input shares its key with a kept element. */
  lemma {:induction false} DedupByCovers<T, K>(key: T -> K, s: seq<T>, x: T)
    requires x in s
    ensures exists k :: 0 <= k < |DedupBy(key, s)| && key(DedupBy(key, s)[k]) == key(x)
  {
    var init, last := s[..|s| - 1], s[|s| - 1];
    var d := DedupBy(key, init);
    var r := DedupBy(key, s);
    assert s == init + [last];
    if x in init {
      DedupByCovers(key, init, x);
      var k :| 0 <= k < |d| && key(d[k]) == key(x);
      assert r[k] == d[k];
    } else if r != d {
      assert r[|d|] == x;
    }
  }
}
