/**
 * A Python dict from category name to a list, as the merge loops build it:
 * `keys` is the dict's insertion order (the order `.items()` yields), `lists` its contents.
 */
module OrderedDict {
  import opened Seqs

  datatype Dict<V> = Dict(keys: seq<string>, lists: map<string, seq<V>>)

  predicate Distinct(s: seq<string>) {
    forall i, j :: 0 <= i < j < |s| ==> s[i] != s[j]
  }

  /** The insertion order lists every key exactly once. */
  ghost predicate Valid<V>(d: Dict<V>) {
    Distinct(d.keys) && forall k :: k in d.lists <==> k in d.keys
  }

  function Empty<V>(): (d: Dict<V>)
    ensures Valid(d) && d.keys == []
  {
    Dict([], map[])
  }

  /** The list stored under `c`, or `[]` when `c` is not a key. */
  function Get<V>(d: Dict<V>, c: string): seq<V> {
    if c in d.lists then d.lists[c] else []
  }

  /** `if c not in d: d[c] = []`. */
  function EnsureKey<V>(d: Dict<V>, c: string): (r: Dict<V>)
    ensures Valid(d) ==> Valid(r)
    ensures r.lists.Keys == d.lists.Keys + {c}
    ensures r.keys == if c in d.lists then d.keys else d.keys + [c]
    ensures forall k :: Get(r, k) == Get(d, k)
  {
    if c in d.lists then d else Dict(d.keys + [c], d.lists[c := []])
  }

  /** `if c not in d: d[c] = []` followed by `d[c].append(v)`. */
  function Append<V>(d: Dict<V>, c: string, v: V): (r: Dict<V>)
    ensures Valid(d) ==> Valid(r)
    ensures r.keys == if c in d.lists then d.keys else d.keys + [c]
    ensures r.lists.Keys == d.lists.Keys + {c}
    ensures Get(r, c) == Get(d, c) + [v]
    ensures forall k :: k != c ==> Get(r, k) == Get(d, k)
  {
    var e := EnsureKey(d, c);
    e.(lists := e.lists[c := e.lists[c] + [v]])
  }

  /** `v` appended under each of `cs`, in order. */
  function AppendAll<V>(d: Dict<V>, cs: seq<string>, v: V): Dict<V> {
    if cs == [] then d else Append(AppendAll(d, cs[..|cs| - 1], v), cs[|cs| - 1], v)
  }

  /** How often `c` occurs in `cs`. */
  function Count(cs: seq<string>, c: string): nat {
    if cs == [] then 0 else Count(cs[..|cs| - 1], c) + if cs[|cs| - 1] == c then 1 else 0
  }

  function Repeat<V>(v: V, n: nat): (r: seq<V>)
    ensures |r| == n && forall i :: 0 <= i < n ==> r[i] == v
  {
    seq(n, _ => v)
  }

  lemma CountPositive(cs: seq<string>, c: string)
    ensures Count(cs, c) > 0 <==> c in cs
  {
    if cs != [] {
      CountPositive(cs[..|cs| - 1], c);
      assert cs == cs[..|cs| - 1] + [cs[|cs| - 1]];
    }
  }

  /** Appending under each of `cs` adds `v` to the list of `c` once per occurrence of `c`. */
  lemma {:induction false} GetAppendAll<V>(d: Dict<V>, cs: seq<string>, v: V, c: string)
    ensures Get(AppendAll(d, cs, v), c) == Get(d, c) + Repeat(v, Count(cs, c))
  {
    if cs != [] {
      GetAppendAll(d, cs[..|cs| - 1], v, c);
      var n := Count(cs[..|cs| - 1], c);
      if cs[|cs| - 1] == c {
        assert Repeat(v, n) + [v] == Repeat(v, n + 1);
      }
    } else {
      assert Repeat(v, 0) == [];
    }
  }

  /** Appending keeps the dict well formed; its keys are the old ones and `cs`. */
  lemma {:induction false} AppendAllKeys<V>(d: Dict<V>, cs: seq<string>, v: V)
    requires Valid(d)
    ensures Valid(AppendAll(d, cs, v))
    ensures forall c :: c in AppendAll(d, cs, v).lists <==> c in d.lists || c in cs
  {
    if cs != [] {
      var init, c := cs[..|cs| - 1], cs[|cs| - 1];
      AppendAllKeys(d, init, v);
      var prev := AppendAll(d, init, v);
      assert AppendAll(d, cs, v) == Append(prev, c, v);
      forall k
        ensures k in AppendAll(d, cs, v).lists <==> k in d.lists || k in cs
      {
        MemberSnoc(cs, k);
      }
    }
  }

  /** `ks` followed by the members of `cs` it lacks, in the order they first occur in `cs`. */
  function WithFirstOccurrences(ks: seq<string>, cs: seq<string>): seq<string> {
    if cs == [] then ks
    else
      var prev := WithFirstOccurrences(ks, cs[..|cs| - 1]);
      if cs[|cs| - 1] in prev then prev else prev + [cs[|cs| - 1]]
  }

  /** Keys are created on first use: the dict's order is the old keys, then new ones as first met. */
  lemma {:induction false} AppendAllKeyOrder<V>(d: Dict<V>, cs: seq<string>, v: V)
    requires Valid(d)
    ensures AppendAll(d, cs, v).keys == WithFirstOccurrences(d.keys, cs)
  {
    if cs != [] {
      AppendAllKeyOrder(d, cs[..|cs| - 1], v);
      AppendAllKeys(d, cs[..|cs| - 1], v);
    }
  }

  /** Collecting first occurrences over two runs of names is collecting them over the first, then the second. */
  lemma {:induction false} FirstOccAppend(ks: seq<string>, a: seq<string>, b: seq<string>)
    ensures WithFirstOccurrences(ks, a + b) == WithFirstOccurrences(WithFirstOccurrences(ks, a), b)
  {
    if b == [] {
      assert a + b == a;
    } else {
      FirstOccAppend(ks, a, b[..|b| - 1]);
      assert (a + b)[..|a + b| - 1] == a + b[..|b| - 1];
    }
  }

  /** The sizes of the lists under `ks`, summed. */
  function SizeOver<V>(ks: seq<string>, d: Dict<V>): nat {
    if ks == [] then 0 else SizeOver(ks[..|ks| - 1], d) + |Get(d, ks[|ks| - 1])|
  }

  /** The number of values stored in the whole dict. */
  function TotalSize<V>(d: Dict<V>): nat {
    SizeOver(d.keys, d)
  }

  lemma {:induction false} SizeOverSame<V>(ks: seq<string>, d: Dict<V>, e: Dict<V>)
    requires forall k :: k in ks ==> Get(d, k) == Get(e, k)
    ensures SizeOver(ks, d) == SizeOver(ks, e)
  {
    if ks != [] {
      SizeOverSame(ks[..|ks| - 1], d, e);
    }
  }

  lemma {:induction false} SizeOverBump<V>(ks: seq<string>, d: Dict<V>, e: Dict<V>, c: string)
    requires Distinct(ks) && c in ks
    requires |Get(e, c)| == |Get(d, c)| + 1
    requires forall k :: k != c ==> Get(d, k) == Get(e, k)
    ensures SizeOver(ks, e) == SizeOver(ks, d) + 1
  {
    var init := ks[..|ks| - 1];
    if ks[|ks| - 1] == c {
      assert c !in init;
      SizeOverSame(init, d, e);
    } else {
      assert ks == init + [ks[|ks| - 1]];
      SizeOverBump(init, d, e, c);
    }
  }

  /** Each append stores exactly one more value. */
  lemma TotalSizeAppend<V>(d: Dict<V>, c: string, v: V)
    requires Valid(d)
    ensures TotalSize(Append(d, c, v)) == TotalSize(d) + 1
  {
    var r := Append(d, c, v);
    if c in d.lists {
      SizeOverBump(d.keys, d, r, c);
    } else {
      assert r.keys[..|r.keys| - 1] == d.keys;
      SizeOverSame(d.keys, d, r);
    }
  }

  /** Creating an empty list stores nothing. */
  lemma TotalSizeEnsureKey<V>(d: Dict<V>, c: string)
    requires Valid(d)
    ensures TotalSize(EnsureKey(d, c)) == TotalSize(d)
  {
    var r := EnsureKey(d, c);
    if c !in d.lists {
      assert r.keys[..|r.keys| - 1] == d.keys;
    }
    SizeOverSame(d.keys, d, r);
  }

  /** Appending under each of `cs` stores `|cs|` more values. */
  lemma {:induction false} TotalSizeAppendAll<V>(d: Dict<V>, cs: seq<string>, v: V)
    requires Valid(d)
    ensures TotalSize(AppendAll(d, cs, v)) == TotalSize(d) + |cs|
  {
    if cs != [] {
      TotalSizeAppendAll(d, cs[..|cs| - 1], v);
      AppendAllKeys(d, cs[..|cs| - 1], v);
      TotalSizeAppend(AppendAll(d, cs[..|cs| - 1], v), cs[|cs| - 1], v);
    }
  }
}
