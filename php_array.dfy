/** PHP arrays: ordered maps whose keys are ints or strings, and the array
    built-ins the client uses on them (`$a[k] = v`, `$a[] = v`, `array_merge`,
    `array_merge_recursive`). An array is a sequence of key/value pairs in
    insertion order; PHP never holds a key twice (`DistinctKeys`). */
module PhpArray {
  import opened PhpString

  datatype Key = IntKey(n: int) | StrKey(s: string)

  /** Keys PHP can hold: a 64-bit int, or a string that is not a canonical
      integer (those are stored as ints). */
  predicate ValidKey(k: Key) {
    match k
    case IntKey(n) => IntMin <= n <= IntMax
    case StrKey(s) => CanonicalInt(s).None?
  }

  /** The key PHP stores for the string `s`: `"5"` becomes 5, `"05"` stays a string. */
  function NormalizeKey(s: string): (k: Key)
    ensures ValidKey(k)
  {
    match CanonicalInt(s)
    case Some(n) => IntKey(n)
    case None => StrKey(s)
  }

  /** A key as a string (`"{$k}"`). */
  function KeyString(k: Key): string {
    match k
    case IntKey(n) => Decimal(n)
    case StrKey(s) => s
  }

  /** Normalising loses nothing: the key prints back as the string it came from. */
  lemma KeyStringNormalize(s: string)
    ensures KeyString(NormalizeKey(s)) == s
  {
    if CanonicalInt(s).Some? {
      DecimalCanonicalInt(s);
    }
  }

  /** A valid key is the normalisation of its own text. */
  lemma NormalizeKeyString(k: Key)
    requires ValidKey(k)
    ensures NormalizeKey(KeyString(k)) == k
  {
    if k.IntKey? {
      CanonicalIntDecimal(k.n);
    }
  }

  predicate DistinctKeys<V>(a: seq<(Key, V)>) {
    forall i, j :: 0 <= i < j < |a| ==> a[i].0 != a[j].0
  }

  function KeysOf<V>(a: seq<(Key, V)>): (ks: seq<Key>)
    ensures |ks| == |a| && forall i :: 0 <= i < |a| ==> ks[i] == a[i].0
  {
    if a == [] then [] else [a[0].0] + KeysOf(a[1..])
  }

  /** The position of key `k`, if present. */
  function Find<V>(a: seq<(Key, V)>, k: Key): (r: Option<nat>)
    ensures r.Some? ==> r.value < |a| && a[r.value].0 == k
    ensures r.Some? ==> forall j :: 0 <= j < r.value ==> a[j].0 != k
    ensures r.None? ==> forall j :: 0 <= j < |a| ==> a[j].0 != k
  {
    if a == [] then None
    else if a[0].0 == k then Some(0)
    else match Find(a[1..], k)
      case None => None
      case Some(i) => Some(i + 1)
  }

  /** `array_key_exists(k, a)`. */
  predicate HasKey<V>(a: seq<(Key, V)>, k: Key) {
    Find(a, k).Some?
  }

  /** `$a[k] ?? null`. */
  function Get<V>(a: seq<(Key, V)>, k: Key): (r: Option<V>)
    ensures r.Some? <==> HasKey(a, k)
  {
    match Find(a, k)
    case None => None
    case Some(i) => Some(a[i].1)
  }

  /** In an array with distinct keys, each key holds the value beside it. */
  lemma GetAt<V>(a: seq<(Key, V)>, i: nat)
    requires DistinctKeys(a) && i < |a|
    ensures Get(a, a[i].0) == Some(a[i].1)
  {
    var r := Find(a, a[i].0);
    assert r.Some?;
    assert r.value == i;
  }

  lemma FindSameKeys<V>(a: seq<(Key, V)>, b: seq<(Key, V)>, k: Key)
    requires |a| == |b| && forall i :: 0 <= i < |a| ==> a[i].0 == b[i].0
    ensures Find(a, k) == Find(b, k)
  {
  }

  lemma {:induction false} FindConcat<V>(x: seq<(Key, V)>, y: seq<(Key, V)>, k: Key)
    ensures Find(x + y, k) == if HasKey(x, k) then Find(x, k)
                              else match Find(y, k) case None => None case Some(j) => Some(|x| + j)
  {
    if x == [] {
      assert x + y == y;
    } else if x[0].0 != k {
      FindConcat(x[1..], y, k);
      assert (x + y)[1..] == x[1..] + y;
    }
  }

  lemma FindAppend<V>(a: seq<(Key, V)>, e: (Key, V), k: Key)
    ensures Find(a + [e], k) == if HasKey(a, k) then Find(a, k) else if e.0 == k then Some(|a|) else None
  {
    FindConcat(a, [e], k);
  }

  lemma GetAppend<V>(a: seq<(Key, V)>, e: (Key, V), k: Key)
    ensures Get(a + [e], k) == if HasKey(a, k) then Get(a, k) else if e.0 == k then Some(e.1) else None
  {
    FindAppend(a, e, k);
  }

  /** `$a[k] = v`: an existing key keeps its position, a new one goes last. */
  function Put<V>(a: seq<(Key, V)>, k: Key, v: V): (r: seq<(Key, V)>)
    ensures HasKey(a, k) ==> |r| == |a| && r == a[Find(a, k).value := (k, v)]
    ensures !HasKey(a, k) ==> r == a + [(k, v)]
  {
    match Find(a, k)
    case Some(i) => a[i := (k, v)]
    case None => a + [(k, v)]
  }

  /** After `$a[k] = v`, `k` holds `v` and every other key what it held before. */
  lemma GetPut<V>(a: seq<(Key, V)>, k: Key, v: V, k': Key)
    ensures Get(Put(a, k, v), k') == if k' == k then Some(v) else Get(a, k')
  {
    if HasKey(a, k) {
      FindSameKeys(a, Put(a, k, v), k');
    } else {
      GetAppend(a, (k, v), k');
    }
  }

  lemma PutDistinct<V>(a: seq<(Key, V)>, k: Key, v: V)
    requires DistinctKeys(a)
    ensures DistinctKeys(Put(a, k, v))
  {
  }

  /** `$a[$key] = $value` for each entry of `entries` in turn. */
  function PutAll<V>(acc: seq<(Key, V)>, entries: seq<(Key, V)>): seq<(Key, V)>
    decreases |entries|
  {
    if entries == [] then acc else PutAll(Put(acc, entries[0].0, entries[0].1), entries[1..])
  }

  /** Assigning the entries of a PHP array one by one rebuilds that array. */
  lemma PutAllArray<V>(entries: seq<(Key, V)>)
    requires DistinctKeys(entries)
    ensures PutAll([], entries) == entries
  {
    PutAllFrom(entries, 0);
    assert entries[..0] == [] && entries[0..] == entries;
  }

  lemma {:induction false} PutAllFrom<V>(entries: seq<(Key, V)>, i: nat)
    requires DistinctKeys(entries) && i <= |entries|
    ensures PutAll(entries[..i], entries[i..]) == entries
    decreases |entries| - i
  {
    if i == |entries| {
      assert entries[..i] == entries && entries[i..] == [];
    } else {
      assert !HasKey(entries[..i], entries[i].0);
      assert Put(entries[..i], entries[i].0, entries[i].1) == entries[..i + 1];
      assert entries[i..][1..] == entries[i + 1..];
      PutAllFrom(entries, i + 1);
    }
  }

  /** Whatever is assigned, the result holds every key once. */
  lemma {:induction false} PutAllDistinct<V>(acc: seq<(Key, V)>, entries: seq<(Key, V)>)
    requires DistinctKeys(acc)
    ensures DistinctKeys(PutAll(acc, entries))
    decreases |entries|
  {
    if entries != [] {
      PutDistinct(acc, entries[0].0, entries[0].1);
      PutAllDistinct(Put(acc, entries[0].0, entries[0].1), entries[1..]);
    }
  }

  /** After every entry of an array is assigned, the array's keys hold its
      values and every other key what it held before. */
  lemma {:induction false} PutAllGet<V>(acc: seq<(Key, V)>, entries: seq<(Key, V)>, k: Key)
    requires DistinctKeys(entries)
    ensures Get(PutAll(acc, entries), k) == if HasKey(entries, k) then Get(entries, k) else Get(acc, k)
    decreases |entries|
  {
    if entries != [] {
      var e := entries[0];
      var tail := entries[1..];
      PutAllGet(Put(acc, e.0, e.1), tail, k);
      GetPut(acc, e.0, e.1, k);
      if e.0 == k {
        assert forall j :: 0 <= j < |tail| ==> tail[j].0 != k by {
          forall j | 0 <= j < |tail| ensures tail[j].0 != k {
            assert tail[j] == entries[j + 1];
          }
        }
      }
    }
  }

  /** PHP's next free integer key: one more than the largest int key, and at
      least 0. */
  function NextIndex<V>(a: seq<(Key, V)>): (n: int)
    ensures n >= 0
    ensures forall i :: 0 <= i < |a| && a[i].0.IntKey? ==> a[i].0.n < n
  {
    if a == [] then 0
    else
      var m := NextIndex(a[..|a| - 1]);
      var k := a[|a| - 1].0;
      if k.IntKey? && k.n >= m then k.n + 1 else m
  }

  /** `$a[] = v`. */
  function Push<V>(a: seq<(Key, V)>, v: V): (r: seq<(Key, V)>)
    ensures |r| == |a| + 1 && r[..|a|] == a && r[|a|].1 == v
    ensures r[|a|].0.IntKey? && !HasKey(a, r[|a|].0)
    ensures DistinctKeys(a) ==> DistinctKeys(r)
  {
    a + [(IntKey(NextIndex(a)), v)]
  }

  lemma GetPush<V>(a: seq<(Key, V)>, v: V, k: Key)
    requires k.StrKey?
    ensures Get(Push(a, v), k) == Get(a, k)
  {
    GetAppend(a, (IntKey(NextIndex(a)), v), k);
  }

  /** The first operand of `array_merge`: string keys kept, int keys renumbered
      from `next` in order. */
  function RenumberFrom<V>(a: seq<(Key, V)>, next: int): (r: seq<(Key, V)>)
    ensures |r| == |a|
    ensures forall i :: 0 <= i < |a| ==> r[i].1 == a[i].1
    ensures forall i :: 0 <= i < |a| && a[i].0.StrKey? ==> r[i].0 == a[i].0
    ensures forall i :: 0 <= i < |a| && a[i].0.IntKey? ==> r[i].0.IntKey? && r[i].0.n >= next
  {
    if a == [] then []
    else if a[0].0.IntKey? then [(IntKey(next), a[0].1)] + RenumberFrom(a[1..], next + 1)
    else [a[0]] + RenumberFrom(a[1..], next)
  }

  function Renumber<V>(a: seq<(Key, V)>): seq<(Key, V)> {
    RenumberFrom(a, 0)
  }

  lemma {:induction false} RenumberFromDistinct<V>(a: seq<(Key, V)>, next: int)
    requires DistinctKeys(a)
    ensures DistinctKeys(RenumberFrom(a, next))
  {
    if a != [] {
      RenumberFromDistinct(a[1..], if a[0].0.IntKey? then next + 1 else next);
      var r := RenumberFrom(a, next);
      forall i, j | 0 <= i < j < |r| ensures r[i].0 != r[j].0 {
        if i == 0 && a[0].0.StrKey? {
          assert a[j].0 != a[0].0;
        }
      }
    }
  }

  /** Renumbering leaves the string keys where they were, with their values. */
  lemma GetRenumberFrom<V>(a: seq<(Key, V)>, next: int, k: Key)
    requires k.StrKey?
    ensures Get(RenumberFrom(a, next), k) == Get(a, k)
  {
    FindRenumberFrom(a, next, k);
  }

  /** A string key sits at the same place once the array is renumbered. */
  lemma {:induction false} FindRenumberFrom<V>(a: seq<(Key, V)>, next: int, k: Key)
    requires k.StrKey?
    ensures Find(RenumberFrom(a, next), k) == Find(a, k)
  {
    if a != [] {
      var r := RenumberFrom(a, next);
      var n := if a[0].0.IntKey? then next + 1 else next;
      var r0 := if a[0].0.IntKey? then (IntKey(next), a[0].1) else a[0];
      assert r == [r0] + RenumberFrom(a[1..], n);
      assert r[1..] == RenumberFrom(a[1..], n);
      if a[0].0 != k {
        FindRenumberFrom(a[1..], n, k);
        assert r[0].0 != k;
      }
    }
  }

  predicate AllStrKeys<V>(a: seq<(Key, V)>) {
    forall i :: 0 <= i < |a| ==> a[i].0.StrKey?
  }

  lemma {:induction false} RenumberStrKeys<V>(a: seq<(Key, V)>, next: int)
    requires AllStrKeys(a)
    ensures RenumberFrom(a, next) == a
  {
    if a != [] {
      RenumberStrKeys(a[1..], next);
    }
  }

  predicate AllIntKeys<V>(a: seq<(Key, V)>) {
    forall i :: 0 <= i < |a| ==> a[i].0.IntKey?
  }

  function Values<V>(a: seq<(Key, V)>): (vs: seq<V>)
    ensures |vs| == |a| && forall i :: 0 <= i < |a| ==> vs[i] == a[i].1
  {
    seq(|a|, i requires 0 <= i < |a| => a[i].1)
  }

  /** A PHP list: the values `vs` under the keys `n`, `n + 1`, ... */
  function ListFrom<V>(vs: seq<V>, n: int): (a: seq<(Key, V)>)
    ensures |a| == |vs| && forall i :: 0 <= i < |vs| ==> a[i] == (IntKey(n + i), vs[i])
  {
    seq(|vs|, i requires 0 <= i < |vs| => (IntKey(n + i), vs[i]))
  }

  function ListOf<V>(vs: seq<V>): seq<(Key, V)> {
    ListFrom(vs, 0)
  }

  /** Renumbering an int-keyed array turns it into a list of its values. */
  lemma {:induction false} RenumberInts<V>(a: seq<(Key, V)>, next: int)
    requires AllIntKeys(a)
    ensures RenumberFrom(a, next) == ListFrom(Values(a), next)
  {
    if a != [] {
      assert a[0].0.IntKey?;
      assert AllIntKeys(a[1..]) by {
        forall i | 0 <= i < |a| - 1 ensures a[1..][i].0.IntKey? {
          assert a[1..][i] == a[i + 1];
        }
      }
      RenumberInts(a[1..], next + 1);
      assert Values(a[1..]) == Values(a)[1..];
      ListFromCons(Values(a), next);
    }
  }

  lemma ListFromCons<V>(vs: seq<V>, n: int)
    requires vs != []
    ensures ListFrom(vs, n) == [(IntKey(n), vs[0])] + ListFrom(vs[1..], n + 1)
  {
  }

  lemma {:induction false} NextIndexList<V>(vs: seq<V>)
    ensures NextIndex(ListOf(vs)) == |vs|
  {
    if vs != [] {
      NextIndexList(vs[..|vs| - 1]);
      assert ListOf(vs)[..|vs| - 1] == ListOf(vs[..|vs| - 1]);
    }
  }

  // ---------------------------------------------------------------------------
  // array_merge and array_merge_recursive

  /** The loop both merges run over their second operand: a string key already
      present gets `f(old, new)` in place, a new string key is appended, and an
      int key is appended under the next free index. */
  function MergeWith<V>(d: seq<(Key, V)>, b: seq<(Key, V)>, f: (V, V) -> V): seq<(Key, V)>
    decreases |b|
  {
    if b == [] then d
    else
      var m := MergeWith(d, b[..|b| - 1], f);
      var e := b[|b| - 1];
      if e.0.IntKey? then Push(m, e.1)
      else match Get(m, e.0)
        case Some(x) => Put(m, e.0, f(x, e.1))
        case None => m + [e]
  }

  /** `array_merge` keeps the later value. */
  function Overwrite<V>(prev: V, later: V): V {
    later
  }

  /** `array_merge(a, b)`. */
  function ArrayMerge<V>(a: seq<(Key, V)>, b: seq<(Key, V)>): seq<(Key, V)> {
    MergeWith(Renumber(a), b, Overwrite)
  }

  /** `a` with each of its keys that `b` also holds combined with `b`'s value. */
  function UpdatedWith<V>(a: seq<(Key, V)>, b: seq<(Key, V)>, f: (V, V) -> V): (r: seq<(Key, V)>)
    ensures |r| == |a|
    ensures forall i :: 0 <= i < |a| ==> r[i] == (a[i].0, match Get(b, a[i].0) case Some(y) => f(a[i].1, y) case None => a[i].1)
  {
    seq(|a|, i requires 0 <= i < |a| =>
      (a[i].0, match Get(b, a[i].0) case Some(y) => f(a[i].1, y) case None => a[i].1))
  }

  /** The entries of `b` whose keys `a` lacks, in `b`'s order. */
  function Missing<V>(a: seq<(Key, V)>, b: seq<(Key, V)>): (r: seq<(Key, V)>)
    ensures forall e :: e in r ==> e in b && !HasKey(a, e.0)
    decreases |b|
  {
    if b == [] then []
    else Missing(a, b[..|b| - 1]) + (if HasKey(a, b[|b| - 1].0) then [] else [b[|b| - 1]])
  }

  lemma {:induction false} MergeWithDistinct<V>(d: seq<(Key, V)>, b: seq<(Key, V)>, f: (V, V) -> V)
    requires DistinctKeys(d)
    ensures DistinctKeys(MergeWith(d, b, f))
    decreases |b|
  {
    if b != [] {
      MergeWithDistinct(d, b[..|b| - 1], f);
      var m := MergeWith(d, b[..|b| - 1], f);
      var e := b[|b| - 1];
      if e.0.StrKey? {
        if HasKey(m, e.0) {
          PutDistinct(m, e.0, f(Get(m, e.0).value, e.1));
        } else {
          PutDistinct(m, e.0, e.1);
        }
      }
    }
  }

  /** What a string key holds after the merge: `b`'s value combined with the
      old one when both hold the key, the only value when one does. */
  lemma {:induction false} GetMergeWith<V>(d: seq<(Key, V)>, b: seq<(Key, V)>, f: (V, V) -> V, k: Key)
    requires k.StrKey? && DistinctKeys(b)
    ensures Get(MergeWith(d, b, f), k) ==
      match Get(b, k)
      case None => Get(d, k)
      case Some(y) => Some(match Get(d, k) case Some(x) => f(x, y) case None => y)
    decreases |b|
  {
    if b != [] {
      var b' := b[..|b| - 1];
      var e := b[|b| - 1];
      assert b == b' + [e];
      GetMergeWith(d, b', f, k);
      GetAppend(b', e, k);
      var m := MergeWith(d, b', f);
      if e.0.IntKey? {
        GetPush(m, e.1, k);
      } else if e.0 == k {
        LastKeyFresh(b);
        if HasKey(m, k) {
          GetPut(m, k, f(Get(m, k).value, e.1), k);
        } else {
          GetAppend(m, e, k);
        }
      } else {
        if HasKey(m, e.0) {
          GetPut(m, e.0, f(Get(m, e.0).value, e.1), k);
        } else {
          GetAppend(m, e, k);
        }
      }
    }
  }

  /** The last entry of a key-distinct array is not among the others. */
  lemma LastKeyFresh<V>(b: seq<(Key, V)>)
    requires b != [] && DistinctKeys(b)
    ensures !HasKey(b[..|b| - 1], b[|b| - 1].0)
  {
  }

  lemma UpdatedWithAppendNew<V>(a: seq<(Key, V)>, b: seq<(Key, V)>, e: (Key, V), f: (V, V) -> V)
    requires !HasKey(a, e.0)
    ensures UpdatedWith(a, b + [e], f) == UpdatedWith(a, b, f)
  {
    forall j | 0 <= j < |a|
      ensures Get(b + [e], a[j].0) == Get(b, a[j].0)
    {
      GetAppend(b, e, a[j].0);
    }
  }

  lemma UpdatedWithAppendOld<V>(a: seq<(Key, V)>, b: seq<(Key, V)>, e: (Key, V), f: (V, V) -> V)
    requires DistinctKeys(a) && HasKey(a, e.0) && !HasKey(b, e.0)
    ensures UpdatedWith(a, b + [e], f)
         == UpdatedWith(a, b, f)[Find(a, e.0).value := (e.0, f(a[Find(a, e.0).value].1, e.1))]
  {
    forall j | 0 <= j < |a|
      ensures Get(b + [e], a[j].0) == if a[j].0 == e.0 then Some(e.1) else Get(b, a[j].0)
    {
      GetAppend(b, e, a[j].0);
    }
  }

  lemma {:induction false} MergeWithStrings<V>(a: seq<(Key, V)>, b: seq<(Key, V)>, f: (V, V) -> V)
    requires AllStrKeys(b) && DistinctKeys(a) && DistinctKeys(b)
    ensures MergeWith(a, b, f) == UpdatedWith(a, b, f) + Missing(a, b)
    decreases |b|
  {
    if b != [] {
      var b' := b[..|b| - 1];
      var e := b[|b| - 1];
      assert b == b' + [e];
      MergeWithStrings(a, b', f);
      LastKeyFresh(b);
      MergeStringStep(a, b', e, f);
    }
  }

  /** One more string entry, new to the entries before it, either updates the
      entry of `a` under its key or joins the missing ones. */
  lemma MergeStringStep<V>(a: seq<(Key, V)>, b: seq<(Key, V)>, e: (Key, V), f: (V, V) -> V)
    requires e.0.StrKey? && DistinctKeys(a) && !HasKey(b, e.0)
    ensures (var m := UpdatedWith(a, b, f) + Missing(a, b);
             match Get(m, e.0)
             case Some(x) => Put(m, e.0, f(x, e.1))
             case None => m + [e])
         == UpdatedWith(a, b + [e], f) + Missing(a, b + [e])
  {
    var u := UpdatedWith(a, b, f);
    var ms := Missing(a, b);
    FindSameKeys(a, u, e.0);
    FindConcat(u, ms, e.0);
    if HasKey(a, e.0) {
      MergeStringOld(a, b, e, f);
    } else {
      MergeStringNew(a, b, e, f);
    }
  }

  lemma MergeStringOld<V>(a: seq<(Key, V)>, b: seq<(Key, V)>, e: (Key, V), f: (V, V) -> V)
    requires DistinctKeys(a) && HasKey(a, e.0) && !HasKey(b, e.0)
    requires Find(UpdatedWith(a, b, f) + Missing(a, b), e.0) == Find(a, e.0)
    ensures (var m := UpdatedWith(a, b, f) + Missing(a, b);
             Get(m, e.0) == Some(a[Find(a, e.0).value].1) &&
             Put(m, e.0, f(a[Find(a, e.0).value].1, e.1)) == UpdatedWith(a, b + [e], f) + Missing(a, b + [e]))
  {
    var u := UpdatedWith(a, b, f);
    var ms := Missing(a, b);
    var i := Find(a, e.0).value;
    var v := (e.0, f(a[i].1, e.1));
    assert Get(b, a[i].0) == None;
    UpdatedWithAppendOld(a, b, e, f);
    MissingOld(a, b, e);
    UpdateLeft(u, ms, i, v);
  }

  lemma MergeStringNew<V>(a: seq<(Key, V)>, b: seq<(Key, V)>, e: (Key, V), f: (V, V) -> V)
    requires !HasKey(a, e.0) && !HasKey(b, e.0)
    requires Find(UpdatedWith(a, b, f), e.0) == Find(a, e.0)
    ensures (var m := UpdatedWith(a, b, f) + Missing(a, b);
             Get(m, e.0) == None && m + [e] == UpdatedWith(a, b + [e], f) + Missing(a, b + [e]))
  {
    var u := UpdatedWith(a, b, f);
    var ms := Missing(a, b);
    MissingLacks(a, b, e.0);
    FindConcat(u, ms, e.0);
    UpdatedWithAppendNew(a, b, e, f);
    MissingNew(a, b, e);
    AppendAssoc(u, ms, [e]);
  }

  /** A key `b` lacks is not among `b`'s missing entries either. */
  lemma MissingLacks<V>(a: seq<(Key, V)>, b: seq<(Key, V)>, k: Key)
    requires !HasKey(b, k)
    ensures !HasKey(Missing(a, b), k)
  {
    var ms := Missing(a, b);
    forall j | 0 <= j < |ms| ensures ms[j].0 != k {
      assert ms[j] in ms;
    }
  }

  lemma MissingOld<V>(a: seq<(Key, V)>, b: seq<(Key, V)>, e: (Key, V))
    requires HasKey(a, e.0)
    ensures Missing(a, b + [e]) == Missing(a, b)
  {
    assert (b + [e])[..|b|] == b;
  }

  lemma MissingNew<V>(a: seq<(Key, V)>, b: seq<(Key, V)>, e: (Key, V))
    requires !HasKey(a, e.0)
    ensures Missing(a, b + [e]) == Missing(a, b) + [e]
  {
    assert (b + [e])[..|b|] == b;
  }

  lemma PushList<V>(vs: seq<V>, v: V)
    ensures Push(ListOf(vs), v) == ListOf(vs + [v])
  {
    NextIndexList(vs);
  }

  /** Merging two lists appends the second to the first. */
  lemma {:induction false} MergeWithLists<V>(xs: seq<V>, ys: seq<V>, f: (V, V) -> V)
    ensures MergeWith(ListOf(xs), ListOf(ys), f) == ListOf(xs + ys)
    decreases |ys|
  {
    if ys == [] {
      assert xs + ys == xs;
    } else {
      var ys' := ys[..|ys| - 1];
      assert ListOf(ys)[..|ys| - 1] == ListOf(ys');
      MergeWithLists(xs, ys', f);
      PushList(xs + ys', ys[|ys| - 1]);
      assert xs + ys' + [ys[|ys| - 1]] == xs + ys;
    }
  }

  /** `array_merge` never yields a key twice. */
  lemma ArrayMergeDistinct<V>(a: seq<(Key, V)>, b: seq<(Key, V)>)
    requires DistinctKeys(a)
    ensures DistinctKeys(ArrayMerge(a, b))
  {
    RenumberFromDistinct(a, 0);
    MergeWithDistinct(Renumber(a), b, Overwrite);
  }

  /** A string key of `b` holds `b`'s value after `array_merge(a, b)`; any other
      string key holds what it held in `a`. */
  lemma ArrayMergeGet<V>(a: seq<(Key, V)>, b: seq<(Key, V)>, k: Key)
    requires k.StrKey? && DistinctKeys(b)
    ensures Get(ArrayMerge(a, b), k) == if HasKey(b, k) then Get(b, k) else Get(a, k)
  {
    GetMergeWith(Renumber(a), b, Overwrite, k);
    GetRenumberFrom(a, 0, k);
  }

  /** With string keys only, `array_merge(a, b)` is `a` in its own order with
      the shared keys' values taken from `b`, followed by `b`'s other entries in
      `b`'s order. */
  lemma ArrayMergeStrings<V>(a: seq<(Key, V)>, b: seq<(Key, V)>)
    requires AllStrKeys(a) && AllStrKeys(b) && DistinctKeys(a) && DistinctKeys(b)
    ensures ArrayMerge(a, b) == UpdatedWith(a, b, Overwrite) + Missing(a, b)
  {
    RenumberStrKeys(a, 0);
    MergeWithStrings(a, b, Overwrite);
  }

  /** `array_merge` of two lists is their concatenation. */
  lemma ArrayMergeLists<V>(xs: seq<V>, ys: seq<V>)
    ensures ArrayMerge(ListOf(xs), ListOf(ys)) == ListOf(xs + ys)
  {
    RenumberInts(ListOf(xs), 0);
    assert Values(ListOf(xs)) == xs;
    MergeWithLists(xs, ys, Overwrite);
  }

  // ---------------------------------------------------------------------------
  // Nested values

  /** The values the client stores in parameter arrays. */
  datatype Value = Null | Str(s: string) | Int(i: int) | Arr(entries: seq<(Key, Value)>)

  /** A key both operands of `array_merge_recursive` hold: the old value becomes
      an array (a scalar or null its only element), into which the new value is
      merged when it is an array and appended when it is not. */
  function Combine(dest: Value, src: Value): (r: Value)
    ensures r.Arr?
    decreases src, if src.Arr? then |src.entries| + 1 else 0
  {
    var d := if dest.Arr? then dest.entries else [(IntKey(0), dest)];
    match src
    case Arr(es) => Arr(MergeRec(d, src, |es|))
    case _ => Arr(Push(d, src))
  }

  /** Merges the first `n` entries of the array `src` into `d`. */
  function MergeRec(d: seq<(Key, Value)>, src: Value, n: nat): seq<(Key, Value)>
    requires src.Arr? && n <= |src.entries|
    decreases src, n
  {
    if n == 0 then d
    else
      var m := MergeRec(d, src, n - 1);
      var e := src.entries[n - 1];
      if e.0.IntKey? then Push(m, e.1)
      else match Get(m, e.0)
        case Some(x) => Put(m, e.0, Combine(x, e.1))
        case None => m + [e]
  }

  /** `array_merge_recursive(a, b)`. */
  function ArrayMergeRecursive(a: seq<(Key, Value)>, b: seq<(Key, Value)>): seq<(Key, Value)> {
    MergeRec(Renumber(a), Arr(b), |b|)
  }

  /** The recursive merge is the generic merge loop with `Combine` for shared keys. */
  lemma {:induction false} MergeRecIsMergeWith(d: seq<(Key, Value)>, src: Value, n: nat)
    requires src.Arr? && n <= |src.entries|
    ensures MergeRec(d, src, n) == MergeWith(d, src.entries[..n], Combine)
    decreases n
  {
    if n > 0 {
      MergeRecIsMergeWith(d, src, n - 1);
      assert src.entries[..n][..n - 1] == src.entries[..n - 1];
    }
  }

  lemma ArrayMergeRecursiveDistinct(a: seq<(Key, Value)>, b: seq<(Key, Value)>)
    requires DistinctKeys(a)
    ensures DistinctKeys(ArrayMergeRecursive(a, b))
  {
    RenumberFromDistinct(a, 0);
    MergeRecIsMergeWith(Renumber(a), Arr(b), |b|);
    assert b[..|b|] == b;
    MergeWithDistinct(Renumber(a), b, Combine);
  }

  /** A string key held by both operands ends up with both values combined;
      a key held by one keeps that one's value. */
  lemma ArrayMergeRecursiveGet(a: seq<(Key, Value)>, b: seq<(Key, Value)>, k: Key)
    requires k.StrKey? && DistinctKeys(b)
    ensures Get(ArrayMergeRecursive(a, b), k) ==
      match Get(b, k)
      case None => Get(a, k)
      case Some(y) => Some(match Get(a, k) case Some(x) => Combine(x, y) case None => y)
  {
    MergeRecIsMergeWith(Renumber(a), Arr(b), |b|);
    assert b[..|b|] == b;
    GetMergeWith(Renumber(a), b, Combine, k);
    GetRenumberFrom(a, 0, k);
  }

  /** With string keys only, `a`'s keys come first in their order (shared ones
      combined) and `b`'s other entries follow in `b`'s order. */
  lemma ArrayMergeRecursiveStrings(a: seq<(Key, Value)>, b: seq<(Key, Value)>)
    requires AllStrKeys(a) && AllStrKeys(b) && DistinctKeys(a) && DistinctKeys(b)
    ensures ArrayMergeRecursive(a, b) == UpdatedWith(a, b, Combine) + Missing(a, b)
  {
    RenumberStrKeys(a, 0);
    MergeRecIsMergeWith(a, Arr(b), |b|);
    assert b[..|b|] == b;
    MergeWithStrings(a, b, Combine);
  }

  /** Two scalars under one key are collected into a two-element list. */
  lemma CombineScalars(x: Value, y: Value)
    requires !x.Arr? && !y.Arr?
    ensures Combine(x, y) == Arr(ListOf([x, y]))
  {
    assert [(IntKey(0), x)] == ListOf([x]);
    NextIndexList([x]);
  }

  /** Two lists under one key are concatenated. */
  lemma CombineLists(xs: seq<Value>, ys: seq<Value>)
    ensures Combine(Arr(ListOf(xs)), Arr(ListOf(ys))) == Arr(ListOf(xs + ys))
  {
    MergeRecIsMergeWith(ListOf(xs), Arr(ListOf(ys)), |ys|);
    assert ListOf(ys)[..|ys|] == ListOf(ys);
    MergeWithLists(xs, ys, Combine);
  }
}
