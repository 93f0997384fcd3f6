/** `IndexMap` as both generations' code generators use it: entries kept in
    insertion order under distinct keys.  Inserting a key already present
    replaces its value where it stands; a new key goes at the end. */
module IndexMaps {
  import opened Common

  type Entries<V> = seq<(string, V)>

  function Keys<V>(m: Entries<V>): (r: seq<string>)
    ensures |r| == |m| && forall k :: 0 <= k < |m| ==> r[k] == m[k].0
  {
    if m == [] then [] else Keys(m[..|m| - 1]) + [m[|m| - 1].0]
  }

  /** `values()`, in order. */
  function Values<V>(m: Entries<V>): (r: seq<V>)
    ensures |r| == |m| && forall k :: 0 <= k < |m| ==> r[k] == m[k].1
  {
    if m == [] then [] else Values(m[..|m| - 1]) + [m[|m| - 1].1]
  }

  ghost predicate DistinctKeys<V>(m: Entries<V>)
  {
    forall i, j :: 0 <= i < j < |m| ==> m[i].0 != m[j].0
  }

  /** Where `k` stands, if it is a key. */
  function Position<V>(m: Entries<V>, k: string): (r: Option<nat>)
    ensures r.Some? ==> r.value < |m| && m[r.value].0 == k
    ensures r.None? ==> k !in Keys(m)
  {
    if m == [] then None
    else if m[|m| - 1].0 == k then Some(|m| - 1)
    else Position(m[..|m| - 1], k)
  }

  /** `get`: the value under `k`. */
  function Get<V>(m: Entries<V>, k: string): Option<V>
  {
    match Position(m, k)
    case None => None
    case Some(i) => Some(m[i].1)
  }

  /** `insert`. */
  function Insert<V>(m: Entries<V>, k: string, v: V): (r: Entries<V>)
  {
    match Position(m, k)
    case None => m + [(k, v)]
    case Some(i) => m[i := (k, v)]
  }

  /** With distinct keys, a key found at `i` is found nowhere else. */
  lemma PositionUnique<V>(m: Entries<V>, k: string, i: nat)
    requires DistinctKeys(m) && i < |m| && m[i].0 == k
    ensures Position(m, k) == Some(i)
  {
    var p := Position(m, k);
    assert k in Keys(m) by { assert Keys(m)[i] == k; }
  }

  /** Insertion keeps the keys distinct, puts `v` under `k`, leaves every
      other key's value alone, and adds `k` at the end only when it is new. */
  lemma InsertSpec<V>(m: Entries<V>, k: string, v: V)
    requires DistinctKeys(m)
    ensures DistinctKeys(Insert(m, k, v))
    ensures Get(Insert(m, k, v), k) == Some(v)
    ensures forall j :: j != k ==> Get(Insert(m, k, v), j) == Get(m, j)
    ensures Keys(Insert(m, k, v)) == if k in Keys(m) then Keys(m) else Keys(m) + [k]
  {
    var r := Insert(m, k, v);
    assert |r| > 0;
    match Position(m, k)
    case None =>
      PositionUnique(r, k, |m|);
      assert r[..|m|] == m;
    case Some(i) =>
      assert Keys(r) == Keys(m);
      PositionUnique(r, k, i);
      forall j | j != k
        ensures Get(r, j) == Get(m, j)
      {
        match Position(m, j)
        case None =>
        case Some(t) =>
          assert t != i;
          PositionUnique(r, j, t);
      }
  }

  // Filling a map in a loop

  /** The map after inserting `ps` in order into an empty one. */
  function InsertAll<V>(ps: Entries<V>): Entries<V>
  {
    if ps == [] then [] else Insert(InsertAll(ps[..|ps| - 1]), ps[|ps| - 1].0, ps[|ps| - 1].1)
  }

  /** One more turn of the loop inserts one more pair. */
  lemma InsertAllStep<V>(ps: Entries<V>, i: nat)
    requires i < |ps|
    ensures InsertAll(ps[..i + 1]) == Insert(InsertAll(ps[..i]), ps[i].0, ps[i].1)
  {
    assert ps[..i + 1][..i] == ps[..i];
  }

  /** The value of the last pair carrying `k`. */
  function LastWith<V>(ps: Entries<V>, k: string): (r: Option<V>)
  {
    if ps == [] then None
    else if ps[|ps| - 1].0 == k then Some(ps[|ps| - 1].1)
    else LastWith(ps[..|ps| - 1], k)
  }

  /** The keys in order of first appearance. */
  function FirstSeen(ks: seq<string>): (r: seq<string>)
  {
    if ks == [] then []
    else
      var init := FirstSeen(ks[..|ks| - 1]);
      if ks[|ks| - 1] in init then init else init + [ks[|ks| - 1]]
  }

  /** After the loop the keys are distinct, each key's value is the one it
      was last inserted with (a later insert replaces an earlier one), and
      the keys stand in the order they were first inserted. */
  lemma {:induction false} InsertAllSpec<V>(ps: Entries<V>)
    ensures DistinctKeys(InsertAll(ps))
    ensures forall k :: Get(InsertAll(ps), k) == LastWith(ps, k)
    ensures Keys(InsertAll(ps)) == FirstSeen(Keys(ps))
  {
    if ps != [] {
      var init, last := ps[..|ps| - 1], ps[|ps| - 1];
      InsertAllSpec(init);
      InsertSpec(InsertAll(init), last.0, last.1);
      assert Keys(ps)[..|ps| - 1] == Keys(init);
    }
  }

  /** Every value in the filled map came from some inserted pair. */
  lemma {:induction false} InsertAllValues<V>(ps: Entries<V>)
    ensures forall e :: e in InsertAll(ps) ==> e in ps
  {
    if ps != [] {
      var init, last := ps[..|ps| - 1], ps[|ps| - 1];
      InsertAllValues(init);
      var m := InsertAll(init);
      forall e | e in Insert(m, last.0, last.1)
        ensures e in ps
      {
        if e != last {
          assert e in m;
          assert e in init;
        }
      }
    }
  }
}
