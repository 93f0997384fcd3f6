/** Redefinition detection shared by both generations' checkers: a map from
    name to the latest item carrying it is filled in list order, and an
    item whose name is already in the map is a redefinition of the item the
    map held (the insert then replaces it). */
module Dupes {
  /** The map after inserting every item's name, in order: each name maps
      to the index of its latest occurrence. */
  function LastSeen(names: seq<string>): (r: map<string, nat>)
    ensures forall t :: t in r ==> r[t] < |names| && names[r[t]] == t
  {
    if names == [] then map[]
    else
      var prev := names[..|names| - 1];
      LastSeen(prev)[names[|names| - 1] := |names| - 1]
  }

  /** Every name of the list is a key of the map.  (Kept apart from the
      function's contract: together with the first clause it would let the
      solver chase `names[r[t]]` without end.) */
  lemma {:induction false} LastSeenCovers(names: seq<string>, k: nat)
    requires k < |names|
    ensures names[k] in LastSeen(names)
  {
    if k < |names| - 1 {
      LastSeenCovers(names[..|names| - 1], k);
    }
  }

  /** The redefinitions in list order: (index of the item, index of the
      earlier item the map reported for it). */
  function Redefinitions(names: seq<string>): (r: seq<(nat, nat)>)
    ensures forall p :: p in r ==> p.1 < p.0 < |names| && names[p.0] == names[p.1]
  {
    if names == [] then []
    else
      var prev := names[..|names| - 1];
      var seen := LastSeen(prev);
      var t := names[|names| - 1];
      Redefinitions(prev) + (if t in seen then [(|names| - 1, seen[t])] else [])
  }

  /** The map's entry for a name is its latest occurrence. */
  lemma {:induction false} LastSeenIsLatest(names: seq<string>, t: string, k: nat)
    requires t in LastSeen(names) && LastSeen(names)[t] < k < |names|
    ensures names[k] != t
  {
    var prev := names[..|names| - 1];
    if k < |names| - 1 {
      LastSeenIsLatest(prev, t, k);
    }
  }

  /** The map has one key per distinct name. */
  lemma {:induction false} LastSeenKeys(names: seq<string>)
    ensures LastSeen(names).Keys == set k | 0 <= k < |names| :: names[k]
  {
    if names != [] {
      var prev := names[..|names| - 1];
      LastSeenKeys(prev);
      var s := set k | 0 <= k < |names| :: names[k];
      var sp := set k | 0 <= k < |prev| :: prev[k];
      assert s == sp + {names[|names| - 1]} by {
        forall t | t in s
          ensures t in sp + {names[|names| - 1]}
        {
          var k :| 0 <= k < |names| && names[k] == t;
          if k < |prev| {
            assert prev[k] == t;
          }
        }
        forall t | t in sp + {names[|names| - 1]}
          ensures t in s
        {
          if t in sp {
            var k :| 0 <= k < |prev| && prev[k] == t;
            assert names[k] == t;
          }
        }
      }
    }
  }

  /** Every item either introduces a new name or is one redefinition: the
      count is the list length minus the number of distinct names. */
  lemma {:induction false} RedefinitionCount(names: seq<string>)
    ensures |Redefinitions(names)| == |names| - |LastSeen(names).Keys|
  {
    if names != [] {
      var prev := names[..|names| - 1];
      RedefinitionCount(prev);
      var seen := LastSeen(prev);
      var t := names[|names| - 1];
      if t in seen {
        assert LastSeen(names).Keys == seen.Keys;
      } else {
        assert LastSeen(names).Keys == seen.Keys + {t};
      }
    }
  }

  predicate Distinct(names: seq<string>)
  {
    forall i, j :: 0 <= i < j < |names| ==> names[i] != names[j]
  }

  /** Distinct names give no redefinition. */
  lemma {:induction false} DistinctHasNoRedefinition(names: seq<string>)
    requires Distinct(names)
    ensures Redefinitions(names) == []
  {
    if names != [] {
      var prev := names[..|names| - 1];
      assert Distinct(prev) by {
        forall i, j | 0 <= i < j < |prev|
          ensures prev[i] != prev[j]
        {
          assert names[i] != names[j];
        }
      }
      DistinctHasNoRedefinition(prev);
      assert names[|names| - 1] !in LastSeen(prev);
    }
  }

  /** Two items with one name give at least one redefinition. */
  lemma {:induction false} RepeatIsRedefinition(names: seq<string>, i: nat, j: nat)
    requires i < j < |names| && names[i] == names[j]
    ensures Redefinitions(names) != []
  {
    var prev := names[..|names| - 1];
    if j < |names| - 1 {
      RepeatIsRedefinition(prev, i, j);
    } else {
      LastSeenCovers(prev, i);
    }
  }

  /** No redefinition is reported exactly when all names differ. */
  lemma NoRedefinitionsIffDistinct(names: seq<string>)
    ensures Redefinitions(names) == [] <==> Distinct(names)
  {
    if Distinct(names) {
      DistinctHasNoRedefinition(names);
    } else {
      var i, j :| 0 <= i < j < |names| && names[i] == names[j];
      RepeatIsRedefinition(names, i, j);
    }
  }
}
