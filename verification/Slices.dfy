/**
 Go slices of token ids in a map: each entry is a length and the array that stores it, which may be longer.
 Removing an element shifts the array in place; appending writes behind the last element if there
 is room, and otherwise moves to a new array of whatever size the runtime chooses.
 */
module Slices {
  import opened Ledger
  import opened Nft

  datatype Slice = Slice(arr: array<nat>, len: nat)

  type SliceMap = map<Address, Slice>

  /** No two addresses share storage. */
  ghost predicate Separate(m: SliceMap) {
    (forall a :: a in m ==> m[a].len <= m[a].arr.Length) &&
    (forall a, b :: a in m && b in m && a != b ==> m[a].arr != m[b].arr)
  }

  function Arrays(m: SliceMap): set<array<nat>> {
    set a | a in m :: m[a].arr
  }

  /** What the program sees of the slices. */
  function Lists(m: SliceMap): Mapping
    requires forall a :: a in m ==> m[a].len <= m[a].arr.Length
    reads Arrays(m)
  {
    map a | a in m :: m[a].arr[..m[a].len]
  }

  lemma {:induction false} ListsUpdated(before: Mapping, r: SliceMap, a: Address, list: seq<nat>)
    requires Separate(r) && a in r && r.Keys == before.Keys + {a}
    requires forall b :: b in r && b != a ==> r[b].arr[..r[b].len] == before[b]
    requires r[a].arr[..r[a].len] == list
    ensures Lists(r) == before[a := list]
  {
  }

  lemma {:induction false} ListsAt(m: SliceMap, a: Address)
    requires Separate(m)
    ensures |ListOf(Lists(m), a)| == if a in m then m[a].len else 0
    ensures a in m ==> forall i :: 0 <= i < m[a].len ==> ListOf(Lists(m), a)[i] == m[a].arr[i]
  {
  }

  /** Another array, longer than the slice, that holds the slice and then `id`. */
  method Grow(s: seq<nat>, id: nat) returns (bigger: array<nat>)
    ensures fresh(bigger) && bigger.Length > |s| && bigger[..|s| + 1] == s + [id]
  {
    var capacity: nat :| capacity > |s|;
    bigger := new nat[capacity];
    forall k | 0 <= k < |s| {
      bigger[k] := s[k];
    }
    bigger[|s|] := id;
  }

  /** `m[a] = append(m[a], id)` */
  method Append(m: SliceMap, a: Address, id: nat) returns (r: SliceMap)
    requires Separate(m)
    modifies if a in m then {m[a].arr} else {}
    ensures Separate(r) && Lists(r) == Give(old(Lists(m)), a, id)
    ensures fresh(Arrays(r) - Arrays(m))
  {
    ghost var before := Lists(m);
    var len := if a in m then m[a].len else 0;
    if a in m && len < m[a].arr.Length {
      m[a].arr[len] := id;
      r := m[a := Slice(m[a].arr, len + 1)];
    } else {
      var bigger := Grow(if a in m then m[a].arr[..len] else [], id);
      r := m[a := Slice(bigger, len + 1)];
    }
    ListsUpdated(before, r, a, ListOf(before, a) + [id]);
  }

  /** `m[a] = append(m[a][:i], m[a][i+1:]...)` */
  method RemoveInPlace(m: SliceMap, a: Address, i: nat) returns (r: SliceMap)
    requires Separate(m) && a in m && i < m[a].len
    modifies m[a].arr
    ensures Separate(r) && Lists(r) == old(Lists(m))[a := RemoveAt(old(Lists(m))[a], i)]
    ensures r.Keys == m.Keys && (forall b :: b in m && b != a ==> r[b] == m[b]) && r[a].arr == m[a].arr
  {
    ghost var before := Lists(m);
    var arr, len := m[a].arr, m[a].len;
    forall k | i <= k < len - 1 {
      arr[k] := arr[k + 1];
    }
    r := m[a := Slice(arr, len - 1)];
    assert arr[..len - 1] == RemoveAt(before[a], i);
    ListsUpdated(before, r, a, RemoveAt(before[a], i));
  }

  /** The two updates of a transfer, one after the other; sender and recipient may be the same. */
  method Move(m: SliceMap, from: Address, to: Address, i: nat) returns (r: SliceMap)
    requires Separate(m) && from in m && i < m[from].len
    modifies Arrays(m)
    ensures Separate(r) && Lists(r) == Transfer(old(Lists(m)), from, to, i)
    ensures fresh(Arrays(r) - Arrays(m))
  {
    var id := m[from].arr[i];
    var shorter := RemoveInPlace(m, from, i);
    assert Arrays(shorter) == Arrays(m);
    r := Append(shorter, to, id);
  }

  /** Decoding a stored map allocates a slice of its own for every key. */
  method Decode(m: Mapping) returns (r: SliceMap)
    ensures Separate(r) && Lists(r) == m && fresh(Arrays(r))
  {
    r := map[];
    var todo := m.Keys;
    while todo != {}
      invariant todo <= m.Keys && r.Keys == m.Keys - todo && Separate(r)
      invariant forall a :: a in r ==> fresh(r[a].arr) && r[a].arr[..r[a].len] == m[a]
      decreases |todo|
    {
      var a :| a in todo;
      var arr := new nat[|m[a]|](k requires 0 <= k < |m[a]| => m[a][k]);
      r := r[a := Slice(arr, |m[a]|)];
      todo := todo - {a};
    }
  }
}
