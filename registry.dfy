/**
 * The vehicle registry of Core/main.c, as values: the identifiers held in
 * the first `vehicle_count` rows of `vehicles_inside_db`, in array order.
 * The class `Controller.Controller` stores them in an array and is proved
 * to follow these functions.
 */
module Registry {
  import opened Common

  /** `MAX_VEHICLES_INSIDE`: the number of rows in `vehicles_inside_db`. */
  const MAX_VEHICLES: nat := 4

  /** No identifier occupies two rows. */
  predicate NoDuplicates(vs: seq<Uid>) {
    forall i, j :: 0 <= i < j < |vs| ==> vs[i] != vs[j]
  }

  /**
   * `find_vehicle_index`: the first row holding `uid`, or -1 when no row does.
   */
  function IndexOf(vs: seq<Uid>, uid: Uid): (r: int)
    ensures r == -1 <==> uid !in vs
    ensures r != -1 ==> 0 <= r < |vs| && vs[r] == uid
    ensures r != -1 ==> forall j :: 0 <= j < r ==> vs[j] != uid
    decreases |vs|
  {
    if |vs| == 0 then -1
    else if vs[0] == uid then 0
    else
      var k := IndexOf(vs[1..], uid);
      if k == -1 then -1 else k + 1
  }

  /** The outcome of `add_vehicle`: its boolean result and the registry afterwards. */
  datatype Added = Added(ok: bool, vehicles: seq<Uid>)

  /**
   * `add_vehicle`: fails without change when the registry is full; otherwise
   * writes `uid` into the next free row.
   */
  function Add(vs: seq<Uid>, uid: Uid): (r: Added)
    ensures r.ok <==> |vs| < MAX_VEHICLES
    ensures !r.ok ==> r.vehicles == vs
    ensures r.ok ==> |r.vehicles| == |vs| + 1 && r.vehicles[..|vs|] == vs && r.vehicles[|vs|] == uid
  {
    if |vs| >= MAX_VEHICLES then Added(false, vs)
    else Added(true, vs + [uid])
  }

  /**
   * `remove_vehicle`: an index outside [0, count) changes nothing; otherwise
   * the last row is copied over row `index` and the count drops by one.
   */
  function RemoveAt(vs: seq<Uid>, index: int): (r: seq<Uid>)
    ensures index < 0 || index >= |vs| ==> r == vs
    ensures 0 <= index < |vs| ==> |r| == |vs| - 1
  {
    if index < 0 || index >= |vs| then vs
    else vs[index := vs[|vs| - 1]][..|vs| - 1]
  }

  /** Adding to a non-full registry adds exactly one copy of `uid`. */
  lemma AddMultiset(vs: seq<Uid>, uid: Uid)
    requires |vs| < MAX_VEHICLES
    ensures multiset(Add(vs, uid).vehicles) == multiset(vs) + multiset{uid}
  {
    assert Add(vs, uid).vehicles == vs + [uid];
  }

  /** Adding an identifier that is not yet present keeps the rows distinct. */
  lemma AddKeepsNoDuplicates(vs: seq<Uid>, uid: Uid)
    requires NoDuplicates(vs) && uid !in vs
    ensures NoDuplicates(Add(vs, uid).vehicles)
  {
    var r := Add(vs, uid).vehicles;
    if |vs| < MAX_VEHICLES {
      forall i, j | 0 <= i < j < |r| ensures r[i] != r[j] {
        if j == |vs| {
          assert r[i] == vs[i];
        } else {
          assert r[i] == vs[i] && r[j] == vs[j];
        }
      }
    }
  }

  /** The capacity law: with the registry full, a further add is refused and nothing changes. */
  lemma AddWhenFull(vs: seq<Uid>, uid: Uid)
    requires |vs| == MAX_VEHICLES
    ensures Add(vs, uid) == Added(false, vs)
  {
  }

  /** Removing row `index` takes away exactly that entry and keeps all others. */
  lemma {:induction false} RemoveAtMultiset(vs: seq<Uid>, index: int)
    requires 0 <= index < |vs|
    ensures multiset(RemoveAt(vs, index)) == multiset(vs) - multiset{vs[index]}
  {
    var n := |vs|;
    var last := vs[n - 1];
    var r := RemoveAt(vs, index);
    assert vs[index := last] == r + [last];
    MultisetOfUpdate(vs, index, last);
    MultisetOfSnoc(r, last);
    calc {
      multiset(r);
      multiset(r) + multiset{last} - multiset{last};
      multiset(vs) - multiset{vs[index]} + multiset{last} - multiset{last};
      multiset(vs) - multiset{vs[index]};
    }
  }

  /** Overwriting one element swaps one copy of the old value for one of the new. */
  lemma MultisetOfUpdate<T>(s: seq<T>, i: nat, x: T)
    requires i < |s|
    ensures multiset(s[i := x]) == multiset(s) - multiset{s[i]} + multiset{x}
  {
    assert s == s[..i] + [s[i]] + s[i + 1..];
    assert s[i := x] == s[..i] + [x] + s[i + 1..];
  }

  /** Appending one element adds one copy of it. */
  lemma MultisetOfSnoc<T>(s: seq<T>, x: T)
    ensures multiset(s + [x]) == multiset(s) + multiset{x}
  {
  }

  /** After a removal each surviving row is an old row other than `index`; the moved row is the old last one. */
  lemma RemoveAtShape(vs: seq<Uid>, index: int)
    requires 0 <= index < |vs|
    ensures forall k :: 0 <= k < |RemoveAt(vs, index)| && k != index ==> RemoveAt(vs, index)[k] == vs[k]
    ensures index < |vs| - 1 ==> RemoveAt(vs, index)[index] == vs[|vs| - 1]
  {
  }

  /** Removal keeps the rows distinct, and the removed identifier is then absent. */
  lemma RemoveAtKeepsNoDuplicates(vs: seq<Uid>, index: int)
    requires NoDuplicates(vs) && 0 <= index < |vs|
    ensures NoDuplicates(RemoveAt(vs, index))
    ensures vs[index] !in RemoveAt(vs, index)
    ensures forall x :: x in RemoveAt(vs, index) <==> x in vs && x != vs[index]
  {
    var r := RemoveAt(vs, index);
    var n := |vs|;
    // each row of r comes from a distinct row of vs other than index
    forall k | 0 <= k < |r|
      ensures r[k] == vs[if k == index then n - 1 else k]
    {
    }
    forall i, j | 0 <= i < j < |r| ensures r[i] != r[j] {
      assert r[i] == vs[if i == index then n - 1 else i];
      assert r[j] == vs[if j == index then n - 1 else j];
    }
    forall x | x in vs && x != vs[index] ensures x in r {
      var k :| 0 <= k < n && vs[k] == x;
      if k == n - 1 {
        assert r[index] == x;
      } else {
        assert r[k] == x;
      }
    }
  }

  /**
   * The exit update of the controller, `remove_vehicle(find_vehicle_index(uid))`:
   * the identifier leaves the registry and the others stay; for an absent
   * identifier it changes nothing.
   */
  lemma RemoveByUid(vs: seq<Uid>, uid: Uid)
    requires NoDuplicates(vs)
    ensures uid !in vs ==> RemoveAt(vs, IndexOf(vs, uid)) == vs
    ensures uid in vs ==> |RemoveAt(vs, IndexOf(vs, uid))| == |vs| - 1
    ensures forall x :: x in RemoveAt(vs, IndexOf(vs, uid)) <==> x in vs && x != uid
    ensures NoDuplicates(RemoveAt(vs, IndexOf(vs, uid)))
  {
    if uid in vs {
      RemoveAtKeepsNoDuplicates(vs, IndexOf(vs, uid));
    }
  }
}
