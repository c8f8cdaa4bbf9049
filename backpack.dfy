/**
 * The backpack: an ordered list of saved materials with unique ids, kept in
 * component state and mirrored into one local-storage slot ("backpackItems").
 */
module Backpack {
  import opened Types
  import opened Wrappers
  import opened Sequences

  /** `items.some(item => item.id === id)`. */
  function SomeHasId(items: seq<Material>, id: string): (found: bool)
    ensures found <==> exists i :: 0 <= i < |items| && items[i].id == id
  {
    if items == [] then false
    else items[0].id == id || SomeHasId(items[1..], id)
  }

  /** The add update: `item` is appended unless an entry with its id is already present. */
  function AddIfAbsent(items: seq<Material>, item: Material): (r: seq<Material>)
    ensures SomeHasId(r, item.id)
    ensures |items| <= |r| <= |items| + 1 && r[..|items|] == items
    ensures |r| == |items| + 1 <==> !SomeHasId(items, item.id)
    ensures |r| == |items| + 1 ==> r[|items|] == item
  {
    if !SomeHasId(items, item.id) then
      var r := items + [item];
      assert r[|items|].id == item.id;
      r
    else items
  }

  /** The remove update: `items.filter(item => item.id !== id)`. */
  function RemoveById(items: seq<Material>, id: string): (r: seq<Material>)
    ensures !SomeHasId(r, id)
    ensures forall x :: x in r <==> x in items && x.id != id
  {
    if items == [] then []
    else if items[0].id != id then [items[0]] + RemoveById(items[1..], id)
    else RemoveById(items[1..], id)
  }

  /** The storage slot after the persist effect: cleared for an empty list, the list otherwise. */
  function Persisted(items: seq<Material>): Option<seq<Material>> {
    if |items| > 0 then Some(items) else None
  }

  /** The list after the load effect: the stored list when the slot is set, the current list otherwise. */
  function Loaded(stored: Option<seq<Material>>, current: seq<Material>): seq<Material> {
    if stored.Some? then stored.value else current
  }

  /** Adding twice is adding once. */
  lemma AddIdempotent(items: seq<Material>, item: Material)
    ensures AddIfAbsent(AddIfAbsent(items, item), item) == AddIfAbsent(items, item)
  {
  }

  /** Adding keeps the ids pairwise distinct. */
  lemma AddKeepsIdsUnique(items: seq<Material>, item: Material)
    requires UniqueIds(items)
    ensures UniqueIds(AddIfAbsent(items, item))
  {
  }

  /** Removing an id that is not present changes nothing. */
  lemma {:induction false} RemoveAbsentIsIdentity(items: seq<Material>, id: string)
    requires !SomeHasId(items, id)
    ensures RemoveById(items, id) == items
  {
    if items != [] {
      RemoveAbsentIsIdentity(items[1..], id);
      assert items == [items[0]] + items[1..];
    }
  }

  /** Removing only drops entries: the rest keep their relative order. */
  lemma {:induction false} RemoveIsSubsequence(items: seq<Material>, id: string)
    ensures IsSubsequence(RemoveById(items, id), items)
  {
    if items != [] {
      RemoveIsSubsequence(items[1..], id);
    }
  }

  /** Nothing else changes: every entry with another id keeps its multiplicity, entries with `id` are gone. */
  lemma {:induction false} RemoveCounts(items: seq<Material>, id: string, x: Material)
    ensures multiset(RemoveById(items, id))[x] == if x.id == id then 0 else multiset(items)[x]
  {
    if items != [] {
      RemoveCounts(items[1..], id, x);
      assert items == [items[0]] + items[1..];
    }
  }

  /** Removing keeps the ids pairwise distinct. */
  lemma {:induction false} RemoveKeepsIdsUnique(items: seq<Material>, id: string)
    requires UniqueIds(items)
    ensures UniqueIds(RemoveById(items, id))
  {
    if items != [] {
      RemoveKeepsIdsUnique(items[1..], id);
      var rest := RemoveById(items[1..], id);
      if items[0].id != id {
        var r := [items[0]] + rest;
        forall i, j | 0 <= i < j < |r| ensures r[i].id != r[j].id {
          if i == 0 {
            assert r[j] in rest;
            assert r[j] in items[1..];
          }
        }
      }
    }
  }

  /** A persisted list is loaded back unchanged on the next mount, whose list starts empty. */
  lemma PersistThenLoad(items: seq<Material>)
    ensures Loaded(Persisted(items), []) == items
  {
  }

  /** The provider's state: the list and the storage slot it persists to. */
  class BackpackProvider {
    var items: seq<Material>
    var store: Option<seq<Material>>

    /** The slot mirrors the list (what the persist effect establishes). */
    ghost predicate Valid()
      reads this
    {
      store == Persisted(items)
    }

    /** Mounting: the list starts empty, the load effect reads the slot, the persist effect writes it back. */
    constructor (stored: Option<seq<Material>>)
      ensures items == Loaded(stored, [])
      ensures Valid()
    {
      items := [];
      store := stored;
      new;
      Load();
      Persist();
    }

    /**
     * The load effect: a set slot replaces the list. It runs once, at mount, from the
     * constructor; the slot is in sync with the list only after the `Persist` that follows.
     */
    method Load()
      modifies this`items
      ensures items == Loaded(store, old(items))
    {
      if store.Some? {
        items := store.value;
      }
    }

    /** The persist effect: a non-empty list is written, an empty one clears a set slot. */
    method Persist()
      modifies this`store
      ensures store == Persisted(items)
      ensures store.None? <==> items == []
    {
      if |items| > 0 {
        store := Some(items);
      } else if store.Some? {
        store := None;
      }
    }

    /**
     * Adds the item unless an entry has its id. When one does, the source keeps the same
     * array and the persist effect does not run; from a `Valid()` state the `Persist` here
     * then leaves the slot as it was.
     */
    method AddToBackpack(item: Material)
      requires Valid()
      modifies this
      ensures items == AddIfAbsent(old(items), item)
      ensures old(UniqueIds(items)) ==> UniqueIds(items)
      ensures Valid()
    {
      if UniqueIds(items) {
        AddKeepsIdsUnique(items, item);
      }
      if !SomeHasId(items, item.id) {
        items := items + [item];
      }
      Persist();
    }

    /** Removes every entry with the id; the persist effect then mirrors the new list. */
    method RemoveFromBackpack(id: string)
      requires Valid()
      modifies this
      ensures items == RemoveById(old(items), id)
      ensures old(UniqueIds(items)) ==> UniqueIds(items)
      ensures Valid()
    {
      if UniqueIds(items) {
        RemoveKeepsIdsUnique(items, id);
      }
      items := RemoveById(items, id);
      Persist();
    }

    /** Whether some entry of the current list has the id. */
    method IsItemInBackpack(id: string) returns (inBackpack: bool)
      ensures inBackpack <==> exists i :: 0 <= i < |items| && items[i].id == id
    {
      inBackpack := SomeHasId(items, id);
    }
  }
}
