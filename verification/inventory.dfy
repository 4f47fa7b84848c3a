/** Itemised reward counts (Assets/Scripts/Systems/RewardInventory.cs).
    The dictionary becomes a `map` field; a ghost log of the slices handed
    to `Add` since the last `Reset` gives the specification of its contents. */
module Inventory {
  import opened WheelData

  /** One inventory line. The view-only `IconRenderer` field is never
      written by the core and is not modelled. */
  datatype Entry = Entry(id: string, icon: Option<Icon>, count: int)

  /** A null or empty slice id is filed under "_anon". */
  function KeyOf(id: Option<string>): (k: string)
    ensures k == "_anon" <==> (id == None || id == Some("") || id == Some("_anon"))
    ensures id.Some? && id.value != "" ==> k == id.value
  {
    match id
    case None => "_anon"
    case Some(s) => if s == "" then "_anon" else s
  }

  predicate CountsFor(slice: SliceDef, key: string) {
    slice.kind == Reward && KeyOf(slice.id) == key
  }

  /** The dictionary after one `Add`: only Reward slices are recorded;
      the entry is created on first use, its count grows by the value,
      and its icon is replaced only by a non-null one. */
  function AddTo(m: map<string, Entry>, slice: SliceDef): map<string, Entry> {
    if slice.kind != Reward then m
    else
      var key := KeyOf(slice.id);
      var e := if key in m then m[key] else Entry(key, slice.icon, 0);
      m[key := e.(count := e.count + slice.value,
                  icon := if slice.icon.Some? then slice.icon else e.icon)]
  }

  /** The dictionary built by adding `log` in order to an empty one. */
  function Tally(log: seq<SliceDef>): map<string, Entry>
    decreases |log|
  {
    if log == [] then map[] else AddTo(Tally(log[..|log| - 1]), log[|log| - 1])
  }

  /** Whether some Reward slice in `log` was filed under `key`. */
  predicate Seen(log: seq<SliceDef>, key: string)
    decreases |log|
  {
    log != [] && (Seen(log[..|log| - 1], key) || CountsFor(log[|log| - 1], key))
  }

  /** Sum of the values of the Reward slices in `log` filed under `key`. */
  function CountFor(log: seq<SliceDef>, key: string): int
    decreases |log|
  {
    if log == [] then 0
    else CountFor(log[..|log| - 1], key) + (if CountsFor(log[|log| - 1], key) then log[|log| - 1].value else 0)
  }

  /** The last non-null icon among the Reward slices in `log` filed under `key`. */
  function IconFor(log: seq<SliceDef>, key: string): Option<Icon>
    decreases |log|
  {
    if log == [] then None
    else if CountsFor(log[|log| - 1], key) && log[|log| - 1].icon.Some? then log[|log| - 1].icon
    else IconFor(log[..|log| - 1], key)
  }

  /** Direct effect of one `Add`. */
  lemma AddToEffect(m: map<string, Entry>, slice: SliceDef)
    ensures slice.kind != Reward ==> AddTo(m, slice) == m
    ensures slice.kind == Reward ==>
      var key := KeyOf(slice.id);
      var m' := AddTo(m, slice);
      && m'.Keys == m.Keys + {key}
      && (forall k :: k in m && k != key ==> m'[k] == m[k])
      && m'[key].count == (if key in m then m[key].count else 0) + slice.value
      && (key !in m ==> m'[key].id == key && m'[key].count == slice.value)
      && (key in m ==> m'[key].id == m[key].id)
      && m'[key].icon == (if slice.icon.Some? then slice.icon else if key in m then m[key].icon else None)
  {
  }

  /** The dictionary holds one entry per key filed since the last reset,
      with that key as its id, the sum of the key's Reward values as its
      count, and the last non-null icon seen for the key. */
  lemma {:induction false} TallyContents(log: seq<SliceDef>, key: string)
    ensures key in Tally(log) <==> Seen(log, key)
    ensures key in Tally(log) ==> Tally(log)[key] == Entry(key, IconFor(log, key), CountFor(log, key))
    ensures !Seen(log, key) ==> CountFor(log, key) == 0 && IconFor(log, key) == None
    decreases |log|
  {
    if log != [] {
      TallyContents(log[..|log| - 1], key);
    }
  }

  /** Every entry of a tally is filed under its own id and holds that key's
      history. */
  lemma TallyKeyed(log: seq<SliceDef>)
    ensures forall key :: key in Tally(log) ==>
      Seen(log, key) && Tally(log)[key] == Entry(key, IconFor(log, key), CountFor(log, key))
  {
    forall key | key in Tally(log)
      ensures Seen(log, key) && Tally(log)[key] == Entry(key, IconFor(log, key), CountFor(log, key))
    {
      TallyContents(log, key);
    }
  }

  /** `r` lists the entries of `m`, each once, in some order. */
  predicate IsSnapshotOf(r: seq<Entry>, m: map<string, Entry>) {
    && |r| == |m|
    && (forall i :: 0 <= i < |r| ==> r[i].id in m && m[r[i].id] == r[i])
    && (forall i, j :: 0 <= i < j < |r| ==> r[i].id != r[j].id)
  }

  /** The ids a sequence of entries lists. */
  function IdsOf(r: seq<Entry>): (ids: set<string>)
    ensures forall i :: 0 <= i < |r| ==> r[i].id in ids
    ensures forall key :: key in ids ==> exists i :: 0 <= i < |r| && r[i].id == key
  {
    if r == [] then {} else IdsOf(r[..|r| - 1]) + {r[|r| - 1].id}
  }

  /** Distinct ids are as many as the entries. */
  lemma {:induction false} IdsOfDistinct(r: seq<Entry>)
    requires forall i, j :: 0 <= i < j < |r| ==> r[i].id != r[j].id
    ensures |IdsOf(r)| == |r|
  {
    if r != [] {
      var front := r[..|r| - 1];
      IdsOfDistinct(front);
      assert r[|r| - 1].id !in IdsOf(front);
    }
  }

  /** A subset is no larger than its superset. */
  lemma {:induction false} SubsetNoLarger(a: set<string>, b: set<string>)
    requires a <= b
    ensures |a| <= |b|
    decreases a
  {
    if a != {} {
      var y :| y in a;
      SubsetNoLarger(a - {y}, b - {y});
    }
  }

  /** A subset as large as its superset is the whole superset. */
  lemma SubsetOfSameSize(a: set<string>, b: set<string>)
    requires a <= b && |a| == |b|
    ensures a == b
  {
    if x :| x in b && x !in a {
      SubsetNoLarger(a, b - {x});
    }
  }

  /** A snapshot leaves no key out: the ids are distinct keys of `m`, and as
      many as `m` has. */
  lemma SnapshotCovers(r: seq<Entry>, m: map<string, Entry>)
    requires IsSnapshotOf(r, m)
    ensures IdsOf(r) == m.Keys
    ensures forall key :: key in m ==> exists i :: 0 <= i < |r| && r[i].id == key
  {
    IdsOfDistinct(r);
    SubsetOfSameSize(IdsOf(r), m.Keys);
  }

  /** The snapshot of an emptied inventory is empty. */
  lemma SnapshotOfEmpty(r: seq<Entry>)
    requires IsSnapshotOf(r, map[])
    ensures r == []
  {
  }

  /** `r` lists the entries of `m` under the keys in `done`, each once. */
  predicate ListsKeys(r: seq<Entry>, m: map<string, Entry>, done: set<string>) {
    && |r| == |done|
    && (forall i :: 0 <= i < |r| ==> r[i].id in done && r[i].id in m && m[r[i].id] == r[i])
    && (forall i, j :: 0 <= i < j < |r| ==> r[i].id != r[j].id)
  }

  /** Appending the entry of an unlisted key lists one key more. */
  lemma ListedOneMore(m: map<string, Entry>, r: seq<Entry>, done: set<string>, k: string)
    requires k in m && m[k].id == k && k !in done && ListsKeys(r, m, done)
    ensures ListsKeys(r + [m[k]], m, done + {k})
  {
    assert |done + {k}| == |done| + 1;
  }

  /** The values of a map whose entries are filed under their own ids, one
      per key, in no particular order. */
  method ListEntries(m: map<string, Entry>) returns (r: seq<Entry>)
    requires forall key :: key in m ==> m[key].id == key
    ensures IsSnapshotOf(r, m)
  {
    var remaining := m.Keys;
    ghost var done: set<string> := {};
    r := [];
    while remaining != {}
      invariant remaining + done == m.Keys && remaining !! done
      invariant ListsKeys(r, m, done)
      decreases remaining
    {
      var k :| k in remaining;
      ListedOneMore(m, r, done, k);
      r := r + [m[k]];
      remaining := remaining - {k};
      done := done + {k};
    }
    assert done == m.Keys;
  }

  class RewardInventory {
    var entries: map<string, Entry>
    ghost var added: seq<SliceDef>

    ghost predicate Valid()
      reads this
    {
      entries == Tally(added)
    }

    constructor ()
      ensures Valid() && entries == map[] && added == []
    {
      entries := map[];
      added := [];
    }

    method Add(slice: SliceDef)
      requires Valid()
      modifies this
      ensures Valid() && added == old(added) + [slice]
      ensures entries == AddTo(old(entries), slice)
    {
      added := added + [slice];
      assert added[..|added| - 1] == old(added);
      if slice.kind != Reward {
        return;
      }
      var key := KeyOf(slice.id);
      var e := if key in entries then entries[key] else Entry(key, slice.icon, 0);
      e := e.(count := e.count + slice.value);
      e := e.(icon := if slice.icon.Some? then slice.icon else e.icon);
      entries := entries[key := e];
    }

    method Reset()
      modifies this
      ensures Valid() && entries == map[] && added == []
    {
      entries := map[];
      added := [];
    }

    /** A copy of the entries, one per key, in no particular order. */
    method Snapshot() returns (r: seq<Entry>)
      requires Valid()
      ensures IsSnapshotOf(r, entries)
      ensures forall i :: 0 <= i < |r| ==>
        Seen(added, r[i].id) && r[i] == Entry(r[i].id, IconFor(added, r[i].id), CountFor(added, r[i].id))
    {
      TallyKeyed(added);
      r := ListEntries(entries);
    }
  }
}
