/**
 * The journal: the discovery ledger shared by all regions, its open/closed
 * flag, and the bridge to the persisted list of discovered ids.
 */
module Journals {
  import opened Wrappers
  import Content

  datatype JournalEntry = JournalEntry(
    id: string,
    name: string,
    region: string,
    description: string,
    discovered: bool)

  /**
   * No id occurs twice in `s`. It is stated one element at a time from the
   * end, so a proof unfolds it only as far as it needs.
   */
  predicate NoDuplicates(s: seq<string>)
    decreases |s|
  {
    s == [] || (s[|s| - 1] !in s[..|s| - 1] && NoDuplicates(s[..|s| - 1]))
  }

  /** Two positions of a list without duplicates hold different ids. */
  lemma {:induction false} NoDuplicatesAt(s: seq<string>, i: int, j: int)
    requires NoDuplicates(s) && 0 <= i < j < |s|
    ensures s[i] != s[j]
    decreases |s|
  {
    var init := s[..|s| - 1];
    if j < |s| - 1 {
      NoDuplicatesAt(init, i, j);
    } else {
      assert init[i] == s[i];
    }
  }

  /** A list whose positions pairwise hold different ids has no duplicates. */
  lemma {:induction false} PairwiseNoDuplicates(s: seq<string>)
    requires forall i, j :: 0 <= i < j < |s| ==> s[i] != s[j]
    ensures NoDuplicates(s)
    decreases |s|
  {
    if s != [] {
      var init := s[..|s| - 1];
      PairwiseNoDuplicates(init);
    }
  }

  /** Appending an id not yet present keeps a list free of duplicates. */
  lemma NoDuplicatesSnoc(s: seq<string>, x: string)
    requires NoDuplicates(s) && x !in s
    ensures NoDuplicates(s + [x])
  {
    assert (s + [x])[..|s|] == s;
  }

  /**
   * An insertion-ordered map from entity id to journal entry, as a JavaScript
   * `Map` behaves: `keys` lists the keys in the order they were first set.
   */
  datatype EntryMap = EntryMap(keys: seq<string>, values: map<string, JournalEntry>)
  {
    ghost predicate Valid()
    {
      && NoDuplicates(keys)
      && (forall k :: k in values <==> k in keys)
      && (forall k :: k in values ==> values[k].id == k)
    }

    /** `map.get(id)`. */
    function Get(id: string): Option<JournalEntry>
    {
      if id in values then Some(values[id]) else None
    }

    /**
     * `map.set(e.id, e)`: a new key goes to the end, a key already present
     * keeps its position and takes the new entry.
     */
    function Set(e: JournalEntry): (m: EntryMap)
      ensures Valid() ==> m.Valid()
      ensures m.Get(e.id) == Some(e)
      ensures forall k :: k != e.id ==> m.Get(k) == Get(k)
      ensures e.id in values ==> m.keys == keys
      ensures e.id !in values ==> m.keys == keys + [e.id]
    {
      if e.id in values then EntryMap(keys, values[e.id := e])
      else
        assert (keys + [e.id])[..|keys|] == keys;
        EntryMap(keys + [e.id], values[e.id := e])
    }

    /** The map after the entry for `id`, if there is one, has had its flag set. */
    function Marked(id: string): (m: EntryMap)
      ensures Valid() ==> m.Valid()
      ensures m.keys == keys && m.values.Keys == values.Keys
      ensures id in values ==> m.values[id] == values[id].(discovered := true)
      ensures forall k :: k in values && k != id ==> m.values[k] == values[k]
    {
      if id in values then EntryMap(keys, values[id := values[id].(discovered := true)]) else this
    }

    /** The map after every known id of `ids` has been marked. */
    function MarkedAll(ids: seq<string>): (m: EntryMap)
      ensures Valid() ==> m.Valid()
      ensures m.keys == keys && m.values.Keys == values.Keys
    {
      EntryMap(keys, map k | k in values :: if k in ids then values[k].(discovered := true) else values[k])
    }

    /**
     * The map after `set` of each entry of `es` in turn: the last entry given
     * for an id wins, and every id not among `es` keeps its entry.
     */
    function SetAll(es: seq<JournalEntry>): (m: EntryMap)
      ensures Valid() ==> m.Valid()
      decreases |es|
    {
      if es == [] then this
      else SetAll(es[..|es| - 1]).Set(es[|es| - 1])
    }

    /** The ids of the discovered entries, in key order. */
    function DiscoveredIds(): seq<string>
    {
      DiscoveredAmong(keys)
    }

    /** The keys of `ks` whose entry is discovered, in the order of `ks`. */
    function DiscoveredAmong(ks: seq<string>): seq<string>
    {
      if ks == [] then []
      else
        var last := ks[|ks| - 1];
        DiscoveredAmong(ks[..|ks| - 1]) + (if last in values && values[last].discovered then [last] else [])
    }
  }

  const EMPTY: EntryMap := EntryMap([], map[])

  /** An id is listed exactly when it is a key whose entry is discovered. */
  lemma {:induction false} DiscoveredAmongMembers(m: EntryMap, ks: seq<string>, x: string)
    ensures x in m.DiscoveredAmong(ks) <==> x in ks && x in m.values && m.values[x].discovered
  {
    if ks != [] {
      DiscoveredAmongMembers(m, ks[..|ks| - 1], x);
      assert ks == ks[..|ks| - 1] + [ks[|ks| - 1]];
    }
  }

  /** Distinct keys give a list without repetition. */
  lemma {:induction false} DiscoveredAmongDistinct(m: EntryMap, ks: seq<string>)
    requires NoDuplicates(ks)
    ensures NoDuplicates(m.DiscoveredAmong(ks))
  {
    if ks != [] {
      var init, last := ks[..|ks| - 1], ks[|ks| - 1];
      DiscoveredAmongDistinct(m, init);
      DiscoveredAmongMembers(m, init, last);
      if last in m.values && m.values[last].discovered {
        NoDuplicatesSnoc(m.DiscoveredAmong(init), last);
      } else {
        assert m.DiscoveredAmong(ks) == m.DiscoveredAmong(init);
      }
    }
  }

  /**
   * The saved list holds exactly the discovered entries, once each: an id
   * that has no entry in the map is never written.
   */
  lemma DiscoveredIdsExact(m: EntryMap, x: string)
    requires m.Valid()
    ensures x in m.DiscoveredIds() <==> x in m.values && m.values[x].discovered
    ensures NoDuplicates(m.DiscoveredIds())
  {
    DiscoveredAmongMembers(m, m.keys, x);
    DiscoveredAmongDistinct(m, m.keys);
  }

  /** After `SetAll`, an id not among the entries keeps its entry. */
  lemma {:induction false} SetAllKeeps(m: EntryMap, es: seq<JournalEntry>, k: string)
    requires forall e :: e in es ==> e.id != k
    ensures m.SetAll(es).Get(k) == m.Get(k)
    decreases |es|
  {
    if es != [] {
      var init := es[..|es| - 1];
      assert forall e :: e in init ==> e in es;
      SetAllKeeps(m, init, k);
    }
  }

  /** After `SetAll`, the last entry given for an id is the one stored. */
  lemma {:induction false} SetAllLastWins(m: EntryMap, es: seq<JournalEntry>, i: int)
    requires 0 <= i < |es| && forall j :: i < j < |es| ==> es[j].id != es[i].id
    ensures m.SetAll(es).Get(es[i].id) == Some(es[i])
    decreases |es|
  {
    var init := es[..|es| - 1];
    if i < |es| - 1 {
      SetAllLastWins(m, init, i);
    }
  }

  /** The ids of `es`, in order. */
  function EntryIds(es: seq<JournalEntry>): (ids: seq<string>)
    ensures |ids| == |es| && forall i :: 0 <= i < |es| ==> ids[i] == es[i].id
  {
    seq(|es|, i requires 0 <= i < |es| => es[i].id)
  }

  /** Setting entries with distinct ids not in the map yet appends those ids to the key order. */
  lemma {:induction false} SetAllAppends(m: EntryMap, es: seq<JournalEntry>)
    requires NoDuplicates(EntryIds(es))
    requires forall i :: 0 <= i < |es| ==> es[i].id !in m.values
    ensures m.SetAll(es).keys == m.keys + EntryIds(es)
    decreases |es|
  {
    if es != [] {
      var init := es[..|es| - 1];
      var last := es[|es| - 1];
      assert EntryIds(es)[..|es| - 1] == EntryIds(init);
      SetAllAppends(m, init);
      SetAllKeeps(m, init, last.id);
      assert EntryIds(es) == EntryIds(init) + [last.id];
    }
  }

  /** Marking a list with one more id is marking the list, then that id. */
  lemma MarkedAllSnoc(m: EntryMap, ids: seq<string>, id: string)
    ensures m.MarkedAll(ids + [id]) == m.MarkedAll(ids).Marked(id)
  {
    var a, b := m.MarkedAll(ids + [id]), m.MarkedAll(ids).Marked(id);
    assert forall k :: k in m.values ==> a.values[k] == b.values[k];
  }

  /** Marking is idempotent. */
  lemma MarkedIdempotent(m: EntryMap, id: string)
    ensures m.Marked(id).Marked(id) == m.Marked(id)
  {
  }

  /** `loadProgress`: the stored list, or the empty list when nothing usable is stored. */
  function LoadProgress(store: Option<seq<string>>): (ids: seq<string>)
    ensures store.None? ==> ids == []
    ensures store.Some? ==> ids == store.value
  {
    match store
    case None => []
    case Some(saved) => saved
  }

  /**
   * The effect on the journal of the orchestrator's `loadSavedProgress`: each
   * persisted id is marked in turn, and each mark of a known id rewrites the
   * store with the discovered ids then in the map.
   */
  function Reconciled(m: EntryMap, store: Option<seq<string>>): (r: (EntryMap, Option<seq<string>>))
  {
    var ids := LoadProgress(store);
    (m.MarkedAll(ids), MarkedStore(m, ids, store))
  }

  /**
   * The store after the ids of `ids` have been marked one by one in `m`:
   * rewritten with the discovered ids as soon as one of them is known,
   * otherwise as it was.
   */
  function MarkedStore(m: EntryMap, ids: seq<string>, store: Option<seq<string>>): Option<seq<string>>
  {
    if exists id :: id in ids && id in m.values then Some(m.MarkedAll(ids).DiscoveredIds()) else store
  }

  /**
   * One step of the reconciling loop: `markDiscovered(id)` on the journal
   * reached after a prefix of the ids gives the journal after the prefix and `id`.
   */
  lemma MarkStep(m: EntryMap, ids: seq<string>, id: string, store: Option<seq<string>>)
    ensures var before := m.MarkedAll(ids);
      && (id in before.values ==>
        before.Marked(id) == m.MarkedAll(ids + [id]) &&
        Some(before.Marked(id).DiscoveredIds()) == MarkedStore(m, ids + [id], store))
      && (id !in before.values ==>
        before == m.MarkedAll(ids + [id]) && MarkedStore(m, ids, store) == MarkedStore(m, ids + [id], store))
  {
    MarkedAllSnoc(m, ids, id);
    assert id in ids + [id];
    assert forall x :: x in ids ==> x in ids + [id];
    assert forall x :: x in ids + [id] ==> x in ids || x == id;
  }

  /**
   * Reconciling drops from the store every persisted id whose entry is not in
   * the map yet, as soon as one persisted id is known; known ones are kept.
   */
  lemma ReconcileDropsUnknown(m: EntryMap, store: Option<seq<string>>, known: string, x: string)
    requires m.Valid() && store.Some?
    requires known in store.value && known in m.values
    ensures var (m', store') := Reconciled(m, store);
      store'.Some? &&
      (x in store'.value <==> x in m.values && (x in store.value || m.values[x].discovered))
  {
    var (m', store') := Reconciled(m, store);
    DiscoveredIdsExact(m', x);
  }

  /** Without any known persisted id, reconciling changes neither map nor store. */
  lemma ReconcileWithoutKnownIds(m: EntryMap, store: Option<seq<string>>)
    requires forall id :: id in LoadProgress(store) ==> id !in m.values
    ensures Reconciled(m, store) == (m, store)
  {
    assert m.MarkedAll(LoadProgress(store)) == m;
  }

  /** Reconciling twice is the same as reconciling once. */
  lemma ReconcileIdempotent(m: EntryMap, store: Option<seq<string>>)
    requires m.Valid()
    ensures var (m1, s1) := Reconciled(m, store); Reconciled(m1, s1) == (m1, s1)
  {
    var (m1, s1) := Reconciled(m, store);
    var ids := LoadProgress(store);
    if exists id :: id in ids && id in m.values {
      var ids1 := m1.DiscoveredIds();
      forall x | x in ids1 ensures x in m1.values && m1.values[x].discovered {
        DiscoveredIdsExact(m1, x);
      }
      assert m1.MarkedAll(ids1) == m1;
    } else {
      assert m1 == m;
      ReconcileWithoutKnownIds(m, store);
    }
  }

  /**
   * A concrete case: the journal holds only the forest entries, the store
   * lists a forest id and an ice id; after reconciling, the ice id is gone.
   */
  lemma ReloadForgetsLaterRegion()
    ensures var cat := JournalEntry("forest_cat", "Forest Cat", "forest", "", false);
      var m := EMPTY.Set(cat);
      var (m', store') := Reconciled(m, Some(["forest_cat", "ice_fox"]));
      store' == Some(["forest_cat"]) && m'.values["forest_cat"].discovered
  {
    var cat := JournalEntry("forest_cat", "Forest Cat", "forest", "", false);
    var m := EMPTY.Set(cat);
    var m' := m.MarkedAll(["forest_cat", "ice_fox"]);
    assert "forest_cat" in ["forest_cat", "ice_fox"];
    assert m'.keys == ["forest_cat"];
    assert m'.DiscoveredIds() == m'.DiscoveredAmong([]) + ["forest_cat"];
  }

  /** `formatRegionName`: the display name of the four region ids, any other id unchanged. */
  function FormatRegionName(regionId: string): (name: string)
    ensures regionId in Content.REGIONS ==> name == Content.REGIONS[regionId].name
    ensures regionId !in Content.REGIONS ==> name == regionId
  {
    var names := map[
      "forest" := "The Forest",
      "ice" := "The Frozen Wastes",
      "ruins" := "The Ancient Ruins",
      "void" := "The Void"];
    if regionId in names then names[regionId] else regionId
  }

  const HIDDEN_TEXT: string := "This knowledge remains hidden in shadow..."

  /** What the journal panel shows for one entry. */
  datatype Card = Card(title: string, regionLabel: string, description: string, locked: bool)

  /** A discovered entry shows its own text; an undiscovered one shows only placeholders. */
  function CardOf(e: JournalEntry): (c: Card)
    ensures c.locked <==> !e.discovered
    ensures c.locked ==> c == Card("???", "Unknown", HIDDEN_TEXT, true)
    ensures !c.locked ==> c.title == e.name && c.description == e.description
    ensures !c.locked && e.region in Content.REGIONS ==> c.regionLabel == Content.REGIONS[e.region].name
  {
    if e.discovered then Card(e.name, FormatRegionName(e.region), e.description, false)
    else Card("???", "Unknown", HIDDEN_TEXT, true)
  }

  class Journal {
    var entries: EntryMap
    var isOpen: bool
    /** The persisted slot `shadowArchive_discovered`: None when absent or unparsable. */
    var store: Option<seq<string>>

    ghost predicate Valid()
      reads this`entries
    {
      entries.Valid()
    }

    /** The constructor's own `loadProgress()` call discards its result, so it is not repeated here. */
    constructor (stored: Option<seq<string>>)
      ensures Valid() && entries.keys == [] && entries.values == map[] && !isOpen && store == stored
    {
      entries := EMPTY;
      isOpen := false;
      store := stored;
    }

    method AddEntry(entry: JournalEntry)
      requires Valid()
      modifies this`entries
      ensures Valid()
      ensures entries == old(entries).Set(entry)
    {
      entries := entries.Set(JournalEntry(entry.id, entry.name, entry.region, entry.description, entry.discovered));
    }

    method MarkDiscovered(id: string) returns (r: Option<JournalEntry>)
      requires Valid()
      modifies this`entries, this`store
      ensures Valid()
      ensures id in old(entries.values) ==>
        && entries == old(entries).Marked(id)
        && store == Some(entries.DiscoveredIds())
        && r == Some(entries.values[id]) && r.value.discovered
      ensures id !in old(entries.values) ==> entries == old(entries) && store == old(store) && r == None
    {
      var entry := entries.Get(id);
      if entry.Some? {
        entries := entries.Marked(id);
        SaveProgress();
        return Some(entries.values[id]);
      }
      return None;
    }

    function IsDiscovered(id: string): (b: bool)
      reads this
      ensures b ==> id in entries.values
      ensures id in entries.values ==> b == entries.values[id].discovered
    {
      match entries.Get(id)
      case Some(e) => e.discovered
      case None => false
    }

    method Toggle()
      modifies this`isOpen
      ensures isOpen == !old(isOpen)
    {
      if isOpen {
        Close();
      } else {
        Open();
      }
    }

    method Open()
      modifies this`isOpen
      ensures isOpen
    {
      isOpen := true;
    }

    method Close()
      modifies this`isOpen
      ensures !isOpen
    {
      isOpen := false;
    }

    /** The `forEach` loop of `saveProgress`: the discovered ids in key order. */
    method DiscoveredList() returns (ids: seq<string>)
      requires Valid()
      ensures ids == entries.DiscoveredIds()
    {
      ids := [];
      var i := 0;
      while i < |entries.keys|
        invariant 0 <= i <= |entries.keys|
        invariant ids == entries.DiscoveredAmong(entries.keys[..i])
      {
        var k := entries.keys[i];
        assert entries.keys[..i + 1][..i] == entries.keys[..i];
        if k in entries.values && entries.values[k].discovered {
          ids := ids + [entries.values[k].id];
        }
        i := i + 1;
      }
      assert entries.keys[..i] == entries.keys;
    }

    /** Writes the discovered ids, replacing whatever was stored. */
    method SaveProgress()
      requires Valid()
      modifies this`store
      ensures store == Some(entries.DiscoveredIds())
    {
      var ids := DiscoveredList();
      store := Some(ids);
    }

    /** `loadProgress` and `getDiscoveredIds`. */
    function GetDiscoveredIds(): (ids: seq<string>)
      reads this
      ensures store.None? ==> ids == []
      ensures store.Some? ==> ids == store.value
    {
      LoadProgress(store)
    }
  }
}
