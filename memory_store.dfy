/**
 * The file-backed conversation memory store (`api/server/memory/store.ts`): one JSON file
 * mapping conversation ids to their memory items, read once into a cache and rewritten
 * whole, through a temporary file and a rename, after every change.
 */
module MemoryStore {
  import opened Wrappers
  import opened Strings
  import opened Seqs
  import opened Disk

  datatype MemoryItem = MemoryItem(id: string, conversationId: string, content: string, timestamp: nat, enabled: bool)

  /** The fields an update may set; `id` and `conversationId` in an update are always overridden. */
  datatype ItemPatch = ItemPatch(content: Option<string>, timestamp: Option<nat>, enabled: Option<bool>)

  /** The whole file: conversation id to its items, oldest first. */
  type Store = map<string, seq<MemoryItem>>

  function ItemId(item: MemoryItem): string { item.id }
  function IsEnabled(item: MemoryItem): bool { item.enabled }

  /** `store[conversationId] || []`. */
  function ItemsOf(s: Store, c: string): (r: seq<MemoryItem>)
    ensures c !in s ==> r == []
    ensures c in s ==> r == s[c]
  {
    if c in s then s[c] else []
  }

  /** `mem_<now>_<suffix>`, where the suffix stands for the random base-36 characters. */
  function MemoryId(now: nat, suffix: string): (r: string)
    ensures StartsWith(r, "mem_") && EndsWith(r, "_" + suffix)
  {
    var r := "mem_" + DecimalString(now) + "_" + suffix;
    assert r[|r| - |"_" + suffix|..] == "_" + suffix;
    r
  }

  /** The item `addMemoryItem` creates: enabled, stamped with the current time. */
  function NewItem(c: string, content: string, now: nat, suffix: string): (r: MemoryItem)
    ensures r.conversationId == c && r.content == content && r.timestamp == now && r.enabled
    ensures StartsWith(r.id, "mem_")
  {
    MemoryItem(MemoryId(now, suffix), c, content, now, true)
  }

  /** `{...item, ...updates, id: item.id, conversationId: item.conversationId}`. */
  function Patched(item: MemoryItem, p: ItemPatch): (r: MemoryItem)
    ensures r.id == item.id && r.conversationId == item.conversationId
    ensures p.content.None? ==> r.content == item.content
    ensures p.timestamp.None? ==> r.timestamp == item.timestamp
    ensures p.enabled.None? ==> r.enabled == item.enabled
    ensures p.content.Some? ==> r.content == p.content.value
    ensures p.timestamp.Some? ==> r.timestamp == p.timestamp.value
    ensures p.enabled.Some? ==> r.enabled == p.enabled.value
  {
    MemoryItem(item.id, item.conversationId, p.content.GetOr(item.content),
               p.timestamp.GetOr(item.timestamp), p.enabled.GetOr(item.enabled))
  }

  /** Applying the same update twice is applying it once. */
  lemma PatchedIdempotent(item: MemoryItem, p: ItemPatch)
    ensures Patched(Patched(item, p), p) == Patched(item, p)
  {
  }

  /** The position of item `id` in conversation `c`, as `findIndex` finds it. */
  function FindItem(s: Store, c: string, id: string): (r: Option<nat>)
    ensures r.Some? ==> c in s && r.value < |s[c]| && s[c][r.value].id == id
    ensures r.Some? ==> forall j :: 0 <= j < r.value ==> s[c][j].id != id
    ensures r.None? ==> forall x :: x in ItemsOf(s, c) ==> x.id != id
  {
    if c in s then FindIndex(s[c], ItemId, id) else None
  }

  /** The store after `addMemoryItem` has pushed `item` onto its conversation's list. */
  function WithItem(s: Store, item: MemoryItem): (r: Store)
    ensures ItemsOf(r, item.conversationId) == ItemsOf(s, item.conversationId) + [item]
    ensures forall c :: c != item.conversationId ==> ItemsOf(r, c) == ItemsOf(s, c)
  {
    s[item.conversationId := ItemsOf(s, item.conversationId) + [item]]
  }

  /**
   * The store's invariant: every item sits under its own conversation id and no two items of
   * a conversation share an id.
   */
  ghost predicate WellFormed(s: Store) {
    forall c :: c in s ==> (forall x :: x in s[c] ==> x.conversationId == c) && DistinctKeys(s[c], ItemId)
  }

  /** Adding an item with an id new to its conversation keeps the store well formed. */
  lemma AddKeepsWellFormed(s: Store, item: MemoryItem)
    requires WellFormed(s)
    requires forall x :: x in ItemsOf(s, item.conversationId) ==> x.id != item.id
    ensures WellFormed(WithItem(s, item))
  {
    var c := item.conversationId;
    var t := ItemsOf(s, c) + [item];
    forall i, j | 0 <= i < j < |t| ensures t[i].id != t[j].id {
      if j == |t| - 1 {
        assert t[i] in ItemsOf(s, c);
      }
    }
  }

  /** Updating an item in place keeps the store well formed. */
  lemma UpdateKeepsWellFormed(s: Store, c: string, i: nat, p: ItemPatch)
    requires WellFormed(s) && c in s && i < |s[c]|
    ensures WellFormed(s[c := s[c][i := Patched(s[c][i], p)]])
  {
    var t := s[c][i := Patched(s[c][i], p)];
    forall x | x in t ensures x.conversationId == c {
      var m :| 0 <= m < |t| && t[m] == x;
      assert m != i ==> x == s[c][m];
    }
  }

  /** Deleting by id keeps the store well formed. */
  lemma DeleteKeepsWellFormed(s: Store, c: string, id: string)
    requires WellFormed(s) && c in s
    ensures WellFormed(s[c := Without(s[c], ItemId, id)])
  {
    WithoutKeepsDistinct(s[c], ItemId, id, ItemId);
  }

  /** Deleting a freshly added item gives back the conversation's items as they were. */
  lemma DeleteUndoesAdd(s: Store, item: MemoryItem)
    requires forall x :: x in ItemsOf(s, item.conversationId) ==> x.id != item.id
    ensures Without(ItemsOf(WithItem(s, item), item.conversationId), ItemId, item.id)
         == ItemsOf(s, item.conversationId)
  {
    var before := ItemsOf(s, item.conversationId);
    WithoutAppend(before, [item], ItemId, item.id);
    WithoutSameLength(before, ItemId, item.id);
  }

  /** The items `getEnabledMemoryItems` returns keep exactly the enabled ones. */
  lemma EnabledItems(items: seq<MemoryItem>, x: MemoryItem)
    ensures x in Only(items, IsEnabled, true) <==> x in items && x.enabled
  {
  }

  class FileBackedMemoryStore {
    const storePath: string
    const tempPath: string
    /** The parsed store, once `load` has run; `null` in the source until then. */
    var cache: Option<Store>
    /** The files under the store's directory. */
    var disk: Files<Store>

    ghost predicate Valid() {
      tempPath == storePath + ".tmp"
    }

    /** What `load` returns now: the cache when set, otherwise what the file parses to. */
    function Current(): Store
      reads this
    {
      if cache.Some? then cache.value else ValueOr(At(disk, storePath), map[])
    }

    /** The cache and the file agree (which a failed save breaks, the cache being changed in place). */
    ghost predicate Synced()
      reads this
    {
      cache.Some? ==> At(disk, storePath) == Value(cache.value)
    }

    /** `new FileBackedMemoryStore(storagePath)`; creating the directory is not modelled. */
    constructor(storagePath: Option<string>, cwd: string, files: Files<Store>)
      ensures Valid()
      ensures storePath == PathJoin(OrElse(storagePath, PathJoin(PathJoin(cwd, "data"), "memory")), "memory-store.json")
      ensures cache == None && disk == files
    {
      var baseDir := OrElse(storagePath, PathJoin(PathJoin(cwd, "data"), "memory"));
      storePath := PathJoin(baseDir, "memory-store.json");
      tempPath := PathJoin(baseDir, "memory-store.json.tmp");
      cache := None;
      disk := files;
    }

    /** `load()`: the cached store, or the file read into the cache (`{}` when missing or unreadable). */
    method Load() returns (store: Store)
      modifies this
      ensures store == old(Current())
      ensures cache == Some(store) && disk == old(disk)
    {
      if cache.Some? {
        return cache.value;
      }
      if storePath !in disk {
        cache := Some(map[]);
      } else if disk[storePath].Value? {
        cache := Some(disk[storePath].v);
      } else {
        cache := Some(map[]);
      }
      store := cache.value;
    }

    /** `save(store)`: write the temporary file, rename it over the store file, then cache; on failure remove the temporary file and rethrow. */
    method Save(store: Store, fault: SaveFault) returns (r: Result<(), SaveFault>)
      requires Valid()
      modifies this
      ensures r == if fault == NoFault then Ok(()) else Err(fault)
      ensures At(disk, storePath) == if fault == NoFault then Value(store) else At(old(disk), storePath)
      ensures At(disk, tempPath) == Missing
      ensures SameElsewhere(disk, old(disk), storePath, tempPath)
      ensures cache == if fault == NoFault then Some(store) else old(cache)
    {
      disk := AfterAtomicSave(disk, storePath, tempPath, store, fault);
      if fault == NoFault {
        cache := Some(store);
        return Ok(());
      }
      if tempPath in disk {
        disk := RemoveFile(disk, tempPath);
      }
      return Err(fault);
    }

    /** `getMemoryItems(conversationId)`. */
    method GetMemoryItems(c: string) returns (items: seq<MemoryItem>)
      modifies this
      ensures items == ItemsOf(old(Current()), c)
      ensures cache == Some(old(Current())) && disk == old(disk)
    {
      var store: Store := Load();
      items := ItemsOf(store, c);
    }

    /**
     * `addMemoryItem(conversationId, content)`. The item is pushed onto the cached store before
     * the save, so a failed save leaves it in the cache but not in the file.
     */
    method AddMemoryItem(c: string, content: string, now: nat, suffix: string, fault: SaveFault)
      returns (r: Result<MemoryItem, SaveFault>)
      requires Valid()
      modifies this
      ensures var after := WithItem(old(Current()), NewItem(c, content, now, suffix));
        && cache == Some(after)
        && At(disk, storePath) == (if fault == NoFault then Value(after) else At(old(disk), storePath))
      ensures r == if fault == NoFault then Ok(NewItem(c, content, now, suffix)) else Err(fault)
      ensures At(disk, tempPath) == Missing && SameElsewhere(disk, old(disk), storePath, tempPath)
      ensures fault == NoFault ==> Synced()
    {
      var store: Store := Load();
      var item := NewItem(c, content, now, suffix);
      store := WithItem(store, item);
      cache := Some(store);
      var saved := Save(store, fault);
      if saved.Err? {
        return Err(saved.error);
      }
      return Ok(item);
    }

    /**
     * `updateMemoryItem(conversationId, itemId, updates)`: `null` without saving when the
     * conversation or the item is not there.
     */
    method UpdateMemoryItem(c: string, itemId: string, p: ItemPatch, fault: SaveFault)
      returns (r: Result<Option<MemoryItem>, SaveFault>)
      requires Valid()
      modifies this
      ensures var s := old(Current());
        FindItem(s, c, itemId).None? ==> r == Ok(None) && cache == Some(s) && disk == old(disk)
      ensures var s := old(Current());
        FindItem(s, c, itemId).Some? ==>
          var i := FindItem(s, c, itemId).value;
          var item := Patched(s[c][i], p);
          var after := s[c := s[c][i := item]];
          && cache == Some(after)
          && At(disk, storePath) == (if fault == NoFault then Value(after) else At(old(disk), storePath))
          && At(disk, tempPath) == Missing && SameElsewhere(disk, old(disk), storePath, tempPath)
          && r == (if fault == NoFault then Ok(Some(item)) else Err(fault))
    {
      var store: Store := Load();
      if c !in store {
        return Ok(None);
      }
      var index := FindIndex(store[c], ItemId, itemId);
      if index.None? {
        return Ok(None);
      }
      var i := index.value;
      var item := Patched(store[c][i], p);
      store := store[c := store[c][i := item]];
      cache := Some(store);
      var saved := Save(store, fault);
      if saved.Err? {
        return Err(saved.error);
      }
      return Ok(Some(item));
    }

    /** `deleteMemoryItem(conversationId, itemId)`: `false` without saving when nothing matches. */
    method DeleteMemoryItem(c: string, itemId: string, fault: SaveFault) returns (r: Result<bool, SaveFault>)
      requires Valid()
      modifies this
      ensures var s := old(Current());
        (c !in s || itemId !in Ids(s[c])) ==> r == Ok(false) && cache == Some(s) && disk == old(disk)
      ensures var s := old(Current());
        (c in s && itemId in Ids(s[c])) ==>
          var after := s[c := Without(s[c], ItemId, itemId)];
          && cache == Some(after)
          && At(disk, storePath) == (if fault == NoFault then Value(after) else At(old(disk), storePath))
          && At(disk, tempPath) == Missing && SameElsewhere(disk, old(disk), storePath, tempPath)
          && r == (if fault == NoFault then Ok(true) else Err(fault))
    {
      var store: Store := Load();
      if c !in store {
        return Ok(false);
      }
      var initialLength: nat := |store[c]|;
      var kept := Without(store[c], ItemId, itemId);
      WithoutSameLength(store[c], ItemId, itemId);
      IdsMembership(store[c], itemId);
      if |kept| == initialLength {
        return Ok(false);
      }
      store := store[c := kept];
      cache := Some(store);
      var saved := Save(store, fault);
      if saved.Err? {
        return Err(saved.error);
      }
      return Ok(true);
    }

    /** `getEnabledMemoryItems(conversationId)`: the conversation's enabled items, in order. */
    method GetEnabledMemoryItems(c: string) returns (items: seq<MemoryItem>)
      modifies this
      ensures items == Only(ItemsOf(old(Current()), c), IsEnabled, true)
      ensures cache == Some(old(Current())) && disk == old(disk)
    {
      var all := GetMemoryItems(c);
      items := Only(all, IsEnabled, true);
    }

    /** `clearConversationMemory(conversationId)`: drops the conversation and always saves. */
    method ClearConversationMemory(c: string, fault: SaveFault) returns (r: Result<(), SaveFault>)
      requires Valid()
      modifies this
      ensures var after := old(Current()) - {c};
        && cache == Some(after)
        && At(disk, storePath) == (if fault == NoFault then Value(after) else At(old(disk), storePath))
      ensures r == if fault == NoFault then Ok(()) else Err(fault)
      ensures At(disk, tempPath) == Missing && SameElsewhere(disk, old(disk), storePath, tempPath)
    {
      var store: Store := Load();
      store := store - {c};
      cache := Some(store);
      r := Save(store, fault);
    }

    /** `clearCache()`: the next load reads the file again. */
    method ClearCache()
      modifies this
      ensures cache == None && disk == old(disk)
      ensures Current() == ValueOr(At(disk, storePath), map[])
    {
      cache := None;
    }
  }

  /** The ids of a list of items, in order. */
  function Ids(items: seq<MemoryItem>): (r: seq<string>)
    ensures |r| == |items|
    ensures forall i :: 0 <= i < |items| ==> r[i] == items[i].id
  {
    if |items| == 0 then [] else [items[0].id] + Ids(items[1..])
  }

  /** An id is listed exactly when some item carries it. */
  lemma IdsMembership(items: seq<MemoryItem>, id: string)
    ensures id in Ids(items) <==> exists i :: 0 <= i < |items| && items[i].id == id
  {
    var ids := Ids(items);
    if id in ids {
      var i :| 0 <= i < |ids| && ids[i] == id;
      assert items[i].id == id;
    }
  }
}
