/**
 * The agent memory store (`api/server/memory/store.js`): one JSON object per conversation in
 * `data/memory/<conversationId>.json`, written directly, and a listing of the conversations
 * that have a file.
 */
module AgentMemory {
  import opened Wrappers
  import opened Strings
  import opened JsonValue
  import opened Disk

  /** The error `read`, `write` and `delete` rethrow: anything but a missing file. */
  datatype StoreError = IoError

  /** What `read` answers for a conversation that has no file; nothing is written. */
  function EmptyMemory(conversationId: string, now: string): (r: Object)
    ensures r.Keys == {"conversationId", "facts", "createdAt", "updatedAt"}
    ensures "conversationId" in r && r["conversationId"] == JStr(conversationId)
    ensures "facts" in r && r["facts"] == JArr([])
    ensures "createdAt" in r && r["createdAt"] == JStr(now)
    ensures "updatedAt" in r && r["updatedAt"] == JStr(now)
    ensures "metadata" !in r
  {
    map["conversationId" := JStr(conversationId), "facts" := JArr([]),
        "createdAt" := JStr(now), "updatedAt" := JStr(now)]
  }

  /**
   * The object `write` stores: facts and metadata from the input or empty, `createdAt` kept from
   * the input when given, `updatedAt` the time of the write.
   */
  function Normalized(conversationId: string, data: Object, now: string): (r: Object)
    ensures r.Keys == {"conversationId", "facts", "createdAt", "updatedAt", "metadata"}
    ensures "conversationId" in r && r["conversationId"] == JStr(conversationId)
    ensures "updatedAt" in r && r["updatedAt"] == JStr(now)
    ensures "facts" in r && r["facts"] == if HasTruthy(data, "facts") then data["facts"] else JArr([])
    ensures "createdAt" in r && r["createdAt"] == if HasTruthy(data, "createdAt") then data["createdAt"] else JStr(now)
    ensures "metadata" in r && r["metadata"] == if HasTruthy(data, "metadata") then data["metadata"] else JObj(map[])
  {
    map["conversationId" := JStr(conversationId),
        "facts" := FieldOr(data, "facts", JArr([])),
        "createdAt" := FieldOr(data, "createdAt", JStr(now)),
        "updatedAt" := JStr(now),
        "metadata" := FieldOr(data, "metadata", JObj(map[]))]
  }

  /** Writing back what `read` returned keeps the creation time: the default one once it has been stored. */
  lemma RewriteKeepsCreatedAt(conversationId: string, data: Object, now: string, later: string)
    requires now != ""
    ensures var r := Normalized(conversationId, data, now);
      Normalized(conversationId, r, later) == r["updatedAt" := JStr(later)]
  {
  }

  /**
   * `files.filter(f => f.endsWith('.json')).map(f => f.replace('.json', ''))`: the names ending
   * in ".json", each with its first ".json" removed.
   */
  function ConversationIds(names: seq<string>): (r: seq<string>)
    ensures |r| <= |names|
    ensures forall x :: x in r <==> exists n :: n in names && EndsWith(n, ".json") && ReplaceFirst(n, ".json", "") == x
  {
    if |names| == 0 then []
    else
      var rest := ConversationIds(names[1..]);
      assert forall n :: n in names <==> n == names[0] || n in names[1..];
      if EndsWith(names[0], ".json") then [ReplaceFirst(names[0], ".json", "")] + rest else rest
  }

  /** A conversation id without ".json" is what its file name lists as. */
  lemma NameListsAsId(c: string)
    requires !Contains(c, ".json")
    ensures EndsWith(c + ".json", ".json") && ReplaceFirst(c + ".json", ".json", "") == c
  {
    FirstDotJsonOfName(c);
    var s := c + ".json";
    assert s[..|c|] == c;
    assert s[|c| + 5..] == "";
    assert s[|s| - 5..] == ".json";
  }

  /** The only name ending in ".json" that lists as an id without ".json" is that id's own file name. */
  lemma OnlyOwnNameListsAsId(n: string, c: string)
    requires !Contains(c, ".json")
    requires EndsWith(n, ".json") && ReplaceFirst(n, ".json", "") == c
    ensures n == c + ".json"
  {
    ListedName(n);
  }

  /** A name ending in ".json" lists either as the name without that suffix or as an id still holding ".json". */
  lemma ListedName(n: string)
    requires EndsWith(n, ".json")
    ensures var c := ReplaceFirst(n, ".json", ""); n == c + ".json" || Contains(c, ".json")
  {
    var last := |n| - 5;
    assert OccursAt(n, ".json", last) by { assert n[last..last + 5] == n[|n| - 5..]; }
    OccursAtContains(n, ".json", last);
    var i := IndexOf(n, ".json").value;
    assert i <= last;
    var tail := n[i + 5..];
    assert ReplaceFirst(n, ".json", "") == n[..i] + tail;
    if i < last {
      DotJsonNoOverlap(n, i, last);
      assert tail[last - 5 - i..last - i] == n[last..last + 5];
      ShiftedOccurrence(n[..i], tail, last - 5 - i);
    } else {
      assert n == n[..i] + n[i..];
    }
  }

  /** An occurrence in the second part of a concatenation is one in the whole. */
  lemma ShiftedOccurrence(a: string, b: string, j: nat)
    requires OccursAt(b, ".json", j)
    ensures Contains(a + b, ".json")
  {
    assert (a + b)[|a| + j..|a| + j + 5] == b[j..j + 5];
    OccursAtContains(a + b, ".json", |a| + j);
  }

  /** `readdir` of `dir` is `listing`: exactly the names of the files directly in it. */
  ghost predicate Lists<T>(listing: seq<string>, files: Files<T>, dir: string) {
    forall n :: n in listing <==> PathJoin(dir, n) in files
  }

  class MemoryStore {
    /** `<cwd>/data/memory`. */
    const memoryDir: string
    /** The files under that directory. */
    var files: Files<Object>

    /** `getFilePath(conversationId)`. */
    function FilePath(conversationId: string): string
      reads this
    {
      PathJoin(memoryDir, conversationId + ".json")
    }

    /** What `read` gives now, with `now` the time the empty memory would be stamped with. */
    function Stored(conversationId: string, now: string): Result<Object, StoreError>
      reads this
    {
      match At(files, FilePath(conversationId))
      case Missing => Ok(EmptyMemory(conversationId, now))
      case Corrupt => Err(IoError)
      case Value(v) => Ok(v)
    }

    /** The singleton's construction; creating the directory is not modelled. */
    constructor(cwd: string, files: Files<Object>)
      ensures memoryDir == PathJoin(PathJoin(cwd, "data"), "memory") && this.files == files
    {
      memoryDir := PathJoin(PathJoin(cwd, "data"), "memory");
      this.files := files;
    }

    /** `read(conversationId)`: the parsed file, or empty memory when there is none. */
    method Read(conversationId: string, now: string) returns (r: Result<Object, StoreError>)
      ensures r == Stored(conversationId, now)
      ensures At(files, FilePath(conversationId)) == Missing ==> r == Ok(EmptyMemory(conversationId, now))
    {
      var filePath := FilePath(conversationId);
      if filePath !in files {
        return Ok(EmptyMemory(conversationId, now));
      }
      match files[filePath]
      case Missing => return Ok(EmptyMemory(conversationId, now));
      case Corrupt => return Err(IoError);
      case Value(v) => return Ok(v);
    }

    /**
     * `write(conversationId, memoryData)`: one `writeFile`. A write that fails before the file is
     * opened leaves the old contents; one that fails part-way leaves a torn file.
     */
    method Write(conversationId: string, data: Object, now: string, fault: WriteFault)
      returns (r: Result<Object, StoreError>)
      modifies this
      ensures files == AfterWrite(old(files), FilePath(conversationId), Normalized(conversationId, data, now), fault)
      ensures r == if fault == NoWriteFault then Ok(Normalized(conversationId, data, now)) else Err(IoError)
      ensures fault == NoWriteFault ==> forall t :: Stored(conversationId, t) == r
      ensures fault == OpenFault ==> forall t :: Stored(conversationId, t) == old(Stored(conversationId, t))
      ensures fault == TornFault ==> forall t :: Stored(conversationId, t) == Err(IoError)
    {
      var filePath := FilePath(conversationId);
      var memory := Normalized(conversationId, data, now);
      files := AfterWrite(files, filePath, memory, fault);
      if fault != NoWriteFault {
        return Err(IoError);
      }
      return Ok(memory);
    }

    /**
     * `delete(conversationId)`: `true` whether or not there was a file; an `unlink` error other
     * than `ENOENT` (`fails`) is rethrown and the file stays.
     */
    method Delete(conversationId: string, fails: bool) returns (r: Result<bool, StoreError>)
      modifies this
      ensures fails ==> r == Err(IoError) && files == old(files)
      ensures !fails ==> r == Ok(true) && files == old(files) - {FilePath(conversationId)}
      ensures !fails ==> forall t :: Stored(conversationId, t) == Ok(EmptyMemory(conversationId, t))
    {
      if fails {
        return Err(IoError);
      }
      var filePath := FilePath(conversationId);
      if filePath in files {
        files := RemoveFile(files, filePath);
      }
      return Ok(true);
    }

    /** `list()`: the ids of the conversations with a file, or `[]` when `readdir` fails (`None`). */
    method List(listing: Option<seq<string>>) returns (ids: seq<string>)
      ensures listing.None? ==> ids == []
      ensures listing.Some? ==> ids == ConversationIds(listing.value)
    {
      if listing.None? {
        return [];
      }
      ids := ConversationIds(listing.value);
    }

    /** With a listing of the directory, an id without ".json" is listed exactly when its file exists. */
    lemma ListedIffFile(listing: seq<string>, c: string)
      requires Lists(listing, files, memoryDir)
      requires !Contains(c, ".json")
      ensures c in ConversationIds(listing) <==> FilePath(c) in files
    {
      if c in ConversationIds(listing) {
        var n :| n in listing && EndsWith(n, ".json") && ReplaceFirst(n, ".json", "") == c;
        OnlyOwnNameListsAsId(n, c);
      }
      if FilePath(c) in files {
        NameListsAsId(c);
        assert c + ".json" in listing;
      }
    }
  }
}
