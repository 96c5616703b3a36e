/**
 * The agent directive store (`api/server/agent/directive.js`): one JSON object per
 * conversation in `data/directives/<conversationId>.json`, written directly (no temporary file).
 */
module AgentDirective {
  import opened Wrappers
  import opened JsonValue
  import opened Disk

  /** The error `read`, `write` and `delete` rethrow: anything but a missing file. */
  datatype StoreError = IoError

  /** What `read` answers for a conversation that has no file; nothing is written. */
  function DefaultDirective(conversationId: string, now: string): (r: Object)
    ensures r.Keys == {"conversationId", "systemPrompt", "personality", "directives", "memoryPolicy", "createdAt", "updatedAt"}
    ensures r["systemPrompt"] == JStr("") && r["personality"] == JStr("")
    ensures r["directives"] == JArr([]) && r["memoryPolicy"] == JStr("auto")
    ensures r["conversationId"] == JStr(conversationId)
    ensures r["createdAt"] == JStr(now) && r["updatedAt"] == JStr(now)
  {
    map["conversationId" := JStr(conversationId), "systemPrompt" := JStr(""), "personality" := JStr(""),
        "directives" := JArr([]), "memoryPolicy" := JStr("auto"),
        "createdAt" := JStr(now), "updatedAt" := JStr(now)]
  }

  /**
   * The object `write` stores: each field of the input or its default when absent or falsy,
   * `createdAt` kept from the input when given, `updatedAt` the time of the write.
   */
  function Normalized(conversationId: string, data: Object, now: string): (r: Object)
    ensures r.Keys == {"conversationId", "systemPrompt", "personality", "directives", "memoryPolicy", "presets", "createdAt", "updatedAt"}
    ensures "conversationId" in r && r["conversationId"] == JStr(conversationId)
    ensures "updatedAt" in r && r["updatedAt"] == JStr(now)
    ensures "systemPrompt" in r && r["systemPrompt"] == if HasTruthy(data, "systemPrompt") then data["systemPrompt"] else JStr("")
    ensures "personality" in r && r["personality"] == if HasTruthy(data, "personality") then data["personality"] else JStr("")
    ensures "directives" in r && r["directives"] == if HasTruthy(data, "directives") then data["directives"] else JArr([])
    ensures "memoryPolicy" in r && r["memoryPolicy"] == if HasTruthy(data, "memoryPolicy") then data["memoryPolicy"] else JStr("auto")
    ensures "presets" in r && r["presets"] == if HasTruthy(data, "presets") then data["presets"] else JArr([])
    ensures "createdAt" in r && r["createdAt"] == if HasTruthy(data, "createdAt") then data["createdAt"] else JStr(now)
  {
    map["conversationId" := JStr(conversationId),
        "systemPrompt" := FieldOr(data, "systemPrompt", JStr("")),
        "personality" := FieldOr(data, "personality", JStr("")),
        "directives" := FieldOr(data, "directives", JArr([])),
        "memoryPolicy" := FieldOr(data, "memoryPolicy", JStr("auto")),
        "presets" := FieldOr(data, "presets", JArr([])),
        "createdAt" := FieldOr(data, "createdAt", JStr(now)),
        "updatedAt" := JStr(now)]
  }

  /** Writing back what a write stored keeps everything but `updatedAt`, and in particular the creation time. */
  lemma RewriteKeepsCreatedAt(conversationId: string, data: Object, now: string, later: string)
    requires now != ""
    ensures var r := Normalized(conversationId, data, now);
      Normalized(conversationId, r, later) == r["updatedAt" := JStr(later)]
  {
  }

  class DirectiveStore {
    /** `<cwd>/data/directives`. */
    const directiveDir: string
    /** The files under that directory. */
    var files: Files<Object>

    /** `getFilePath(conversationId)`. */
    function FilePath(conversationId: string): string
      reads this
    {
      PathJoin(directiveDir, conversationId + ".json")
    }

    /** What `read` gives now, with `now` the time the default would be stamped with. */
    function Stored(conversationId: string, now: string): Result<Object, StoreError>
      reads this
    {
      match At(files, FilePath(conversationId))
      case Missing => Ok(DefaultDirective(conversationId, now))
      case Corrupt => Err(IoError)
      case Value(v) => Ok(v)
    }

    /** The singleton's construction; creating the directory is not modelled. */
    constructor(cwd: string, files: Files<Object>)
      ensures directiveDir == PathJoin(PathJoin(cwd, "data"), "directives") && this.files == files
    {
      directiveDir := PathJoin(PathJoin(cwd, "data"), "directives");
      this.files := files;
    }

    /** `read(conversationId)`: the parsed file, or the default when there is none. */
    method Read(conversationId: string, now: string) returns (r: Result<Object, StoreError>)
      ensures r == Stored(conversationId, now)
      ensures At(files, FilePath(conversationId)) == Missing ==> r == Ok(DefaultDirective(conversationId, now))
    {
      var filePath := FilePath(conversationId);
      if filePath !in files {
        return Ok(DefaultDirective(conversationId, now));
      }
      match files[filePath]
      case Missing => return Ok(DefaultDirective(conversationId, now));
      case Corrupt => return Err(IoError);
      case Value(v) => return Ok(v);
    }

    /**
     * `write(conversationId, directiveData)`: one `writeFile`. A write that fails before the file is
     * opened leaves the old contents; one that fails part-way leaves a torn file.
     */
    method Write(conversationId: string, data: Object, now: string, fault: WriteFault)
      returns (r: Result<Object, StoreError>)
      modifies this
      ensures files == AfterWrite(old(files), FilePath(conversationId), Normalized(conversationId, data, now), fault)
      ensures r == if fault == NoWriteFault then Ok(Normalized(conversationId, data, now)) else Err(IoError)
      ensures fault == NoWriteFault ==> forall t :: Stored(conversationId, t) == r
      ensures fault == OpenFault ==> forall t :: Stored(conversationId, t) == old(Stored(conversationId, t))
      ensures fault == TornFault ==> forall t :: Stored(conversationId, t) == Err(IoError)
    {
      var filePath := FilePath(conversationId);
      var directive := Normalized(conversationId, data, now);
      files := AfterWrite(files, filePath, directive, fault);
      if fault != NoWriteFault {
        return Err(IoError);
      }
      return Ok(directive);
    }

    /**
     * `delete(conversationId)`: `true` whether or not there was a file; an `unlink` error other
     * than `ENOENT` (`fails`) is rethrown and the file stays.
     */
    method Delete(conversationId: string, fails: bool) returns (r: Result<bool, StoreError>)
      modifies this
      ensures fails ==> r == Err(IoError) && files == old(files)
      ensures !fails ==> r == Ok(true) && files == old(files) - {FilePath(conversationId)}
      ensures !fails ==> forall t :: Stored(conversationId, t) == Ok(DefaultDirective(conversationId, t))
    {
      if fails {
        return Err(IoError);
      }
      var filePath := FilePath(conversationId);
      if filePath in files {
        files := RemoveFile(files, filePath);
      }
      return Ok(true);
    }
  }
}
