/**
 * The conversation directive service (`api/server/services/Directive/index.js`): one JSON
 * record per user and conversation, in `<userId>_<conversationId>.json`, replaced whole on
 * every save.
 */
module DirectiveService {
  import opened Wrappers
  import opened Strings
  import opened Disk

  /** The stored record. */
  datatype DirectiveRecord = DirectiveRecord(
    userId: string, conversationId: string,
    systemPrompt: string, personality: string, directives: string, memoryPolicy: string,
    updatedAt: string)

  /** The fields a caller passes to `saveDirective`; `None` is an absent field. */
  datatype DirectiveData = DirectiveData(
    systemPrompt: Option<string>, personality: Option<string>,
    directives: Option<string>, memoryPolicy: Option<string>)

  /**
   * The errors the service rethrows: a failed read (other than no file), a failed write or
   * rename, and a failed `unlink` (other than no file).
   */
  datatype DirectiveError = ReadFailed | WriteFailed | DeleteFailed

  /** The storage key: one string, `userId + "_" + conversationId`. */
  function StorageKey(userId: string, conversationId: string): string {
    userId + "_" + conversationId
  }

  /** `getDirectiveFilePath(userId, conversationId)`. */
  function DirectiveFilePath(storePath: string, userId: string, conversationId: string): string {
    PathJoin(storePath, StorageKey(userId, conversationId) + ".json")
  }

  /** Since the key is a plain concatenation, different (user, conversation) pairs can share a file. */
  lemma StorageKeyCollision()
    ensures StorageKey("a_b", "c") == StorageKey("a", "b_c")
  {
  }

  /**
   * The record `saveDirective` writes: `|| ''` for the texts, `|| 'auto'` for the memory
   * policy, the time of the save.
   */
  function Normalized(userId: string, conversationId: string, data: DirectiveData, now: string): (r: DirectiveRecord)
    ensures r.userId == userId && r.conversationId == conversationId && r.updatedAt == now
    ensures r.memoryPolicy != ""
    ensures data.memoryPolicy.Some? && data.memoryPolicy.value != "" ==> r.memoryPolicy == data.memoryPolicy.value
    ensures (data.memoryPolicy.None? || data.memoryPolicy == Some("")) ==> r.memoryPolicy == "auto"
    ensures data.systemPrompt.Some? ==> r.systemPrompt == data.systemPrompt.value
    ensures data.personality.Some? ==> r.personality == data.personality.value
    ensures data.directives.Some? ==> r.directives == data.directives.value
    ensures data.systemPrompt.None? ==> r.systemPrompt == ""
    ensures data.personality.None? ==> r.personality == ""
    ensures data.directives.None? ==> r.directives == ""
  {
    DirectiveRecord(userId, conversationId,
      OrElse(data.systemPrompt, ""), OrElse(data.personality, ""), OrElse(data.directives, ""),
      OrElse(data.memoryPolicy, "auto"), now)
  }

  /** The fields of a stored record, as a caller would pass them back. */
  function DataOf(r: DirectiveRecord): DirectiveData {
    DirectiveData(Some(r.systemPrompt), Some(r.personality), Some(r.directives), Some(r.memoryPolicy))
  }

  /** Saving a record's own fields again changes nothing but `updatedAt`. */
  lemma ResaveKeepsFields(userId: string, conversationId: string, data: DirectiveData, now: string, later: string)
    ensures var r := Normalized(userId, conversationId, data, now);
      Normalized(userId, conversationId, DataOf(r), later) == r.(updatedAt := later)
  {
  }

  /**
   * A save replaces the whole record: the result does not depend on what was stored, so a field
   * left out of a later save goes back to its default.
   */
  lemma OmittedFieldReverts(userId: string, conversationId: string, first: DirectiveData, second: DirectiveData,
                             now: string, later: string)
    requires second.personality.None? && first.personality.Some? && first.personality.value != ""
    ensures Normalized(userId, conversationId, first, now).personality != ""
    ensures Normalized(userId, conversationId, second, later).personality == ""
  {
  }

  class DirectiveFiles {
    /** `DIRECTIVE_STORE_PATH`, or `<cwd>/data/directives`. */
    const storePath: string
    /** The files under the directory. */
    var files: Files<DirectiveRecord>

    /** What `getDirective` gives now. */
    function Stored(userId: string, conversationId: string): Result<Option<DirectiveRecord>, DirectiveError>
      reads this
    {
      match At(files, DirectiveFilePath(storePath, userId, conversationId))
      case Missing => Ok(None)
      case Corrupt => Err(ReadFailed)
      case Value(v) => Ok(Some(v))
    }

    constructor(configured: Option<string>, cwd: string, files: Files<DirectiveRecord>)
      ensures storePath == OrElse(configured, PathJoin(PathJoin(cwd, "data"), "directives"))
      ensures this.files == files
    {
      storePath := OrElse(configured, PathJoin(PathJoin(cwd, "data"), "directives"));
      this.files := files;
    }

    /** `getDirective(userId, conversationId)`: `null` when there is no file; creating the directory is not modelled. */
    method GetDirective(userId: string, conversationId: string) returns (r: Result<Option<DirectiveRecord>, DirectiveError>)
      ensures r == Stored(userId, conversationId)
      ensures At(files, DirectiveFilePath(storePath, userId, conversationId)) == Missing ==> r == Ok(None)
      ensures r.Ok? && r.value.Some? ==>
        At(files, DirectiveFilePath(storePath, userId, conversationId)) == Value(r.value.value)
    {
      var filePath := DirectiveFilePath(storePath, userId, conversationId);
      if filePath !in files {
        return Ok(None);
      }
      match files[filePath]
      case Missing => return Ok(None);
      case Corrupt => return Err(ReadFailed);
      case Value(v) => return Ok(Some(v));
    }

    /** `saveDirective(userId, conversationId, directiveData)`: temporary file, then rename; no clean-up. */
    method SaveDirective(userId: string, conversationId: string, data: DirectiveData, now: string, fault: SaveFault)
      returns (r: Result<DirectiveRecord, DirectiveError>)
      modifies this
      ensures var filePath := DirectiveFilePath(storePath, userId, conversationId);
        files == AfterAtomicSave(old(files), filePath, filePath + ".tmp", Normalized(userId, conversationId, data, now), fault)
      ensures fault == NoFault ==> r == Ok(Normalized(userId, conversationId, data, now))
      ensures fault == NoFault ==> Stored(userId, conversationId) == Ok(Some(Normalized(userId, conversationId, data, now)))
      ensures fault != NoFault ==> r == Err(WriteFailed) && Stored(userId, conversationId) == old(Stored(userId, conversationId))
    {
      var filePath := DirectiveFilePath(storePath, userId, conversationId);
      var directive := Normalized(userId, conversationId, data, now);
      var tempPath := filePath + ".tmp";
      assert filePath != tempPath;
      files := AfterAtomicSave(files, filePath, tempPath, directive, fault);
      if fault != NoFault {
        return Err(WriteFailed);
      }
      return Ok(directive);
    }

    /**
     * `deleteDirective(userId, conversationId)`: `unlink`, with `false` for a file that is not
     * there; any other `unlink` error (`fails`) is rethrown and the file stays.
     */
    method DeleteDirective(userId: string, conversationId: string, fails: bool)
      returns (r: Result<bool, DirectiveError>)
      modifies this
      ensures fails ==> r == Err(DeleteFailed) && files == old(files)
      ensures var filePath := DirectiveFilePath(storePath, userId, conversationId);
        !fails ==> r == Ok(At(old(files), filePath) != Missing) && files == old(files) - {filePath}
      ensures !fails ==> Stored(userId, conversationId) == Ok(None)
    {
      if fails {
        return Err(DeleteFailed);
      }
      var filePath := DirectiveFilePath(storePath, userId, conversationId);
      if At(files, filePath) == Missing {
        files := files - {filePath};
        return Ok(false);
      }
      files := RemoveFile(files, filePath);
      return Ok(true);
    }
  }
}
