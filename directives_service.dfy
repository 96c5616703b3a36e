/**
 * The per-user directive service (`api/server/services/Directives/index.js`): each user's
 * directives are one JSON array in `<userId>.json` under the storage directory, read whole
 * and rewritten whole through a temporary file and a rename.
 */
module DirectivesService {
  import opened Wrappers
  import opened Seqs
  import opened JsonValue
  import opened Disk

  /** A stored directive: the object built by `createDirective`, with whatever fields it was given. */
  type Record = Object

  /** The two errors the service throws: `Failed to load directives`, `Failed to save directives`. */
  datatype ServiceError = LoadError | SaveError

  /** `getUserDirectivesPath(userId)`. */
  function DirectivesPath(storagePath: string, userId: string): string {
    PathJoin(storagePath, userId + ".json")
  }

  /** `loadUserDirectives` on what the file read gives: no file is the empty list, an unreadable file an error. */
  function Loaded(f: FileState<seq<Record>>): (r: Result<seq<Record>, ServiceError>)
    ensures r.Err? <==> f == Corrupt
    ensures r.Err? ==> r.error == LoadError
    ensures f == Missing ==> r == Ok([])
    ensures f.Value? ==> r == Ok(f.v)
  {
    match f
    case Missing => Ok([])
    case Corrupt => Err(LoadError)
    case Value(v) => Ok(v)
  }

  /** `d.id`, compared with `===` against the directive id the caller passes. */
  function IdOf(d: Record): Option<Json> {
    Field(d, "id")
  }

  /** The id value a lookup for `directiveId` matches. */
  function IdKey(directiveId: string): Option<Json> {
    Some(JStr(directiveId))
  }

  /**
   * `{id: uuid, ...data, createdAt: now, updatedAt: now}`: an `id` in `data` wins over the
   * fresh uuid, the timestamps win over anything in `data`.
   */
  function NewDirective(data: Object, uuid: string, now: string): (r: Record)
    ensures "createdAt" in r && r["createdAt"] == JStr(now)
    ensures "updatedAt" in r && r["updatedAt"] == JStr(now)
    ensures "id" !in data ==> IdOf(r) == IdKey(uuid)
    ensures "id" in data ==> IdOf(r) == Some(data["id"])
    ensures forall k :: k in data && k != "createdAt" && k != "updatedAt" ==> k in r && r[k] == data[k]
    ensures forall k :: k in r <==> k in data || k in {"id", "createdAt", "updatedAt"}
  {
    (map["id" := JStr(uuid)] + data)["createdAt" := JStr(now)]["updatedAt" := JStr(now)]
  }

  /** `{...directive, ...updates, updatedAt: now}`. */
  function Updated(d: Record, updates: Object, now: string): (r: Record)
    ensures "updatedAt" in r && r["updatedAt"] == JStr(now)
    ensures forall k :: k in updates && k != "updatedAt" ==> k in r && r[k] == updates[k]
    ensures forall k :: k !in updates && k != "updatedAt" ==> (k in r <==> k in d) && (k in d ==> r[k] == d[k])
  {
    (d + updates)["updatedAt" := JStr(now)]
  }

  /** An update that leaves `id` out keeps the record's id. */
  lemma UpdatedKeepsId(d: Record, updates: Object, now: string)
    requires "id" !in updates
    ensures IdOf(Updated(d, updates, now)) == IdOf(d)
  {
  }

  /** Replaying an update at the same time changes nothing more. */
  lemma UpdatedIdempotent(d: Record, updates: Object, now: string)
    ensures Updated(Updated(d, updates, now), updates, now) == Updated(d, updates, now)
  {
    var once := Updated(d, updates, now);
    var twice := Updated(once, updates, now);
    assert forall k :: k in twice <==> k in once;
  }

  /** Directives created from id-less data with different uuids have different ids. */
  lemma CreatedIdsDiffer(data1: Object, uuid1: string, now1: string, data2: Object, uuid2: string, now2: string)
    requires "id" !in data1 && "id" !in data2 && uuid1 != uuid2
    ensures IdOf(NewDirective(data1, uuid1, now1)) != IdOf(NewDirective(data2, uuid2, now2))
  {
  }

  /** A created directive is what `getDirective` then finds, when no earlier directive had its id. */
  lemma {:induction false} FindCreated(ds: seq<Record>, data: Object, uuid: string, now: string)
    requires "id" !in data
    requires forall d :: d in ds ==> IdOf(d) != IdKey(uuid)
    ensures FindIndex(ds + [NewDirective(data, uuid, now)], IdOf, IdKey(uuid)) == Some(|ds|)
  {
    var t := ds + [NewDirective(data, uuid, now)];
    assert IdOf(t[|ds|]) == IdKey(uuid);
    assert forall j :: 0 <= j < |ds| ==> t[j] == ds[j] && ds[j] in ds;
  }

  /** Deleting a freshly created directive gives back the list as it was. */
  lemma DeleteUndoesCreate(ds: seq<Record>, data: Object, uuid: string, now: string)
    requires "id" !in data
    requires forall d :: d in ds ==> IdOf(d) != IdKey(uuid)
    ensures Without(ds + [NewDirective(data, uuid, now)], IdOf, IdKey(uuid)) == ds
  {
    WithoutAppend(ds, [NewDirective(data, uuid, now)], IdOf, IdKey(uuid));
    WithoutSameLength(ds, IdOf, IdKey(uuid));
  }

  /** A built-in preset: the fields of a directive, without id or timestamps. */
  datatype Preset = Preset(name: string, systemPrompt: string, personality: string, directives: string, memoryPolicy: string)

  const ProfessionalAssistant: Preset :=
    Preset("Professional Assistant",
        "You are a professional " + "assistant focused on " + "providing accurate, helpful, " + "and efficient responses.",
        "Professional, courteous, and " + "detail-oriented",
        "- Be clear and concise\n- " + "Provide sources when " + "relevant\n- Ask clarifying " + "questions when needed",
        "Remember user preferences and " + "previous context")

  const CreativeWriter: Preset :=
    Preset("Creative Writer",
        "You are a creative writing " + "assistant that helps with " + "storytelling, creative " + "content, and imaginative " + "ideas.",
        "Creative, imaginative, and " + "encouraging",
        "- Embrace creativity and " + "unique ideas\n- Help develop " + "narratives\n- Provide " + "constructive feedback",
        "Remember story elements, " + "characters, and plot points")

  const TechnicalExpert: Preset :=
    Preset("Technical Expert",
        "You are a technical expert " + "specializing in providing " + "detailed technical " + "explanations and solutions.",
        "Precise, analytical, and " + "knowledgeable",
        "- Provide detailed technical " + "explanations\n- Include code " + "examples when relevant\n- " + "Focus on best practices",
        "Remember technical context, " + "stack preferences, and coding " + "patterns")

  const EducationalTutor: Preset :=
    Preset("Educational Tutor",
        "You are an educational tutor " + "focused on helping students " + "learn and understand concepts.",
        "Patient, encouraging, and " + "supportive",
        "- Break down complex " + "topics\n- Use examples and " + "analogies\n- Encourage " + "questions and exploration",
        "Remember learning goals, " + "progress, and areas of " + "difficulty")

  /** `getPresets()`: the four fixed presets, in this order (long texts are written in pieces). */
  function GetPresets(): (r: seq<Preset>)
    ensures |r| == 4
    ensures r[0].name == "Professional Assistant" && r[1].name == "Creative Writer"
    ensures r[2].name == "Technical Expert" && r[3].name == "Educational Tutor"
  {
    [ProfessionalAssistant, CreativeWriter, TechnicalExpert, EducationalTutor]
  }

  class DirectivesStorage {
    /** `STORAGE_PATH`: `DIRECTIVE_STORE_PATH` or the default data directory. */
    const storagePath: string
    /** The files under the storage directory. */
    var files: Files<seq<Record>>

    /** What loading `userId`'s directives gives now. */
    function Stored(userId: string): Result<seq<Record>, ServiceError>
      reads this
    {
      Loaded(At(files, DirectivesPath(storagePath, userId)))
    }

    constructor(storagePath: string, files: Files<seq<Record>>)
      ensures this.storagePath == storagePath && this.files == files
    {
      this.storagePath := storagePath;
      this.files := files;
    }

    /** `loadUserDirectives(userId)`: creating the directory is not modelled. */
    method LoadUserDirectives(userId: string) returns (r: Result<seq<Record>, ServiceError>)
      ensures r == Stored(userId)
      ensures At(files, DirectivesPath(storagePath, userId)) == Missing ==> r == Ok([])
    {
      var path := DirectivesPath(storagePath, userId);
      if path !in files {
        return Ok([]);
      }
      match files[path]
      case Missing => return Ok([]);
      case Corrupt => return Err(LoadError);
      case Value(v) => return Ok(v);
    }

    /** `saveUserDirectives(userId, directives)`: temporary file, then rename; no clean-up on failure. */
    method SaveUserDirectives(userId: string, ds: seq<Record>, fault: SaveFault) returns (r: Result<(), ServiceError>)
      modifies this
      ensures var path := DirectivesPath(storagePath, userId);
        files == AfterAtomicSave(old(files), path, path + ".tmp", ds, fault)
      ensures r == if fault == NoFault then Ok(()) else Err(SaveError)
      ensures fault == NoFault ==> Stored(userId) == Ok(ds)
    {
      var path := DirectivesPath(storagePath, userId);
      assert path != path + ".tmp";
      files := AfterAtomicSave(files, path, path + ".tmp", ds, fault);
      if fault != NoFault {
        return Err(SaveError);
      }
      return Ok(());
    }

    /** `getDirectives(userId)`. */
    method GetDirectives(userId: string) returns (r: Result<seq<Record>, ServiceError>)
      ensures r == Stored(userId)
    {
      r := LoadUserDirectives(userId);
    }

    /** `getDirective(userId, directiveId)`: the first directive with that id, or `null`. */
    method GetDirective(userId: string, directiveId: string) returns (r: Result<Option<Record>, ServiceError>)
      ensures Stored(userId).Err? <==> r.Err?
      ensures Stored(userId).Ok? ==>
        var ds := Stored(userId).value;
        match FindIndex(ds, IdOf, IdKey(directiveId))
        case None => r == Ok(None)
        case Some(i) => r == Ok(Some(ds[i]))
    {
      var loaded := LoadUserDirectives(userId);
      if loaded.Err? {
        return Err(loaded.error);
      }
      var ds := loaded.value;
      var index := FindIndex(ds, IdOf, IdKey(directiveId));
      if index.None? {
        return Ok(None);
      }
      return Ok(Some(ds[index.value]));
    }

    /** `createDirective(userId, data)`: appends the new directive and saves the whole list. */
    method CreateDirective(userId: string, data: Object, uuid: string, now: string, fault: SaveFault)
      returns (r: Result<Record, ServiceError>)
      modifies this
      ensures var path := DirectivesPath(storagePath, userId);
        old(Stored(userId)).Err? ==> r == Err(LoadError) && files == old(files)
      ensures var path := DirectivesPath(storagePath, userId);
        old(Stored(userId)).Ok? ==>
          var ds := old(Stored(userId)).value + [NewDirective(data, uuid, now)];
          && files == AfterAtomicSave(old(files), path, path + ".tmp", ds, fault)
          && r == (if fault == NoFault then Ok(NewDirective(data, uuid, now)) else Err(SaveError))
    {
      var loaded := LoadUserDirectives(userId);
      if loaded.Err? {
        return Err(loaded.error);
      }
      var directives := loaded.value;
      var newDirective := NewDirective(data, uuid, now);
      directives := directives + [newDirective];
      var saved := SaveUserDirectives(userId, directives, fault);
      if saved.Err? {
        return Err(saved.error);
      }
      return Ok(newDirective);
    }

    /** `updateDirective(userId, directiveId, updates)`: `null` without saving when the id is absent. */
    method UpdateDirective(userId: string, directiveId: string, updates: Object, now: string, fault: SaveFault)
      returns (r: Result<Option<Record>, ServiceError>)
      modifies this
      ensures old(Stored(userId)).Err? ==> r == Err(LoadError) && files == old(files)
      ensures old(Stored(userId)).Ok? && FindIndex(old(Stored(userId)).value, IdOf, IdKey(directiveId)).None? ==>
        r == Ok(None) && files == old(files)
      ensures var path := DirectivesPath(storagePath, userId);
        old(Stored(userId)).Ok? && FindIndex(old(Stored(userId)).value, IdOf, IdKey(directiveId)).Some? ==>
          var ds := old(Stored(userId)).value;
          var i := FindIndex(ds, IdOf, IdKey(directiveId)).value;
          var d := Updated(ds[i], updates, now);
          && files == AfterAtomicSave(old(files), path, path + ".tmp", ds[i := d], fault)
          && r == (if fault == NoFault then Ok(Some(d)) else Err(SaveError))
    {
      var loaded := LoadUserDirectives(userId);
      if loaded.Err? {
        return Err(loaded.error);
      }
      var directives := loaded.value;
      var index := FindIndex(directives, IdOf, IdKey(directiveId));
      if index.None? {
        return Ok(None);
      }
      var i := index.value;
      directives := directives[i := Updated(directives[i], updates, now)];
      var saved := SaveUserDirectives(userId, directives, fault);
      if saved.Err? {
        return Err(saved.error);
      }
      return Ok(Some(directives[i]));
    }

    /** `deleteDirective(userId, directiveId)`: `false` without saving when nothing has that id. */
    method DeleteDirective(userId: string, directiveId: string, fault: SaveFault) returns (r: Result<bool, ServiceError>)
      modifies this
      ensures old(Stored(userId)).Err? ==> r == Err(LoadError) && files == old(files)
      ensures old(Stored(userId)).Ok? && FindIndex(old(Stored(userId)).value, IdOf, IdKey(directiveId)).None? ==>
        r == Ok(false) && files == old(files)
      ensures var path := DirectivesPath(storagePath, userId);
        old(Stored(userId)).Ok? && FindIndex(old(Stored(userId)).value, IdOf, IdKey(directiveId)).Some? ==>
          var kept := Without(old(Stored(userId)).value, IdOf, IdKey(directiveId));
          && |kept| < |old(Stored(userId)).value|
          && files == AfterAtomicSave(old(files), path, path + ".tmp", kept, fault)
          && r == (if fault == NoFault then Ok(true) else Err(SaveError))
    {
      var loaded := LoadUserDirectives(userId);
      if loaded.Err? {
        return Err(loaded.error);
      }
      var directives := loaded.value;
      var filtered := Without(directives, IdOf, IdKey(directiveId));
      WithoutSameLength(directives, IdOf, IdKey(directiveId));
      if |filtered| == |directives| {
        return Ok(false);
      }
      var saved := SaveUserDirectives(userId, filtered, fault);
      if saved.Err? {
        return Err(saved.error);
      }
      return Ok(true);
    }
  }
}
