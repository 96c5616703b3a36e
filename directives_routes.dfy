/**
 * The saved-directives HTTP routes (`api/server/routes/directives.js`): request-body checks and
 * normalisation in front of the directives service, and the mapping of its results to status
 * codes. Authentication and the role checks that run before every handler are not modelled.
 */
module DirectivesRoutes {
  import opened Wrappers
  import opened Strings
  import opened Seqs
  import opened JsonValue
  import opened Disk
  import opened DirectivesService

  /** The five fields a request body may set, in the order the handlers read them. */
  const Fields: seq<string> := ["name", "systemPrompt", "personality", "directives", "memoryPolicy"]

  /** Why a body is turned away: the 400 for a bad name, or a `TypeError` from `.trim()` that becomes a 500. */
  datatype Rejection = BadName | TypeError

  /** What a handler answers. */
  datatype Reply =
    | DirectiveList(directives: seq<Record>)
    | PresetList(presets: seq<Preset>)
    | Found(directive: Record)
    | Created(directive: Record)
    | Changed(directive: Record)
    | Deleted
    | NotFound
    | Invalid
    | Failed

  /** The HTTP status of a reply. */
  function Status(r: Reply): (code: nat)
    ensures code == 201 <==> r.Created?
    ensures code == 404 <==> r.NotFound?
    ensures code == 400 <==> r.Invalid?
    ensures code == 500 <==> r.Failed?
    ensures code == 200 <==> r.DirectiveList? || r.PresetList? || r.Found? || r.Changed? || r.Deleted?
  {
    match r
    case Created(_) => 201
    case NotFound => 404
    case Invalid => 400
    case Failed => 500
    case _ => 200
  }

  /** The POST name check passes: `name` is a string that is not blank. */
  predicate ValidName(body: Object) {
    "name" in body && body["name"].JStr? && Trim(body["name"].s) != ""
  }

  /** `value?.trim() || ''` for an optional POST field; `.trim()` on a non-string throws. */
  function OptionalText(body: Object, k: string): (r: Result<string, Rejection>)
    ensures r.Err? <==> k in body && body[k] != JNull && !body[k].JStr?
    ensures r.Err? ==> r.error == TypeError
    ensures (k !in body || body[k] == JNull) ==> r == Ok("")
    ensures k in body && body[k].JStr? ==> r == Ok(Trim(body[k].s))
  {
    if k !in body || body[k] == JNull then Ok("")
    else if body[k].JStr? then Ok(Trim(body[k].s))
    else Err(TypeError)
  }

  /** The data POST hands to `createDirective`. */
  datatype NewFields = NewFields(name: string, systemPrompt: string, personality: string, directives: string,
                                 memoryPolicy: string)

  /** The object literal POST builds from the fields. */
  function ToObject(f: NewFields): (o: Object)
    ensures o.Keys == set k | k in Fields
    ensures o["name"] == JStr(f.name) && o["systemPrompt"] == JStr(f.systemPrompt)
    ensures o["personality"] == JStr(f.personality) && o["directives"] == JStr(f.directives)
    ensures o["memoryPolicy"] == JStr(f.memoryPolicy)
  {
    map["name" := JStr(f.name), "systemPrompt" := JStr(f.systemPrompt), "personality" := JStr(f.personality),
        "directives" := JStr(f.directives), "memoryPolicy" := JStr(f.memoryPolicy)]
  }

  /** Some optional POST field is present, not `null` and not a string. */
  predicate BadOptional(body: Object) {
    || OptionalText(body, "systemPrompt").Err? || OptionalText(body, "personality").Err?
    || OptionalText(body, "directives").Err? || OptionalText(body, "memoryPolicy").Err?
  }

  /** The data POST builds from its body, or why the request fails first. */
  function CreateFields(body: Object): (r: Result<NewFields, Rejection>)
    ensures r == Err(BadName) <==> !ValidName(body)
    ensures r == Err(TypeError) <==> ValidName(body) && BadOptional(body)
    ensures r.Ok? ==> r.value.name == Trim(body["name"].s)
    ensures r.Ok? ==> Ok(r.value.systemPrompt) == OptionalText(body, "systemPrompt")
    ensures r.Ok? ==> Ok(r.value.personality) == OptionalText(body, "personality")
    ensures r.Ok? ==> Ok(r.value.directives) == OptionalText(body, "directives")
    ensures r.Ok? ==> Ok(r.value.memoryPolicy) == OptionalText(body, "memoryPolicy")
  {
    if !ValidName(body) then Err(BadName)
    else
      var systemPrompt := OptionalText(body, "systemPrompt");
      var personality := OptionalText(body, "personality");
      var directives := OptionalText(body, "directives");
      var memoryPolicy := OptionalText(body, "memoryPolicy");
      if systemPrompt.Err? || personality.Err? || directives.Err? || memoryPolicy.Err? then Err(TypeError)
      else
        Ok(NewFields(Trim(body["name"].s), systemPrompt.value, personality.value, directives.value,
                     memoryPolicy.value))
  }

  /** Every field holds a string with no white space at either end, and the name is not empty. */
  predicate Normal(f: NewFields) {
    && f.name != "" && Trim(f.name) == f.name
    && Trim(f.systemPrompt) == f.systemPrompt && Trim(f.personality) == f.personality
    && Trim(f.directives) == f.directives && Trim(f.memoryPolicy) == f.memoryPolicy
  }

  /** An accepted optional POST field is already trimmed. */
  lemma OptionalTextTrimmed(body: Object, k: string)
    requires OptionalText(body, k).Ok?
    ensures Trim(OptionalText(body, k).value) == OptionalText(body, k).value
  {
    if k in body && body[k].JStr? {
      TrimIdempotent(body[k].s);
    }
  }

  /** Accepted POST data is normal. */
  lemma CreatedFieldsNormal(body: Object)
    requires CreateFields(body).Ok?
    ensures Normal(CreateFields(body).value)
  {
    TrimIdempotent(body["name"].s);
    OptionalTextTrimmed(body, "systemPrompt");
    OptionalTextTrimmed(body, "personality");
    OptionalTextTrimmed(body, "directives");
    OptionalTextTrimmed(body, "memoryPolicy");
  }

  /** Normal data posted as a body comes back unchanged. */
  lemma CreateFieldsRoundTrip(f: NewFields)
    requires Normal(f)
    ensures CreateFields(ToObject(f)) == Ok(f)
  {
  }

  /** Posting the data POST built changes nothing: the normalisation is idempotent. */
  lemma CreateFieldsIdempotent(body: Object)
    requires CreateFields(body).Ok?
    ensures CreateFields(ToObject(CreateFields(body).value)) == CreateFields(body)
  {
    CreatedFieldsNormal(body);
    CreateFieldsRoundTrip(CreateFields(body).value);
  }

  /**
   * The `updates` the `if (field !== undefined)` steps build from `body` for the fields `ks`, in
   * order: each field present, trimmed; `.trim()` on a non-string (`null` included) throws.
   */
  function UpdatesFor(body: Object, ks: seq<string>): (r: Result<Object, Rejection>)
    ensures r.Err? <==> exists k :: k in ks && k in body && !body[k].JStr?
    ensures r.Err? ==> r.error == TypeError
    ensures r.Ok? ==> forall k :: k in r.value <==> k in ks && k in body
    ensures r.Ok? ==> forall k :: k in r.value ==> body[k].JStr? && r.value[k] == JStr(Trim(body[k].s))
    decreases |ks|
  {
    if ks == [] then Ok(map[])
    else
      var k := ks[|ks| - 1];
      var before := UpdatesFor(body, ks[..|ks| - 1]);
      assert forall x :: x in ks <==> x in ks[..|ks| - 1] || x == k;
      if before.Err? then before
      else if k !in body then before
      else if body[k].JStr? then Ok(before.value[k := JStr(Trim(body[k].s))])
      else Err(TypeError)
  }

  /** The `updates` PATCH hands to `updateDirective`. */
  function UpdatesOf(body: Object): (r: Result<Object, Rejection>)
    ensures r.Err? <==> exists k :: k in Fields && k in body && !body[k].JStr?
    ensures r.Err? ==> r.error == TypeError
    ensures r.Ok? ==> forall k :: k in r.value <==> k in Fields && k in body
    ensures r.Ok? ==> forall k :: k in r.value ==> body[k].JStr? && r.value[k] == JStr(Trim(body[k].s))
  {
    UpdatesFor(body, Fields)
  }

  /** Building updates twice over the same fields gives the same updates. */
  lemma UpdatesForIdempotent(body: Object, ks: seq<string>)
    requires UpdatesFor(body, ks).Ok?
    ensures UpdatesFor(UpdatesFor(body, ks).value, ks) == UpdatesFor(body, ks)
  {
    var u := UpdatesFor(body, ks).value;
    forall k | k in u
      ensures Trim(u[k].s) == u[k].s
    {
      TrimIdempotent(body[k].s);
    }
    var again := UpdatesFor(u, ks);
    assert again.Ok?;
    assert again.value == u;
  }

  /** Sending the updates a PATCH built as a second PATCH gives the same updates. */
  lemma UpdatesIdempotent(body: Object)
    requires UpdatesOf(body).Ok?
    ensures UpdatesOf(UpdatesOf(body).value) == UpdatesOf(body)
  {
    UpdatesForIdempotent(body, Fields);
  }

  /** A PATCH never carries an `id`, so the directive it changes keeps its id. */
  lemma PatchKeepsId(d: Record, body: Object, now: string)
    requires UpdatesOf(body).Ok?
    ensures IdOf(Updated(d, UpdatesOf(body).value, now)) == IdOf(d)
  {
    assert "id" !in Fields;
    UpdatedKeepsId(d, UpdatesOf(body).value, now);
  }

  /** `u` holds exactly the fields of `ks` that `body` has, each trimmed. */
  ghost predicate TrimmedUpdates(u: Object, body: Object, ks: seq<string>) {
    && (forall k :: k in u <==> k in ks && k in body)
    && (forall k :: k in u ==> body[k].JStr? && u[k] == JStr(Trim(body[k].s)))
  }

  /** Applying such updates sets those fields to their trimmed values. */
  lemma UpdatedSetsNamedFields(d: Record, u: Object, body: Object, ks: seq<string>, now: string)
    requires TrimmedUpdates(u, body, ks) && "updatedAt" !in ks
    ensures forall k :: k in ks && k in body ==>
      k in Updated(d, u, now) && Updated(d, u, now)[k] == JStr(Trim(body[k].s))
  {
    var after := Updated(d, u, now);
    forall k | k in ks && k in body
      ensures k in after && after[k] == JStr(Trim(body[k].s))
    {
      assert k in u;
    }
  }

  /** Applying such updates leaves every other field (`updatedAt` apart) as it was. */
  lemma UpdatedKeepsOtherFields(d: Record, u: Object, body: Object, ks: seq<string>, now: string)
    requires TrimmedUpdates(u, body, ks)
    ensures forall k :: k != "updatedAt" && (k !in ks || k !in body) ==> Field(Updated(d, u, now), k) == Field(d, k)
  {
    var after := Updated(d, u, now);
    forall k | k != "updatedAt" && (k !in ks || k !in body)
      ensures Field(after, k) == Field(d, k)
    {
      assert k !in u;
    }
  }

  /** A PATCH sets exactly the fields it names, to their trimmed values, and leaves the rest of the directive alone. */
  lemma PatchSetsNamedFields(d: Record, body: Object, now: string)
    requires UpdatesOf(body).Ok?
    ensures forall k :: k in Fields && k in body ==>
      k in Updated(d, UpdatesOf(body).value, now) && Updated(d, UpdatesOf(body).value, now)[k] == JStr(Trim(body[k].s))
    ensures forall k :: k != "updatedAt" && (k !in Fields || k !in body) ==>
      Field(Updated(d, UpdatesOf(body).value, now), k) == Field(d, k)
  {
    assert "updatedAt" !in Fields;
    UpdatedSetsNamedFields(d, UpdatesOf(body).value, body, Fields, now);
    UpdatedKeepsOtherFields(d, UpdatesOf(body).value, body, Fields, now);
  }

  /** Updates for a body with one field are that field alone, trimmed. */
  lemma OneFieldUpdates(u: Object, ks: seq<string>, k: string, v: string)
    requires TrimmedUpdates(u, map[k := JStr(v)], ks) && k in ks
    ensures u == map[k := JStr(Trim(v))]
  {
  }

  /** POST turns away a blank name that PATCH accepts and stores as the empty string. */
  lemma BlankNameOnlyOnPatch()
    ensures CreateFields(map["name" := JStr(" ")]) == Err(BadName)
    ensures UpdatesOf(map["name" := JStr(" ")]) == Ok(map["name" := JStr("")])
  {
    var body := map["name" := JStr(" ")];
    assert Trim(" ") == "";
    assert forall k :: k in body ==> body[k].JStr?;
    var u := UpdatesOf(body);
    assert u.Ok?;
    OneFieldUpdates(u.value, Fields, "name", " ");
  }

  /** The object POST builds has no `id`, so the service always assigns one. */
  lemma NoIdField(f: NewFields)
    ensures "id" !in ToObject(f)
  {
    assert "id" !in Fields;
  }

  /** A directive created from a POST keeps the trimmed name and gets no `id` from the body. */
  lemma PostedName(body: Object, uuid: string, now: string)
    requires CreateFields(body).Ok?
    ensures var created := NewDirective(ToObject(CreateFields(body).value), uuid, now);
      && "name" in created && created["name"] == JStr(Trim(body["name"].s))
      && IdOf(created) == IdKey(uuid)
  {
    assert "id" !in Fields;
  }

  /** A directive created from a POST is the one a later GET of its id finds. */
  lemma PostThenGet(ds: seq<Record>, body: Object, uuid: string, now: string)
    requires CreateFields(body).Ok?
    requires forall d :: d in ds ==> IdOf(d) != IdKey(uuid)
    ensures FindIndex(ds + [NewDirective(ToObject(CreateFields(body).value), uuid, now)], IdOf, IdKey(uuid)) == Some(|ds|)
  {
    NoIdField(CreateFields(body).value);
    FindCreated(ds, ToObject(CreateFields(body).value), uuid, now);
  }

  /** `GET /presets`. */
  function PresetsRoute(): (r: Reply)
    ensures r.PresetList? && |r.presets| == 4 && Status(r) == 200
    ensures r == PresetList(GetPresets())
  {
    PresetList(GetPresets())
  }

  /** `GET /`: the user's directives, or 500 when the file cannot be read. */
  method ListRoute(storage: DirectivesStorage, userId: string) returns (r: Reply)
    ensures storage.Stored(userId).Ok? ==> r == DirectiveList(storage.Stored(userId).value)
    ensures storage.Stored(userId).Err? ==> r == Failed
  {
    var directives := storage.GetDirectives(userId);
    if directives.Err? {
      return Failed;
    }
    return DirectiveList(directives.value);
  }

  /** `GET /:id`: 404 when no directive has the id. */
  method GetRoute(storage: DirectivesStorage, userId: string, directiveId: string) returns (r: Reply)
    ensures storage.Stored(userId).Err? ==> r == Failed
    ensures storage.Stored(userId).Ok? ==>
      var ds := storage.Stored(userId).value;
      match FindIndex(ds, IdOf, IdKey(directiveId))
      case None => r == NotFound
      case Some(i) => r == Found(ds[i])
  {
    var directive := storage.GetDirective(userId, directiveId);
    if directive.Err? {
      return Failed;
    }
    if directive.value.None? {
      return NotFound;
    }
    return Found(directive.value.value);
  }

  /** `POST /`: 400 for a bad name before anything is read, then `createDirective` on the normalised body. */
  method PostRoute(storage: DirectivesStorage, userId: string, body: Object, uuid: string, now: string, fault: SaveFault)
    returns (r: Reply)
    modifies storage
    ensures !ValidName(body) ==> r == Invalid && storage.files == old(storage.files)
    ensures CreateFields(body) == Err(TypeError) ==> r == Failed && storage.files == old(storage.files)
    ensures CreateFields(body).Ok? && old(storage.Stored(userId)).Err? ==>
      r == Failed && storage.files == old(storage.files)
    ensures var path := DirectivesPath(storage.storagePath, userId);
      CreateFields(body).Ok? && old(storage.Stored(userId)).Ok? ==>
        var created := NewDirective(ToObject(CreateFields(body).value), uuid, now);
        && storage.files == AfterAtomicSave(old(storage.files), path, path + ".tmp",
                                            old(storage.Stored(userId)).value + [created], fault)
        && r == (if fault == NoFault then Created(created) else Failed)
  {
    var data := CreateFields(body);
    if data.Err? {
      if data.error == BadName {
        return Invalid;
      }
      return Failed;
    }
    var directive := storage.CreateDirective(userId, ToObject(data.value), uuid, now, fault);
    if directive.Err? {
      return Failed;
    }
    return Created(directive.value);
  }

  /** `PATCH /:id`: `updateDirective` with the fields present, 404 when no directive has the id. */
  method PatchRoute(storage: DirectivesStorage, userId: string, directiveId: string, body: Object, now: string,
                    fault: SaveFault)
    returns (r: Reply)
    modifies storage
    ensures UpdatesOf(body).Err? ==> r == Failed && storage.files == old(storage.files)
    ensures UpdatesOf(body).Ok? && old(storage.Stored(userId)).Err? ==>
      r == Failed && storage.files == old(storage.files)
    ensures (UpdatesOf(body).Ok? && old(storage.Stored(userId)).Ok? &&
             FindIndex(old(storage.Stored(userId)).value, IdOf, IdKey(directiveId)).None?) ==>
        r == NotFound && storage.files == old(storage.files)
    ensures var path := DirectivesPath(storage.storagePath, userId);
      UpdatesOf(body).Ok? && old(storage.Stored(userId)).Ok? &&
      FindIndex(old(storage.Stored(userId)).value, IdOf, IdKey(directiveId)).Some? ==>
        var ds := old(storage.Stored(userId)).value;
        var i := FindIndex(ds, IdOf, IdKey(directiveId)).value;
        var d := Updated(ds[i], UpdatesOf(body).value, now);
        && storage.files == AfterAtomicSave(old(storage.files), path, path + ".tmp", ds[i := d], fault)
        && r == (if fault == NoFault then Changed(d) else Failed)
  {
    var updates := UpdatesOf(body);
    if updates.Err? {
      return Failed;
    }
    var directive := storage.UpdateDirective(userId, directiveId, updates.value, now, fault);
    if directive.Err? {
      return Failed;
    }
    if directive.value.None? {
      return NotFound;
    }
    return Changed(directive.value.value);
  }

  /** `DELETE /:id`: 404 when no directive has the id. */
  method DeleteRoute(storage: DirectivesStorage, userId: string, directiveId: string, fault: SaveFault)
    returns (r: Reply)
    modifies storage
    ensures old(storage.Stored(userId)).Err? ==> r == Failed && storage.files == old(storage.files)
    ensures (old(storage.Stored(userId)).Ok? &&
             FindIndex(old(storage.Stored(userId)).value, IdOf, IdKey(directiveId)).None?) ==>
        r == NotFound && storage.files == old(storage.files)
    ensures var path := DirectivesPath(storage.storagePath, userId);
      old(storage.Stored(userId)).Ok? &&
      FindIndex(old(storage.Stored(userId)).value, IdOf, IdKey(directiveId)).Some? ==>
        var kept := Without(old(storage.Stored(userId)).value, IdOf, IdKey(directiveId));
        && storage.files == AfterAtomicSave(old(storage.files), path, path + ".tmp", kept, fault)
        && r == (if fault == NoFault then Deleted else Failed)
  {
    var deleted := storage.DeleteDirective(userId, directiveId, fault);
    if deleted.Err? {
      return Failed;
    }
    if !deleted.value {
      return NotFound;
    }
    return Deleted;
  }
}
