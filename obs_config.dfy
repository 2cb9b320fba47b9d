/** `WriteOBSConfig`, which stores a server URL and a stream key in OBS's
    `service.json`. The same function appears in config/settings.go,
    ui/main_window_callback.go and ui/main_window_obs.go with the same body.
    File reading, JSON text decoding, `json.MarshalIndent` and writing are
    outside the model: the method is given their outcomes and returns the
    document value it hands to the encoder. */
module ObsConfig {

  import opened Wrappers
  import opened Os
  import opened Errors

  /** A decoded JSON value (`interface{}` after `json.Unmarshal`). Go
      decodes every number to a float64, which `json.MarshalIndent` writes
      back in its own form; a number is kept here as an uninterpreted token
      (see README, "Left out"). */
  datatype Json =
    | JNull
    | JBool(b: bool)
    | JNumber(literal: string)
    | JString(s: string)
    | JArray(items: seq<Json>)
    | JObject(members: map<string, Json>)

  type Object = map<string, Json>

  /** What reading `configPath` gives: a read error, text that is not JSON
      (the decoder's message), or a JSON value. */
  type FileContent = Result<Result<Json, string>, string>

  /** The outcomes, for one call, of the steps outside the model. */
  datatype ConfigFile = ConfigFile(stat: Stat, content: FileContent, writeErr: Option<string>)

  /** `json.Unmarshal` into `map[string]interface{}`: an object gives its
      members, `null` leaves the map nil, any other value is a type error. */
  datatype TopLevel = Members(m: Object) | NilMap | NotAnObject

  function DecodeTopLevel(doc: Json): TopLevel {
    match doc
    case JObject(m) => Members(m)
    case JNull => NilMap
    case _ => NotAnObject
  }

  /** What the code does to the top-level map before writing, as written:
      assigning `cfgMap["settings"]` on a nil map panics. */
  datatype EnsureOutcome = Ensured(m: Object) | NilMapAssignment | NotObject

  /** `if cfgMap["settings"] == nil { cfgMap["settings"] = make(…) }` then the
      type assertion, on the map as `json.Unmarshal` left it. A map lookup of a
      missing key and an explicit JSON `null` are both nil in Go. */
  function EnsureSettingsAsWritten(top: TopLevel): (r: EnsureOutcome)
    requires !top.NotAnObject?
    ensures top.NilMap? ==> r.NilMapAssignment?
  {
    match top
    case NilMap => NilMapAssignment
    case Members(m) =>
      if "settings" !in m || m["settings"] == JNull then Ensured(m["settings" := JObject(map[])])
      else if m["settings"].JObject? then Ensured(m)
      else NotObject
  }

  /** A `service.json` holding `null` makes the code as written assign into
      a nil map, which panics. */
  lemma NullDocumentPanics()
    ensures EnsureSettingsAsWritten(DecodeTopLevel(JNull)) == NilMapAssignment
  {
  }

  /** The top-level members the update starts from, with a `null` document
      read as an empty object (the code as written panics there). */
  function StartingMembers(top: TopLevel): Object
    requires !top.NotAnObject?
  {
    if top.NilMap? then map[] else top.m
  }

  /** For a found file holding an object, the corrected `WriteOBSConfig`
      decides as the code as written does: it reports the settings format
      error exactly when the code as written finds "settings" not to be an
      object, reaches the encoder exactly when the code as written gets past
      that check, and then updates the same members in the same way. */
  lemma CorrectedAgreesOnObjects(p: string, file: ConfigFile, m: Object, server: string, key: string, after: Object)
    requires !IsNotExist(file.stat) && file.content == Success(Success(JObject(m)))
    ensures WriteError(p, file) == Some(SettingsNotObject) <==> EnsureSettingsAsWritten(Members(m)).NotObject?
    ensures ReachesEncoder(file) <==> EnsureSettingsAsWritten(Members(m)).Ensured?
    ensures EnsureSettingsAsWritten(Members(m)).Ensured? ==>
      (Updated(Decoded(file), after, server, key) <==> Updated(EnsureSettingsAsWritten(Members(m)).m, after, server, key))
  {
  }

  /** The message of Go's `json.UnmarshalTypeError` for a document that is
      neither an object nor `null`: it names the kind of JSON value found. */
  function NotMapMessage(doc: Json): string
    requires DecodeTopLevel(doc).NotAnObject?
  {
    var kind := match doc
      case JBool(_) => "bool"
      case JNumber(_) => "number"
      case JString(_) => "string"
      case JArray(_) => "array";
    "json: cannot unmarshal " + kind + " into Go value of type map[string]interface {}"
  }

  /** The error `WriteOBSConfig` returns, in the order the code checks:
      the file's existence, reading, decoding, the top-level type, the type
      of "settings", then writing. */
  function WriteError(configPath: string, file: ConfigFile): Option<Error> {
    if IsNotExist(file.stat) then Some(ConfigFileMissing(configPath))
    else if file.content.Failure? then Some(ConfigReadFailed(file.content.error))
    else if file.content.value.Failure? then Some(ConfigParseFailed(file.content.value.error))
    else if DecodeTopLevel(file.content.value.value).NotAnObject? then Some(ConfigParseFailed(NotMapMessage(file.content.value.value)))
    else if !SettingsUsable(StartingMembers(DecodeTopLevel(file.content.value.value))) then Some(SettingsNotObject)
    else if file.writeErr.Some? then Some(ConfigWriteFailed(file.writeErr.value))
    else None
  }

  /** "settings" is missing, `null` or an object. */
  predicate SettingsUsable(m: Object) {
    "settings" !in m || m["settings"] == JNull || m["settings"].JObject?
  }

  /** The code gets as far as encoding the updated document. */
  predicate ReachesEncoder(file: ConfigFile) {
    && !IsNotExist(file.stat) && file.content.Success? && file.content.value.Success?
    && !DecodeTopLevel(file.content.value.value).NotAnObject?
    && SettingsUsable(StartingMembers(DecodeTopLevel(file.content.value.value)))
  }

  /** The members the update starts from, once the file has been decoded. */
  function Decoded(file: ConfigFile): Object
    requires file.content.Success? && file.content.value.Success?
    requires !DecodeTopLevel(file.content.value.value).NotAnObject?
  {
    StartingMembers(DecodeTopLevel(file.content.value.value))
  }

  /** `WriteOBSConfig(configPath, server, key)`. `written` is the document
      passed to `json.MarshalIndent` and `os.WriteFile`, if the code gets
      that far. */
  method WriteOBSConfig(configPath: string, server: string, key: string, file: ConfigFile)
    returns (err: Option<Error>, written: Option<Object>)
    // a missing file is reported before anything is read
    ensures IsNotExist(file.stat) ==> err == Some(ConfigFileMissing(configPath)) && written == None
    ensures !IsNotExist(file.stat) && file.content.Failure? ==>
      err == Some(ConfigReadFailed(file.content.error)) && written == None
    // text that does not decode, or decodes to neither an object nor null: nothing is written
    ensures !IsNotExist(file.stat) && file.content.Success? && file.content.value.Failure? ==>
      err == Some(ConfigParseFailed(file.content.value.error)) && written == None
    ensures (!IsNotExist(file.stat) && file.content.Success? && file.content.value.Success?
             && DecodeTopLevel(file.content.value.value).NotAnObject?) ==>
      err == Some(ConfigParseFailed(NotMapMessage(file.content.value.value))) && written == None
    // otherwise the outcome depends on the starting members only
    ensures (!IsNotExist(file.stat) && file.content.Success? && file.content.value.Success?
             && !DecodeTopLevel(file.content.value.value).NotAnObject?) ==>
      var m := StartingMembers(DecodeTopLevel(file.content.value.value));
      if "settings" in m && m["settings"] != JNull && !m["settings"].JObject? then
        err == Some(SettingsNotObject) && written == None
      else
        && written.Some?
        && Updated(m, written.value, server, key)
        && err == (if file.writeErr.Some? then Some(ConfigWriteFailed(file.writeErr.value)) else None)
    // in one statement: the error is WriteError's, and a document is encoded iff the checks pass
    ensures err == WriteError(configPath, file)
    ensures written.Some? <==> ReachesEncoder(file)
    ensures written.Some? ==> Updated(Decoded(file), written.value, server, key)
  {
    if IsNotExist(file.stat) {
      return Some(ConfigFileMissing(configPath)), None;
    }
    if file.content.Failure? {
      return Some(ConfigReadFailed(file.content.error)), None;
    }
    if file.content.value.Failure? {
      return Some(ConfigParseFailed(file.content.value.error)), None;
    }
    var top := DecodeTopLevel(file.content.value.value);
    if top.NotAnObject? {
      return Some(ConfigParseFailed(NotMapMessage(file.content.value.value))), None;
    }
    var cfgMap := StartingMembers(top);
    if "settings" !in cfgMap || cfgMap["settings"] == JNull {
      cfgMap := cfgMap["settings" := JObject(map[])];
    }
    if !cfgMap["settings"].JObject? {
      return Some(SettingsNotObject), None;
    }
    var settings := cfgMap["settings"].members;
    settings := settings["server" := JString(server)];
    settings := settings["key" := JString(key)];
    cfgMap := cfgMap["settings" := JObject(settings)];
    written := Some(cfgMap);
    if file.writeErr.Some? {
      return Some(ConfigWriteFailed(file.writeErr.value)), written;
    }
    return None, written;
  }

  /** The update the code promises: `after` has the keys of `before` plus
      "settings"; every top-level key but "settings" keeps its value;
      "settings" is an object whose "server" and "key" are the given strings
      and whose other entries are those of the old "settings" object (none
      when it was missing or null). */
  ghost predicate Updated(before: Object, after: Object, server: string, key: string) {
    && after.Keys == before.Keys + {"settings"}
    && (forall k :: k in before && k != "settings" ==> after[k] == before[k])
    && after["settings"].JObject?
    && var s := after["settings"].members;
       var prev := if "settings" in before && before["settings"].JObject? then before["settings"].members else map[];
       && s.Keys == prev.Keys + {"server", "key"}
       && s["server"] == JString(server)
       && s["key"] == JString(key)
       && (forall k :: k in prev && k != "server" && k != "key" ==> s[k] == prev[k])
  }

  /** Writing the same credentials again changes nothing: the update is
      idempotent at the value level. */
  lemma UpdateIdempotent(before: Object, mid: Object, after: Object, server: string, key: string)
    requires Updated(before, mid, server, key)
    requires Updated(mid, after, server, key)
    ensures after == mid
  {
    var s1 := mid["settings"].members;
    var s2 := after["settings"].members;
    assert s2 == s1;
  }
}
