/** Loading the speech-to-text settings: the saved file, when there is one
    and it decodes to a JSON object, is merged over the defaults, and a
    saved "base" model size is moved up to "small". Reading the file is a
    parameter (`None` when it is missing or cannot be read), and so is
    `json.loads`; every failure falls back to the defaults. */
module SttSettings {
  import opened Py
  import opened PyJson

  const Defaults: map<string, Json> := map[
    "model_size" := JStr("small"),
    "language" := JStr("en"),
    "compute_type" := JStr("int8"),
    "device" := JStr("cpu")]

  /** A decoded JSON object as a Python `dict`: a later duplicate key wins. */
  function ObjectToMap(fields: seq<(string, Json)>): (m: map<string, Json>)
    ensures forall k :: k in m <==> exists i :: 0 <= i < |fields| && fields[i].0 == k
    decreases |fields|
  {
    if fields == [] then map[]
    else
      var init := fields[..|fields| - 1];
      var last := fields[|fields| - 1];
      var m := ObjectToMap(init)[last.0 := last.1];
      assert forall i :: 0 <= i < |init| ==> init[i] == fields[i];
      m
  }

  /** Each key of the dict holds the value of its last field. */
  lemma {:induction false} ObjectToMapLast(fields: seq<(string, Json)>, i: int)
    requires LastOfKey(fields, i)
    ensures fields[i].0 in ObjectToMap(fields) && ObjectToMap(fields)[fields[i].0] == fields[i].1
    decreases |fields|
  {
    if i < |fields| - 1 {
      LastOfKeyInit(fields, i);
      ObjectToMapLast(fields[..|fields| - 1], i);
    }
  }

  /** `load_stt_settings`: every default key is present in the result,
      and the model size is never "base". */
  function LoadSttSettings(contents: Option<string>, loads: string -> Option<Json>): (r: map<string, Json>)
    ensures Defaults.Keys <= r.Keys
    ensures "model_size" in r && r["model_size"] != JStr("base")
  {
    if contents.None? then Defaults
    else
      var data := loads(contents.value);
      if data.None? || !data.value.JObj? then Defaults
      else
        var merged := Defaults + ObjectToMap(data.value.fields);
        if merged["model_size"] == JStr("base") then merged["model_size" := JStr("small")] else merged
  }

  /** With no file, an unreadable one, undecodable contents or a decoded
      value that is not an object, the result is the defaults. */
  lemma FallsBackToDefaults(contents: Option<string>, loads: string -> Option<Json>)
    requires contents.None? || loads(contents.value).None? || !loads(contents.value).value.JObj?
    ensures LoadSttSettings(contents, loads) == Defaults
  {
  }

  /** A decoded object: every default key is present, every saved key is
      kept, a saved value (the last field of its key) overrides the default,
      and only a saved "base" model size is changed, to "small". */
  lemma MergesOverDefaults(contents: string, loads: string -> Option<Json>, fields: seq<(string, Json)>)
    requires loads(contents) == Some(JObj(fields))
    ensures var r := LoadSttSettings(Some(contents), loads);
      var saved := ObjectToMap(fields);
      && r.Keys == Defaults.Keys + saved.Keys
      && (forall k :: k in r && k != "model_size" ==> r[k] == if k in saved then saved[k] else Defaults[k])
      && r["model_size"] == (if "model_size" !in saved then JStr("small")
                            else if saved["model_size"] == JStr("base") then JStr("small")
                            else saved["model_size"])
    ensures forall i :: LastOfKey(fields, i) && fields[i].0 != "model_size" ==>
      LoadSttSettings(Some(contents), loads)[fields[i].0] == fields[i].1
  {
    forall i | LastOfKey(fields, i) {
      ObjectToMapLast(fields, i);
    }
  }
}
