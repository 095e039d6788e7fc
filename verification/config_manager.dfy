/** The configuration manager (lib/config-manager.js and its TypeScript twin
    src/lib/config-manager.ts): built-in defaults, a deep merge of the configuration file
    over them, and lookup of a value by a dotted path. The file system is not modelled:
    `LoadConfig` is told whether the file was missing, unreadable or unparsable, or what it
    parsed to, and returns what it would save. */
module ConfigManager {
  import opened Common
  import opened Text
  import opened Json

  /** What reading and parsing the configuration file produced. */
  datatype ConfigFile =
    | Missing               // `fs.existsSync` is false
    | Unreadable            // reading failed or `JSON.parse` threw
    | Parsed(value: Json)

  /** The built-in configuration. */
  function DefaultConfig(): (r: Json)
    ensures r.JObj? && r.fields.Keys == {"api", "speaker", "output", "playback"}
    ensures forall k :: k in r.fields ==> r.fields[k].JObj?
  {
    JObj(map[
      "api" := JObj(map["url" := JStr("http://localhost:50021"), "timeout" := JNum(10000)]),
      "speaker" := JObj(map["default_id" := JNum(0), "name" := JStr("四国めたん（ノーマル）")]),
      "output" := JObj(map["dir" := JStr("output"), "filename" := JStr("output.wav")]),
      "playback" := JObj(map["auto_play" := JBool(true)])
    ])
  }

  lemma DefaultApi()
    ensures Lookup(DefaultConfig(), ["api", "url"]) == Some(JStr("http://localhost:50021"))
    ensures Lookup(DefaultConfig(), ["api", "timeout"]) == Some(JNum(10000))
  {
    var api := DefaultConfig().fields["api"];
    assert Lookup(DefaultConfig(), ["api", "url"]) == Lookup(api, ["url"]);
    assert Lookup(DefaultConfig(), ["api", "timeout"]) == Lookup(api, ["timeout"]);
  }

  lemma DefaultSpeakerAndOutput()
    ensures Lookup(DefaultConfig(), ["speaker", "default_id"]) == Some(JNum(0))
    ensures Lookup(DefaultConfig(), ["output", "dir"]) == Some(JStr("output"))
    ensures Lookup(DefaultConfig(), ["output", "filename"]) == Some(JStr("output.wav"))
  {
    var speaker := DefaultConfig().fields["speaker"];
    var output := DefaultConfig().fields["output"];
    assert Lookup(DefaultConfig(), ["speaker", "default_id"]) == Lookup(speaker, ["default_id"]);
    assert Lookup(DefaultConfig(), ["output", "dir"]) == Lookup(output, ["dir"]);
    assert Lookup(DefaultConfig(), ["output", "filename"]) == Lookup(output, ["filename"]);
  }

  lemma DefaultPlayback()
    ensures Lookup(DefaultConfig(), ["playback", "auto_play"]) == Some(JBool(true))
  {
    var playback := DefaultConfig().fields["playback"];
    assert Lookup(DefaultConfig(), ["playback", "auto_play"]) == Lookup(playback, ["auto_play"]);
  }

  /** The deep merge of `source` over `target`, given the test that decides whether a
      source value is merged recursively (`isObject`). The result holds every key of either
      side; a source value replaces the target's, except that an object-like source value
      whose key the target (an object) also has is merged into the target's value. */
  function MergeWith(isObject: Json -> bool, target: Json, source: Json): (r: Json)
    ensures r.JObj? && r.fields.Keys == Entries(target).Keys + Entries(source).Keys
    ensures forall k :: k in Entries(target) && k !in Entries(source) ==> r.fields[k] == Entries(target)[k]
    ensures forall k :: k in Entries(source) && k !in Entries(target) ==> r.fields[k] == Entries(source)[k]
    ensures forall k :: k in Entries(source) && !isObject(Entries(source)[k]) ==> r.fields[k] == Entries(source)[k]
    decreases source
  {
    var t := Entries(target);
    var s := Entries(source);
    JObj(map k | k in t.Keys + s.Keys ::
      if k !in s then t[k]
      else if isObject(s[k]) && InstanceOfObject(source) && InstanceOfObject(target) && k in t
      then MergeWith(isObject, t[k], s[k])
      else s[k])
  }

  /** Whether the merge throws: `key in target` raises a TypeError when an object-like
      source value meets a target that is not an object. */
  predicate ThrowsWith(isObject: Json -> bool, target: Json, source: Json)
    ensures ThrowsWith(isObject, target, source) ==> InstanceOfObject(source)
    ensures (InstanceOfObject(source) && !InstanceOfObject(target) &&
             exists k :: k in Entries(source) && isObject(Entries(source)[k]))
            ==> ThrowsWith(isObject, target, source)
    decreases source
  {
    var s := Entries(source);
    exists k | k in s :: isObject(s[k]) && InstanceOfObject(source) &&
      (!InstanceOfObject(target) ||
       (k in Entries(target) && ThrowsWith(isObject, Entries(target)[k], s[k])))
  }

  /** `mergeConfig` of lib/config-manager.js, whose test is `source[key] instanceof Object`. */
  function MergeConfig(target: Json, source: Json): (r: Result<Json>)
    ensures r.Success? ==> r.value.JObj?
    ensures r.Success? ==> r.value.fields.Keys == Entries(target).Keys + Entries(source).Keys
    ensures r.Success? ==> forall k :: k in Entries(target) && k !in Entries(source) ==>
      r.value.fields[k] == Entries(target)[k]
    ensures r.Success? ==> forall k :: k in Entries(source) && k !in Entries(target) ==>
      r.value.fields[k] == Entries(source)[k]
    ensures r.Success? ==> forall k :: k in Entries(source) && !InstanceOfObject(Entries(source)[k]) ==>
      r.value.fields[k] == Entries(source)[k]
    ensures r.Failure? <==> ThrowsWith(InstanceOfObject, target, source)
  {
    if ThrowsWith(InstanceOfObject, target, source) then Failure("TypeError")
    else Success(MergeWith(InstanceOfObject, target, source))
  }

  /** `mergeConfig` of src/lib/config-manager.ts, whose test is
      `sourceValue && typeof sourceValue === 'object'`. */
  function MergeConfigTs(target: Json, source: Json): (r: Result<Json>)
    ensures r.Success? ==> r.value.JObj?
    ensures r.Success? ==> r.value.fields.Keys == Entries(target).Keys + Entries(source).Keys
    ensures r.Success? ==> forall k :: k in Entries(target) && k !in Entries(source) ==>
      r.value.fields[k] == Entries(target)[k]
    ensures r.Success? ==> forall k :: k in Entries(source) && k !in Entries(target) ==>
      r.value.fields[k] == Entries(source)[k]
    ensures r.Success? ==> forall k :: k in Entries(source) && !IsNonNullObject(Entries(source)[k]) ==>
      r.value.fields[k] == Entries(source)[k]
    ensures r.Failure? <==> ThrowsWith(IsNonNullObject, target, source)
  {
    if ThrowsWith(IsNonNullObject, target, source) then Failure("TypeError")
    else Success(MergeWith(IsNonNullObject, target, source))
  }

  /** On JSON values the two tests agree (`typeof null` is "object", but `null` is falsy),
      so the TypeScript merge computes exactly what the JavaScript one does. */
  lemma {:induction false} MergeTsAgrees(target: Json, source: Json)
    ensures MergeConfigTs(target, source) == MergeConfig(target, source)
    decreases source
  {
    ThrowsTsAgrees(target, source);
    MergeWithTsAgrees(target, source);
  }

  /** At a key both sides have, an object source value is merged recursively: the merge
      of the two values succeeds and is the merged configuration's value there. */
  lemma MergeConfigShared(target: Json, source: Json, k: string)
    requires MergeConfig(target, source).Success?
    requires k in Entries(source) && k in Entries(target) && InstanceOfObject(Entries(source)[k])
    ensures MergeConfig(Entries(target)[k], Entries(source)[k]) == Success(MergeConfig(target, source).value.fields[k])
  {
    var s := Entries(source);
    var t := Entries(target);
    assert source.JStr? ==> s[k].JStr?;
    assert InstanceOfObject(target);
    assert !ThrowsWith(InstanceOfObject, t[k], s[k]);
  }

  /** The defaults have no `websites` section, so the file's section, an array of URLs
      included, comes through the merge as the file wrote it. */
  lemma FileWebsitesKept(source: Json)
    requires MergeConfig(DefaultConfig(), source).Success? && "websites" in Entries(source)
    ensures MergeConfig(DefaultConfig(), source).value.fields["websites"] == Entries(source)["websites"]
  {
    DefaultLacksWebsites();
  }

  lemma DefaultLacksWebsites()
    ensures "websites" !in Entries(DefaultConfig())
  {
    assert "websites" !in DefaultConfig().fields.Keys;
  }

  /** The same recursive case for the TypeScript merge. */
  lemma MergeConfigTsShared(target: Json, source: Json, k: string)
    requires MergeConfigTs(target, source).Success?
    requires k in Entries(source) && k in Entries(target) && IsNonNullObject(Entries(source)[k])
    ensures MergeConfigTs(Entries(target)[k], Entries(source)[k]) == Success(MergeConfigTs(target, source).value.fields[k])
  {
    MergeTsAgrees(target, source);
    MergeTsAgrees(Entries(target)[k], Entries(source)[k]);
    MergeConfigShared(target, source, k);
  }

  lemma {:induction false} ThrowsTsAgrees(target: Json, source: Json)
    ensures ThrowsWith(IsNonNullObject, target, source) == ThrowsWith(InstanceOfObject, target, source)
    decreases source
  {
    var s := Entries(source);
    var t := Entries(target);
    forall k | k in s && InstanceOfObject(source) && InstanceOfObject(s[k]) && k in t
      ensures ThrowsWith(IsNonNullObject, t[k], s[k]) == ThrowsWith(InstanceOfObject, t[k], s[k])
    {
      ThrowsTsAgrees(t[k], s[k]);
    }
  }

  lemma {:induction false} MergeWithTsAgrees(target: Json, source: Json)
    ensures MergeWith(IsNonNullObject, target, source) == MergeWith(InstanceOfObject, target, source)
    decreases source, 1
  {
    var a := MergeWith(IsNonNullObject, target, source);
    var b := MergeWith(InstanceOfObject, target, source);
    forall k | k in a.fields
      ensures a.fields[k] == b.fields[k]
    {
      MergeWithTsAgreesAt(target, source, k);
    }
    assert a.fields == b.fields;
  }

  /** The step of `MergeWithTsAgrees` at one key. */
  lemma {:induction false} MergeWithTsAgreesAt(target: Json, source: Json, k: string)
    requires k in Entries(target).Keys + Entries(source).Keys
    ensures MergeWith(IsNonNullObject, target, source).fields[k] == MergeWith(InstanceOfObject, target, source).fields[k]
    decreases source, 0
  {
    var s := Entries(source);
    var t := Entries(target);
    if k in s {
      assert IsNonNullObject(s[k]) == InstanceOfObject(s[k]);
      if InstanceOfObject(s[k]) && InstanceOfObject(source) && InstanceOfObject(target) && k in t {
        MergeWithTsAgrees(t[k], s[k]);
      }
    }
  }

  /** The value reached from `value` by following `keys` through objects, or `None`
      (JavaScript's `undefined`) at the first step that is not an object or lacks the key. */
  function Lookup(value: Json, keys: seq<string>): (r: Option<Json>)
    ensures keys != [] && !IsNonNullObject(value) ==> r.None?
    ensures keys != [] && r.Some? ==> keys[0] in Entries(value)
    decreases keys
  {
    if keys == [] then Some(value)
    else if IsNonNullObject(value) && keys[0] in Entries(value) then Lookup(Entries(value)[keys[0]], keys[1..])
    else None
  }

  predicate IsDot(c: char) {
    c == '.'
  }

  /** A scalar the configuration file sets at a dotted path is what the merged
      configuration holds there. */
  lemma {:induction false} FileScalarWins(target: Json, source: Json, path: seq<string>, v: Json)
    requires path != [] && Lookup(source, path) == Some(v) && !InstanceOfObject(v)
    ensures Lookup(MergeWith(InstanceOfObject, target, source), path) == Some(v)
    decreases path
  {
    var k := path[0];
    var s := Entries(source);
    var t := Entries(target);
    var merged := MergeWith(InstanceOfObject, target, source);
    assert k in merged.fields;
    assert Lookup(merged, path) == Lookup(merged.fields[k], path[1..]);
    if InstanceOfObject(s[k]) && InstanceOfObject(target) && k in t {
      FileScalarWins(t[k], s[k], path[1..], v);
      assert merged.fields[k] == MergeWith(InstanceOfObject, t[k], s[k]);
    } else {
      assert merged.fields[k] == s[k];
    }
  }

  /** The file leaves `path` alone: no key along it is given a non-object value, and the
      path's last key is absent from the file. */
  predicate LeavesAlone(source: Json, path: seq<string>)
    decreases path
  {
    path != [] &&
    (path[0] !in Entries(source) ||
     (InstanceOfObject(Entries(source)[path[0]]) && LeavesAlone(Entries(source)[path[0]], path[1..])))
  }

  /** A default the configuration file leaves alone survives the merge. */
  lemma {:induction false} DefaultSurvives(target: Json, source: Json, path: seq<string>, v: Json)
    requires Lookup(target, path) == Some(v) && LeavesAlone(source, path)
    ensures Lookup(MergeWith(InstanceOfObject, target, source), path) == Some(v)
    decreases path
  {
    var k := path[0];
    var s := Entries(source);
    var t := Entries(target);
    var merged := MergeWith(InstanceOfObject, target, source);
    assert k in merged.fields;
    if k in s {
      DefaultSurvives(t[k], s[k], path[1..], v);
    }
  }

  /** The configuration manager: the defaults and the configuration in force. */
  class ConfigManager {
    const configPath: string
    const defaultConfig: Json
    var config: Json

    constructor (configPath: string)
      ensures this.configPath == configPath
      ensures defaultConfig == DefaultConfig() && config == defaultConfig
      ensures Lookup(config, ["api", "url"]) == Some(JStr("http://localhost:50021"))
      ensures Lookup(config, ["api", "timeout"]) == Some(JNum(10000))
      ensures Lookup(config, ["speaker", "default_id"]) == Some(JNum(0))
      ensures Lookup(config, ["output", "dir"]) == Some(JStr("output"))
      ensures Lookup(config, ["output", "filename"]) == Some(JStr("output.wav"))
      ensures Lookup(config, ["playback", "auto_play"]) == Some(JBool(true))
    {
      this.configPath := configPath;
      defaultConfig := DefaultConfig();
      config := DefaultConfig();
      DefaultApi();
      DefaultSpeakerAndOutput();
      DefaultPlayback();
    }

    /** `loadConfig`: a missing file keeps the configuration and saves it; an unreadable
        file, or a merge that throws, keeps it and saves nothing; otherwise the
        configuration becomes the file merged over the defaults. Returns what is saved. */
    method LoadConfig(file: ConfigFile) returns (saved: Option<Json>)
      modifies this
      ensures file.Missing? ==> config == old(config) && saved == Some(config)
      ensures file.Unreadable? ==> config == old(config) && saved == None
      ensures file.Parsed? && MergeConfig(defaultConfig, file.value).Success? ==>
        config == MergeConfig(defaultConfig, file.value).value && saved == None
      ensures file.Parsed? && MergeConfig(defaultConfig, file.value).Failure? ==>
        config == old(config) && saved == None
    {
      saved := None;
      match file {
        case Missing =>
          saved := Some(config);
        case Unreadable =>
        case Parsed(value) =>
          var merged := MergeConfig(defaultConfig, value);
          if merged.Success? {
            config := merged.value;
          }
      }
    }

    /** `get(path)`: follows the dot-separated keys of `path` from the configuration. */
    method Get(path: string) returns (r: Option<Json>)
      ensures r == Lookup(config, SplitWhere(path, IsDot))
    {
      var keys := SplitWhere(path, IsDot);
      var value := config;
      var i := 0;
      while i < |keys|
        invariant 0 <= i <= |keys|
        invariant Lookup(config, keys) == Lookup(value, keys[i..])
      {
        var key := keys[i];
        if IsNonNullObject(value) && key in Entries(value) {
          value := Entries(value)[key];
        } else {
          return None;
        }
        i := i + 1;
      }
      return Some(value);
    }
  }
}
