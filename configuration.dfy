/**
 * The shape of the launcher's configuration after `json.load`, and the
 * read-only queries the server makes of it: model lookup, the model file
 * path (`get_model_path`) and the model catalogue (`get_models`).
 *
 * Every scalar value is kept as its `str()` rendering: the server only
 * compares, joins and forwards these values, it never computes with them.
 */
module Configuration {
  import opened Wrappers

  /** One configuration section ("server", "security", "paths"): key to value. */
  type Section = map<string, string>

  /** One entry of the "models" object: its scalar fields and, if present, "extra_args". */
  datatype ModelCfg = ModelCfg(fields: map<string, string>, extraArgs: Option<seq<string>>)

  /** The "models" object as (id, entry) pairs in the file's order. */
  type ModelTable = seq<(string, ModelCfg)>

  /** The top-level object; `None` stands for a missing top-level key. */
  datatype Config = Config(
    server: Option<Section>,
    security: Option<Section>,
    paths: Option<Section>,
    models: Option<ModelTable>)

  const DefaultContext: string := "8192"
  const DefaultGpuLayers: string := "48"

  /**
   * `models[id]`: the entry stored under `id`, if any; with repeated ids,
   * the first one.
   */
  function Lookup(ms: ModelTable, id: string): (r: Option<ModelCfg>)
    ensures r.Some? <==> exists i :: 0 <= i < |ms| && ms[i].0 == id
    ensures r.Some? ==> exists i :: 0 <= i < |ms| && ms[i] == (id, r.value)
    ensures forall i :: 0 <= i < |ms| && ms[i].0 == id && (forall j :: 0 <= j < i ==> ms[j].0 != id) ==>
              r == Some(ms[i].1)
  {
    if ms == [] then None
    else if ms[0].0 == id then Some(ms[0].1)
    else
      var r := Lookup(ms[1..], id);
      assert forall i :: 1 <= i < |ms| ==> ms[i] == ms[1..][i - 1];
      r
  }

  /** `id in CONFIG["models"]`. */
  predicate HasModel(c: Config, id: string) {
    c.models.Some? && Lookup(c.models.value, id).Some?
  }

  function ModelOf(c: Config, id: string): ModelCfg
    requires HasModel(c, id)
  {
    Lookup(c.models.value, id).value
  }

  /**
   * Every key the running server reads without a default, except each
   * model's "name" (validation only warns about it): what a configuration
   * that passes validation is guaranteed to contain.
   */
  predicate Complete(c: Config) {
    && c.server.Some? && c.security.Some? && c.paths.Some? && c.models.Some?
    && "host" in c.server.value && "port" in c.server.value
    && "llama_host" in c.server.value && "llama_port" in c.server.value
    && "api_key" in c.security.value
    && "llama_server" in c.paths.value && "models_base" in c.paths.value
    && forall i :: 0 <= i < |c.models.value| ==> "file" in c.models.value[i].1.fields
  }

  lemma KnownModelHasFile(c: Config, id: string)
    requires Complete(c) && HasModel(c, id)
    ensures "file" in ModelOf(c, id).fields
  {
    var i :| 0 <= i < |c.models.value| && c.models.value[i] == (id, ModelOf(c, id));
  }

  /** `os.path.join(base, name)` with the POSIX rule for two components. */
  function JoinPath(base: string, name: string): (r: string)
    ensures |r| >= |name| && r[|r| - |name|..] == name
    ensures (name == [] || name[0] != '/') ==> |r| >= |base| && r[..|base|] == base
    ensures name != [] && name[0] == '/' ==> r == name
    ensures (name == [] || name[0] != '/') && base != [] && base[|base| - 1] != '/' ==> r == base + "/" + name
    ensures (name == [] || name[0] != '/') && (base == [] || base[|base| - 1] == '/') ==> r == base + name
  {
    if name != [] && name[0] == '/' then name
    else if base == [] || base[|base| - 1] == '/' then base + name
    else base + "/" + name
  }

  /** `get_model_path`: the model file resolved against "models_base". */
  function ModelPath(c: Config, m: ModelCfg): (r: string)
    requires c.paths.Some? && "models_base" in c.paths.value && "file" in m.fields
    ensures |r| >= |m.fields["file"]| && r[|r| - |m.fields["file"]|..] == m.fields["file"]
    ensures m.fields["file"] == [] || m.fields["file"][0] != '/' ==>
              |r| >= |c.paths.value["models_base"]| &&
              r[..|c.paths.value["models_base"]|] == c.paths.value["models_base"]
    ensures m.fields["file"] != [] && m.fields["file"][0] == '/' ==> r == m.fields["file"]
    ensures (m.fields["file"] == [] || m.fields["file"][0] != '/')
            && c.paths.value["models_base"] != []
            && c.paths.value["models_base"][|c.paths.value["models_base"]| - 1] != '/' ==>
              r == c.paths.value["models_base"] + "/" + m.fields["file"]
  {
    JoinPath(c.paths.value["models_base"], m.fields["file"])
  }

  /** One catalogue entry of `get_models`. */
  datatype ModelInfo = ModelInfo(name: string, context: string)

  /** `model.get("context", 8192)`. */
  function ContextOf(m: ModelCfg): string {
    if "context" in m.fields then m.fields["context"] else DefaultContext
  }

  /**
   * `get_models`: every model id in order with its display name and context
   * size; `None` when some entry has no "name" (the comprehension raises
   * `KeyError`).
   */
  function GetModels(ms: ModelTable): (r: Option<seq<(string, ModelInfo)>>)
    ensures r.Some? <==> forall i :: 0 <= i < |ms| ==> "name" in ms[i].1.fields
    ensures r.Some? ==> |r.value| == |ms|
    ensures r.Some? ==> forall i :: 0 <= i < |ms| ==>
              "name" in ms[i].1.fields &&
              r.value[i] == (ms[i].0, ModelInfo(ms[i].1.fields["name"], ContextOf(ms[i].1)))
  {
    if ms == [] then Some([])
    else if "name" !in ms[0].1.fields then None
    else
      var rest := GetModels(ms[1..]);
      assert forall i :: 1 <= i < |ms| ==> ms[i] == ms[1..][i - 1];
      if rest.None? then None
      else Some([(ms[0].0, ModelInfo(ms[0].1.fields["name"], ContextOf(ms[0].1)))] + rest.value)
  }
}
