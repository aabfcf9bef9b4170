/**
 * `validate_config`: the start-up check of the configuration. Problems are
 * split into errors (the server refuses to start) and warnings (it starts
 * and prints them). The existence of a file or directory (`os.path.exists`)
 * is an oracle passed in by the caller.
 */
module Validation {
  import opened Wrappers
  import opened Configuration

  /** One diagnostic; `Message` renders the text the server prints. */
  datatype Issue =
    | MissingTopKey(key: string)
    | MissingHostOrPort
    | MissingLlamaHostOrPort
    | MissingApiKey
    | DefaultApiKey
    | LlamaServerNotFound(path: string)
    | MissingLlamaServerPath
    | ModelsDirNotFound(path: string)
    | MissingModelsBase
    | NoModels
    | ModelMissingName(id: string)
    | ModelMissingFile(id: string)
    | ModelFileNotFound(path: string)

  function Message(i: Issue): string {
    match i
    case MissingTopKey(k) => "Missing required config key: '" + k + "'"
    case MissingHostOrPort => "Missing 'host' or 'port' in server config"
    case MissingLlamaHostOrPort => "Missing 'llama_host' or 'llama_port' in server config"
    case MissingApiKey => "Missing 'api_key' in security config"
    case DefaultApiKey => "Using default API key - please change for security!"
    case LlamaServerNotFound(p) => "llama-server not found at: " + p
    case MissingLlamaServerPath => "Missing 'llama_server' path in config"
    case ModelsDirNotFound(p) => "Models directory not found at: " + p
    case MissingModelsBase => "Missing 'models_base' path in config"
    case NoModels => "No models defined in config"
    case ModelMissingName(id) => "Model '" + id + "' missing 'name' field"
    case ModelMissingFile(id) => "Model '" + id + "' missing 'file' field"
    case ModelFileNotFound(p) => "Model file not found: " + p
  }

  datatype Report = Report(errors: seq<Issue>, warnings: seq<Issue>)

  const RequiredKeys: seq<string> := ["server", "security", "paths", "models"]

  const DefaultApiKeyValue: string := "CHANGE_ME_TO_SOMETHING_RANDOM_1234567890"

  /** `key in config` for the top-level object. */
  predicate HasTopKey(c: Config, key: string) {
    if key == "server" then c.server.Some?
    else if key == "security" then c.security.Some?
    else if key == "paths" then c.paths.Some?
    else if key == "models" then c.models.Some?
    else false
  }

  predicate AllTopKeys(c: Config) {
    c.server.Some? && c.security.Some? && c.paths.Some? && c.models.Some?
  }

  // ----- the specification, one function per block of the source -----

  /** The missing required keys, in the order of `keys`. */
  function MissingKeys(c: Config, keys: seq<string>): seq<Issue> {
    if keys == [] then []
    else
      MissingKeys(c, keys[..|keys| - 1])
      + (if HasTopKey(c, keys[|keys| - 1]) then [] else [MissingTopKey(keys[|keys| - 1])])
  }

  function ServerIssues(s: Section): seq<Issue> {
    (if "host" !in s || "port" !in s then [MissingHostOrPort] else [])
    + (if "llama_host" !in s || "llama_port" !in s then [MissingLlamaHostOrPort] else [])
  }

  function SecurityIssues(s: Section): Report {
    if "api_key" !in s then Report([MissingApiKey], [])
    else if s["api_key"] == DefaultApiKeyValue then Report([], [DefaultApiKey])
    else Report([], [])
  }

  function PathIssues(p: Section, pathExists: string -> bool): seq<Issue> {
    (if "llama_server" !in p then [MissingLlamaServerPath]
     else if !pathExists(p["llama_server"]) then [LlamaServerNotFound(p["llama_server"])]
     else [])
    + (if "models_base" !in p then [MissingModelsBase]
       else if !pathExists(p["models_base"]) then [ModelsDirNotFound(p["models_base"])]
       else [])
  }

  /** The diagnostics for one model entry. */
  function ModelEntryIssues(id: string, m: ModelCfg, p: Section, pathExists: string -> bool): Report {
    var nameWarnings := if "name" !in m.fields then [ModelMissingName(id)] else [];
    if "file" !in m.fields then Report([ModelMissingFile(id)], nameWarnings)
    else if "models_base" in p && !pathExists(JoinPath(p["models_base"], m.fields["file"])) then
      Report([], nameWarnings + [ModelFileNotFound(JoinPath(p["models_base"], m.fields["file"]))])
    else Report([], nameWarnings)
  }

  /** The diagnostics for the model entries, in table order. */
  function ModelIssues(ms: ModelTable, p: Section, pathExists: string -> bool): Report {
    if ms == [] then Report([], [])
    else
      var prev := ModelIssues(ms[..|ms| - 1], p, pathExists);
      var last := ModelEntryIssues(ms[|ms| - 1].0, ms[|ms| - 1].1, p, pathExists);
      Report(prev.errors + last.errors, prev.warnings + last.warnings)
  }

  /** The (errors, warnings) pair `validate_config` returns. */
  function ConfigReport(c: Config, pathExists: string -> bool): Report {
    var missing := MissingKeys(c, RequiredKeys);
    if missing != [] then Report(missing, [])
    else
      TopKeysPresentIff(c);
      var sec := SecurityIssues(c.security.value);
      var mod := if c.models.value == [] then Report([], [NoModels])
                 else ModelIssues(c.models.value, c.paths.value, pathExists);
      Report(ServerIssues(c.server.value) + sec.errors + PathIssues(c.paths.value, pathExists) + mod.errors,
             sec.warnings + mod.warnings)
  }

  // ----- the imperative check -----

  /** `validate_config`, appending to the two lists as the source does. */
  method ValidateConfig(c: Config, pathExists: string -> bool) returns (errors: seq<Issue>, warnings: seq<Issue>)
    ensures Report(errors, warnings) == ConfigReport(c, pathExists)
  {
    errors := CheckRequiredKeys(c);
    warnings := [];
    if errors != [] {
      return;
    }
    TopKeysPresentIff(c);
    var server, security, paths, models := c.server.value, c.security.value, c.paths.value, c.models.value;

    if "host" !in server || "port" !in server {
      errors := errors + [MissingHostOrPort];
    }
    if "llama_host" !in server || "llama_port" !in server {
      errors := errors + [MissingLlamaHostOrPort];
    }

    assert errors == ServerIssues(server) && warnings == [];

    if "api_key" !in security {
      errors := errors + [MissingApiKey];
    } else if security["api_key"] == DefaultApiKeyValue {
      warnings := warnings + [DefaultApiKey];
    }

    assert errors == ServerIssues(server) + SecurityIssues(security).errors;
    assert warnings == SecurityIssues(security).warnings;

    errors := CheckPaths(paths, pathExists, errors);

    assert errors == ServerIssues(server) + SecurityIssues(security).errors + PathIssues(paths, pathExists);

    if models == [] {
      warnings := warnings + [NoModels];
    } else {
      errors, warnings := CheckModels(models, paths, pathExists, errors, warnings);
    }
  }

  /** The "Check paths exist" block of `validate_config`. */
  method CheckPaths(paths: Section, pathExists: string -> bool, errors0: seq<Issue>) returns (errors: seq<Issue>)
    ensures errors == errors0 + PathIssues(paths, pathExists)
  {
    errors := errors0;
    if "llama_server" in paths {
      if !pathExists(paths["llama_server"]) {
        errors := errors + [LlamaServerNotFound(paths["llama_server"])];
      }
    } else {
      errors := errors + [MissingLlamaServerPath];
    }
    if "models_base" in paths {
      if !pathExists(paths["models_base"]) {
        errors := errors + [ModelsDirNotFound(paths["models_base"])];
      }
    } else {
      errors := errors + [MissingModelsBase];
    }
  }

  /** The "Check required top-level keys" loop of `validate_config`. */
  method CheckRequiredKeys(c: Config) returns (errors: seq<Issue>)
    ensures errors == MissingKeys(c, RequiredKeys)
  {
    errors := [];
    for k := 0 to |RequiredKeys|
      invariant errors == MissingKeys(c, RequiredKeys[..k])
    {
      assert RequiredKeys[..k + 1][..k] == RequiredKeys[..k];
      if !HasTopKey(c, RequiredKeys[k]) {
        errors := errors + [MissingTopKey(RequiredKeys[k])];
      }
    }
    assert RequiredKeys[..|RequiredKeys|] == RequiredKeys;
  }

  /** The "Check models" loop of `validate_config`: appends each entry's diagnostics in order. */
  method CheckModels(models: ModelTable, paths: Section, pathExists: string -> bool,
                     errors0: seq<Issue>, warnings0: seq<Issue>)
    returns (errors: seq<Issue>, warnings: seq<Issue>)
    ensures errors == errors0 + ModelIssues(models, paths, pathExists).errors
    ensures warnings == warnings0 + ModelIssues(models, paths, pathExists).warnings
  {
    errors, warnings := errors0, warnings0;
    var i := 0;
    while i < |models|
      invariant 0 <= i <= |models|
      invariant errors == errors0 + ModelIssues(models[..i], paths, pathExists).errors
      invariant warnings == warnings0 + ModelIssues(models[..i], paths, pathExists).warnings
    {
      var (id, m) := models[i];
      assert models[..i + 1][..i] == models[..i];
      ghost var entry := ModelEntryIssues(id, m, paths, pathExists);
      ghost var errorsBefore, warningsBefore := errors, warnings;
      if "name" !in m.fields {
        warnings := warnings + [ModelMissingName(id)];
      }
      if "file" !in m.fields {
        errors := errors + [ModelMissingFile(id)];
      } else if "models_base" in paths {
        var modelPath := JoinPath(paths["models_base"], m.fields["file"]);
        if !pathExists(modelPath) {
          warnings := warnings + [ModelFileNotFound(modelPath)];
        }
      }
      assert errors == errorsBefore + entry.errors;
      assert warnings == warningsBefore + entry.warnings;
      ConcatAssoc(errors0, ModelIssues(models[..i], paths, pathExists).errors, entry.errors);
      ConcatAssoc(warnings0, ModelIssues(models[..i], paths, pathExists).warnings, entry.warnings);
      i := i + 1;
    }
    assert models[..|models|] == models;
  }

  lemma ConcatAssoc<T>(a: seq<T>, b: seq<T>, c: seq<T>)
    ensures (a + b) + c == a + (b + c)
  {
  }

  // ----- properties -----

  lemma {:induction false} MissingKeysMembers(c: Config, keys: seq<string>)
    ensures forall e :: e in MissingKeys(c, keys) ==> e.MissingTopKey? && e.key in keys && !HasTopKey(c, e.key)
    ensures forall k :: k in keys && !HasTopKey(c, k) ==> MissingTopKey(k) in MissingKeys(c, keys)
    ensures MissingKeys(c, keys) == [] <==> forall k :: k in keys ==> HasTopKey(c, k)
  {
    if keys != [] {
      var init := keys[..|keys| - 1];
      MissingKeysMembers(c, init);
      assert keys == init + [keys[|keys| - 1]];
    }
  }

  /** `if errors: return` fires exactly when some top-level key is absent. */
  lemma TopKeysPresentIff(c: Config)
    ensures MissingKeys(c, RequiredKeys) == [] <==> AllTopKeys(c)
  {
    MissingKeysMembers(c, RequiredKeys);
    assert "server" in RequiredKeys && "security" in RequiredKeys;
    assert "paths" in RequiredKeys && "models" in RequiredKeys;
  }

  /**
   * The early return: when a top-level key is missing, the report is exactly
   * the missing keys, and nothing else is checked (no further errors, no warnings).
   */
  lemma MissingTopKeyStopsValidation(c: Config, pathExists: string -> bool)
    requires !AllTopKeys(c)
    ensures ConfigReport(c, pathExists).warnings == []
    ensures forall e :: e in ConfigReport(c, pathExists).errors ==> e.MissingTopKey?
    ensures forall k :: k in RequiredKeys ==> (MissingTopKey(k) in ConfigReport(c, pathExists).errors <==> !HasTopKey(c, k))
  {
    MissingKeysMembers(c, RequiredKeys);
    TopKeysPresentIff(c);
  }

  lemma {:induction false} ModelIssuesKinds(ms: ModelTable, p: Section, pathExists: string -> bool)
    ensures forall e :: e in ModelIssues(ms, p, pathExists).errors ==> e.ModelMissingFile?
    ensures forall e :: e in ModelIssues(ms, p, pathExists).warnings ==> e.ModelMissingName? || e.ModelFileNotFound?
  {
    if ms != [] {
      ModelIssuesKinds(ms[..|ms| - 1], p, pathExists);
    }
  }

  lemma {:induction false} ModelIssuesMissingFile(ms: ModelTable, p: Section, pathExists: string -> bool, id: string)
    ensures ModelMissingFile(id) in ModelIssues(ms, p, pathExists).errors <==>
              exists i :: 0 <= i < |ms| && ms[i].0 == id && "file" !in ms[i].1.fields
  {
    if ms != [] {
      var init := ms[..|ms| - 1];
      ModelIssuesMissingFile(init, p, pathExists, id);
      assert forall i :: 0 <= i < |init| ==> init[i] == ms[i];
      if exists i :: 0 <= i < |ms| && ms[i].0 == id && "file" !in ms[i].1.fields {
        var i :| 0 <= i < |ms| && ms[i].0 == id && "file" !in ms[i].1.fields;
        if i < |init| {
          assert init[i] == ms[i];
        }
      }
    }
  }

  lemma {:induction false} ModelIssuesMissingName(ms: ModelTable, p: Section, pathExists: string -> bool, id: string)
    ensures ModelMissingName(id) in ModelIssues(ms, p, pathExists).warnings <==>
              exists i :: 0 <= i < |ms| && ms[i].0 == id && "name" !in ms[i].1.fields
  {
    if ms != [] {
      var init := ms[..|ms| - 1];
      ModelIssuesMissingName(init, p, pathExists, id);
      assert forall i :: 0 <= i < |init| ==> init[i] == ms[i];
      if exists i :: 0 <= i < |ms| && ms[i].0 == id && "name" !in ms[i].1.fields {
        var i :| 0 <= i < |ms| && ms[i].0 == id && "name" !in ms[i].1.fields;
        if i < |init| {
          assert init[i] == ms[i];
        }
      }
    }
  }

  lemma {:induction false} ModelIssuesNoErrors(ms: ModelTable, p: Section, pathExists: string -> bool)
    ensures ModelIssues(ms, p, pathExists).errors == [] <==> forall i :: 0 <= i < |ms| ==> "file" in ms[i].1.fields
  {
    if ms != [] {
      var n := |ms| - 1;
      var init := ms[..n];
      ModelIssuesNoErrors(init, p, pathExists);
      var entry := ModelEntryIssues(ms[n].0, ms[n].1, p, pathExists);
      assert entry.errors == [] <==> "file" in ms[n].1.fields;
      assert ModelIssues(ms, p, pathExists).errors == ModelIssues(init, p, pathExists).errors + entry.errors;
      assert forall i :: 0 <= i < |init| ==> init[i] == ms[i];
      assert (forall i :: 0 <= i < |ms| ==> "file" in ms[i].1.fields)
         <==> (forall i :: 0 <= i < |init| ==> "file" in init[i].1.fields) && "file" in ms[n].1.fields;
    }
  }

  /** A model without "name" is only warned about. */
  lemma ModelMissingNameOnlyWarns(c: Config, pathExists: string -> bool, id: string)
    requires AllTopKeys(c)
    ensures ModelMissingName(id) !in ConfigReport(c, pathExists).errors
    ensures ModelMissingName(id) in ConfigReport(c, pathExists).warnings <==>
              exists i :: 0 <= i < |c.models.value| && c.models.value[i].0 == id && "name" !in c.models.value[i].1.fields
  {
    TopKeysPresentIff(c);
    ModelIssuesKinds(c.models.value, c.paths.value, pathExists);
    ModelIssuesMissingName(c.models.value, c.paths.value, pathExists, id);
  }

  /** A model without "file" is an error. */
  lemma ModelMissingFileIsError(c: Config, pathExists: string -> bool, id: string)
    requires AllTopKeys(c)
    ensures ModelMissingFile(id) in ConfigReport(c, pathExists).errors <==>
              exists i :: 0 <= i < |c.models.value| && c.models.value[i].0 == id && "file" !in c.models.value[i].1.fields
  {
    TopKeysPresentIff(c);
    ModelIssuesMissingFile(c.models.value, c.paths.value, pathExists, id);
  }

  /** The placeholder API key is a warning, never an error. */
  lemma DefaultApiKeyOnlyWarns(c: Config, pathExists: string -> bool)
    requires AllTopKeys(c)
    ensures DefaultApiKey !in ConfigReport(c, pathExists).errors
    ensures DefaultApiKey in ConfigReport(c, pathExists).warnings <==>
              "api_key" in c.security.value && c.security.value["api_key"] == DefaultApiKeyValue
  {
    TopKeysPresentIff(c);
    ModelIssuesKinds(c.models.value, c.paths.value, pathExists);
    var sec := SecurityIssues(c.security.value);
    var mod := if c.models.value == [] then Report([], [NoModels])
               else ModelIssues(c.models.value, c.paths.value, pathExists);
    assert DefaultApiKey !in mod.errors + mod.warnings;
    var r := ConfigReport(c, pathExists);
    assert r.errors == ServerIssues(c.server.value) + sec.errors + PathIssues(c.paths.value, pathExists) + mod.errors;
    assert r.warnings == sec.warnings + mod.warnings;
  }

  /** A missing API key is an error. */
  lemma MissingApiKeyIsError(c: Config, pathExists: string -> bool)
    requires AllTopKeys(c)
    ensures MissingApiKey in ConfigReport(c, pathExists).errors <==> "api_key" !in c.security.value
  {
    TopKeysPresentIff(c);
    ModelIssuesKinds(c.models.value, c.paths.value, pathExists);
    var sec := SecurityIssues(c.security.value);
    var mod := if c.models.value == [] then Report([], [NoModels])
               else ModelIssues(c.models.value, c.paths.value, pathExists);
    assert MissingApiKey !in mod.errors;
    var r := ConfigReport(c, pathExists);
    assert r.errors == ServerIssues(c.server.value) + sec.errors + PathIssues(c.paths.value, pathExists) + mod.errors;
  }

  /**
   * A configuration passes (no errors) exactly when it holds every key the
   * server reads without a default, except each model's "name", and both
   * configured paths exist; the lookups of a model's "name" can still fail
   * on a configuration that passed.
   */
  lemma NoErrorsIffComplete(c: Config, pathExists: string -> bool)
    ensures ConfigReport(c, pathExists).errors == [] <==>
              Complete(c) && pathExists(c.paths.value["llama_server"]) && pathExists(c.paths.value["models_base"])
  {
    TopKeysPresentIff(c);
    if AllTopKeys(c) {
      var ms := c.models.value;
      ModelIssuesNoErrors(ms, c.paths.value, pathExists);
      var mod := if ms == [] then Report([], [NoModels]) else ModelIssues(ms, c.paths.value, pathExists);
      assert mod.errors == [] <==> forall i :: 0 <= i < |ms| ==> "file" in ms[i].1.fields;
      var r := ConfigReport(c, pathExists);
      assert r.errors == ServerIssues(c.server.value) + SecurityIssues(c.security.value).errors
                         + PathIssues(c.paths.value, pathExists) + mod.errors;
    }
  }
}
