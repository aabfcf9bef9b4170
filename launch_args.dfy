/**
 * `build_llama_args`: the command line that launches llama-server for one
 * configured model. A fixed eleven-word prefix, then one flag/value pair per
 * optional sampling knob present in the entry, in a fixed order, then the
 * entry's "extra_args" verbatim.
 */
module LaunchArgs {
  import opened Wrappers
  import opened Configuration

  /** The optional knobs (config key, llama-server flag), in the order the flags are emitted. */
  const OptionalFlags: seq<(string, string)> := [
    ("cpu_moe", "--n-cpu-moe"),
    ("temp", "--temp"),
    ("top_k", "--top-k"),
    ("top_p", "--top-p"),
    ("min_p", "--min-p")
  ]

  /** `model.get("gpu_layers", 48)`. */
  function GpuLayersOf(m: ModelCfg): string {
    if "gpu_layers" in m.fields then m.fields["gpu_layers"] else DefaultGpuLayers
  }

  /** The entry's "extra_args", or nothing when the key is absent. */
  function ExtraArgs(m: ModelCfg): seq<string> {
    m.extraArgs.GetOr([])
  }

  /** The rows of `table` whose key the entry sets, in table order. */
  function Present(table: seq<(string, string)>, fields: map<string, string>): (r: seq<(string, string)>)
    ensures |r| <= |table|
    ensures forall j :: 0 <= j < |r| ==> r[j].0 in fields
    ensures forall i :: 0 <= i < |table| && table[i].0 in fields ==> table[i] in r
    ensures forall j :: 0 <= j < |r| ==> r[j] in table
  {
    if table == [] then []
    else
      var last := table[|table| - 1];
      Present(table[..|table| - 1], fields) + (if last.0 in fields then [last] else [])
  }

  /** The positions in `table` of the rows whose key the entry sets, increasing. */
  function PresentAt(table: seq<(string, string)>, fields: map<string, string>): (idx: seq<nat>)
    ensures forall j :: 0 <= j < |idx| ==> idx[j] < |table| && table[idx[j]].0 in fields
    ensures forall j, k :: 0 <= j < k < |idx| ==> idx[j] < idx[k]
    ensures forall i :: 0 <= i < |table| && table[i].0 in fields ==> i in idx
  {
    if table == [] then []
    else
      var n := |table| - 1;
      var init := PresentAt(table[..n], fields);
      assert forall i :: 0 <= i < n ==> table[..n][i] == table[i];
      init + (if table[n].0 in fields then [n] else [])
  }

  /**
   * `Present` keeps table order: its j-th row is the row at the j-th
   * position whose key the entry sets.
   */
  lemma {:induction false} PresentInOrder(table: seq<(string, string)>, fields: map<string, string>)
    ensures |Present(table, fields)| == |PresentAt(table, fields)|
    ensures forall j :: 0 <= j < |Present(table, fields)| ==>
              Present(table, fields)[j] == table[PresentAt(table, fields)[j]]
  {
    if table != [] {
      var n := |table| - 1;
      PresentInOrder(table[..n], fields);
      var init := table[..n];
      var p0, i0 := Present(init, fields), PresentAt(init, fields);
      assert Present(table, fields) == p0 + (if table[n].0 in fields then [table[n]] else []);
      assert PresentAt(table, fields) == i0 + (if table[n].0 in fields then [n] else []);
      forall j | 0 <= j < |p0| ensures p0[j] == table[i0[j]] {
        assert init[i0[j]] == table[i0[j]];
      }
    }
  }

  /** `[flag, str(model[key])]` when the entry sets `key`, else nothing. */
  function FlagPair(row: (string, string), fields: map<string, string>): seq<string> {
    if row.0 in fields then [row.1, fields[row.0]] else []
  }

  /** The flag/value words for the rows of `table` that the entry sets. */
  function FlagPairs(table: seq<(string, string)>, fields: map<string, string>): seq<string> {
    if table == [] then []
    else FlagPairs(table[..|table| - 1], fields) + FlagPair(table[|table| - 1], fields)
  }

  /** The flag words come in pairs: the j-th present knob's flag, then its value. */
  lemma {:induction false} FlagPairsLayout(table: seq<(string, string)>, fields: map<string, string>)
    ensures |FlagPairs(table, fields)| == 2 * |Present(table, fields)|
    ensures forall j :: 0 <= j < |Present(table, fields)| ==>
              FlagPairs(table, fields)[2 * j] == Present(table, fields)[j].1 &&
              FlagPairs(table, fields)[2 * j + 1] == fields[Present(table, fields)[j].0]
  {
    if table != [] {
      var init, last := table[..|table| - 1], table[|table| - 1];
      FlagPairsLayout(init, fields);
      var p0, f0 := Present(init, fields), FlagPairs(init, fields);
      var p, f := Present(table, fields), FlagPairs(table, fields);
      if last.0 in fields {
        assert p == p0 + [last];
        assert f == f0 + [last.1, fields[last.0]];
        forall j | 0 <= j < |p|
          ensures f[2 * j] == p[j].1 && f[2 * j + 1] == fields[p[j].0]
        {
          if j < |p0| {
            assert p[j] == p0[j];
            assert f[2 * j] == f0[2 * j] && f[2 * j + 1] == f0[2 * j + 1];
          }
        }
      } else {
        assert p == p0 && f == f0;
      }
    }
  }

  lemma FivePairs(t: seq<(string, string)>, fields: map<string, string>)
    requires |t| == 5
    ensures FlagPairs(t, fields)
         == FlagPair(t[0], fields) + FlagPair(t[1], fields) + FlagPair(t[2], fields)
            + FlagPair(t[3], fields) + FlagPair(t[4], fields)
  {
    var a, b, c, d, e := FlagPair(t[0], fields), FlagPair(t[1], fields), FlagPair(t[2], fields),
                         FlagPair(t[3], fields), FlagPair(t[4], fields);
    assert t[..1][..0] == [];
    assert FlagPairs(t[..1], fields) == a;
    assert t[..2][..1] == t[..1];
    assert FlagPairs(t[..2], fields) == a + b;
    assert t[..3][..2] == t[..2];
    assert FlagPairs(t[..3], fields) == a + b + c;
    assert t[..4][..3] == t[..3];
    assert FlagPairs(t[..4], fields) == a + b + c + d;
    assert t[..|t| - 1] == t[..4];
  }

  lemma ConcatAssoc5(p: seq<string>, a: seq<string>, b: seq<string>, c: seq<string>, d: seq<string>, e: seq<string>)
    ensures p + (a + b + c + d + e) == p + a + b + c + d + e
  {
  }

  /** The optional flags spelled out row by row, after a prefix. */
  lemma OptionalFlagPairs(prefix: seq<string>, fields: map<string, string>)
    ensures prefix + FlagPairs(OptionalFlags, fields)
         == prefix + FlagPair(("cpu_moe", "--n-cpu-moe"), fields) + FlagPair(("temp", "--temp"), fields)
            + FlagPair(("top_k", "--top-k"), fields) + FlagPair(("top_p", "--top-p"), fields)
            + FlagPair(("min_p", "--min-p"), fields)
  {
    var t := OptionalFlags;
    FivePairs(t, fields);
    ConcatAssoc5(prefix, FlagPair(t[0], fields), FlagPair(t[1], fields), FlagPair(t[2], fields),
                 FlagPair(t[3], fields), FlagPair(t[4], fields));
  }

  /** The eleven words every launch starts with. */
  function Prefix(c: Config, m: ModelCfg): seq<string>
    requires Complete(c) && "file" in m.fields
  {
    [c.paths.value["llama_server"], "-m", ModelPath(c, m),
     "--host", c.server.value["llama_host"],
     "--port", c.server.value["llama_port"],
     "-c", ContextOf(m),
     "-ngl", GpuLayersOf(m)]
  }

  /** The launch command for model `id`, as a specification. */
  function LlamaArgs(c: Config, id: string): seq<string>
    requires Complete(c) && HasModel(c, id)
  {
    KnownModelHasFile(c, id);
    var m := ModelOf(c, id);
    Prefix(c, m) + FlagPairs(OptionalFlags, m.fields) + ExtraArgs(m)
  }

  /**
   * The launch command's layout: the eleven-word prefix, then the j-th
   * present knob's flag and value at 11 + 2j and 12 + 2j, then the extra
   * arguments at the end.
   */
  lemma LlamaArgsLayout(c: Config, id: string)
    requires Complete(c) && HasModel(c, id)
    ensures "file" in ModelOf(c, id).fields
    ensures |LlamaArgs(c, id)| == 11 + 2 * |Present(OptionalFlags, ModelOf(c, id).fields)| + |ExtraArgs(ModelOf(c, id))|
    ensures LlamaArgs(c, id)[..11] == Prefix(c, ModelOf(c, id))
    ensures forall j :: 0 <= j < |Present(OptionalFlags, ModelOf(c, id).fields)| ==>
              LlamaArgs(c, id)[11 + 2 * j] == Present(OptionalFlags, ModelOf(c, id).fields)[j].1 &&
              LlamaArgs(c, id)[12 + 2 * j] == ModelOf(c, id).fields[Present(OptionalFlags, ModelOf(c, id).fields)[j].0]
    ensures LlamaArgs(c, id)[|LlamaArgs(c, id)| - |ExtraArgs(ModelOf(c, id))|..] == ExtraArgs(ModelOf(c, id))
  {
    KnownModelHasFile(c, id);
    var m := ModelOf(c, id);
    var prefix, flags, extra := Prefix(c, m), FlagPairs(OptionalFlags, m.fields), ExtraArgs(m);
    FlagPairsLayout(OptionalFlags, m.fields);
    ThreePartLayout(prefix, flags, extra);
    assert LlamaArgs(c, id) == prefix + flags + extra;
  }

  /** Where each of three concatenated parts sits in the whole. */
  lemma ThreePartLayout(p: seq<string>, f: seq<string>, e: seq<string>)
    ensures (p + f + e)[..|p|] == p
    ensures forall k :: 0 <= k < |f| ==> (p + f + e)[|p| + k] == f[k]
    ensures (p + f + e)[|p + f + e| - |e|..] == e
  {
  }

  /** `build_llama_args`, growing the list with `extend` as the source does. */
  method BuildLlamaArgs(c: Config, id: string) returns (args: seq<string>)
    requires Complete(c) && HasModel(c, id)
    ensures args == LlamaArgs(c, id)
  {
    var model := ModelOf(c, id);
    KnownModelHasFile(c, id);
    args := [
      c.paths.value["llama_server"],
      "-m",
      ModelPath(c, model),
      "--host",
      c.server.value["llama_host"],
      "--port",
      c.server.value["llama_port"],
      "-c",
      ContextOf(model),
      "-ngl",
      GpuLayersOf(model)
    ];
    assert args == Prefix(c, model);
    args := ExtendOptionalFlags(args, model.fields);
    if model.extraArgs.Some? {
      args := args + model.extraArgs.value;
    } else {
      assert args == args + ExtraArgs(model);
    }
  }

  /** The five `if key in model: args.extend([flag, str(model[key])])` steps, in source order. */
  method ExtendOptionalFlags(prefix: seq<string>, fields: map<string, string>) returns (args: seq<string>)
    ensures args == prefix + FlagPairs(OptionalFlags, fields)
  {
    args := prefix;
    if "cpu_moe" in fields {
      args := args + ["--n-cpu-moe", fields["cpu_moe"]];
    }
    assert args == prefix + FlagPair(("cpu_moe", "--n-cpu-moe"), fields);
    ghost var a1 := args;
    if "temp" in fields {
      args := args + ["--temp", fields["temp"]];
    }
    assert args == a1 + FlagPair(("temp", "--temp"), fields);
    ghost var a2 := args;
    if "top_k" in fields {
      args := args + ["--top-k", fields["top_k"]];
    }
    assert args == a2 + FlagPair(("top_k", "--top-k"), fields);
    ghost var a3 := args;
    if "top_p" in fields {
      args := args + ["--top-p", fields["top_p"]];
    }
    assert args == a3 + FlagPair(("top_p", "--top-p"), fields);
    ghost var a4 := args;
    if "min_p" in fields {
      args := args + ["--min-p", fields["min_p"]];
    }
    assert args == a4 + FlagPair(("min_p", "--min-p"), fields);
    OptionalFlagPairs(prefix, fields);
  }
}
