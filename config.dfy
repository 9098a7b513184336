/**
 * Configuration resolution of the build driver (scripts/build.py, `main`):
 * the "default" preset, then the chosen preset's overrides, then the process
 * environment for keys already present, then the architecture switch, then
 * the preferred-image override.
 */
module Config {
  import opened OrderedDict
  import opened PyText

  /** The `arch` argument, which the command line restricts to `cpu` and `gpu`. */
  datatype Arch = Cpu | Gpu

  /** The entries of one preset, in the order the preset literal lists them. */
  type Settings = seq<(string, Value)>

  /** Preset name to preset. */
  type Catalog = map<string, Settings>

  const DefaultPreset: Settings := [
    ("PYTHON_BIN_PATH", Text("/usr/bin/python3")),
    ("PYTHON_LIB_PATH", Text("/usr/local/lib/python3.6/dist-packages")),
    ("TF_ENABLE_XLA", Int(0)),
    ("TF_NEED_OPENCL_SYCL", Int(0)),
    ("TF_NEED_ROCM", Int(0)),
    ("TF_NEED_TENSORRT", Int(0)),
    ("TF_NEED_MPI", Int(0)),
    ("TF_CUDA_COMPUTE_CAPABILITIES", Text("sm_35,sm_50,sm_60,sm_70,sm_75,compute_80")),
    ("TF_CUDA_PATHS", Text("/usr/local/cuda,/usr")),
    ("TF_CUDA_CLANG", Int(0)),
    ("TF_SET_ANDROID_WORKSPACE", Int(0)),
    ("TF_DOWNLOAD_CLANG", Int(0)),
    ("GCC_HOST_COMPILER_PATH", Text("/usr/bin/gcc")),
    ("CC_OPT_FLAGS", Text("-mavx")),
    ("BAZEL_CONFIGS", Text("--config=noaws --config=nogcp --config=nohdfs --config=nonccl")),
    ("DOCKER_IMAGE", Text("")),
    ("DOCKER_IMAGE_GPU", Text("nvidia/cuda:11.1-cudnn8-devel-ubuntu18.04")),
    ("DOCKER_IMAGE_CPU", Text("ubuntu:18.04"))
  ]

  const Tf230Preset: Settings := [
    ("TF_CUDA_COMPUTE_CAPABILITIES", Text("sm_35,sm_37,sm_52,sm_60,sm_61,compute_70")),
    ("DOCKER_IMAGE_GPU", Text("nvidia/cuda:10.1-cudnn7-devel-ubuntu18.04")),
    ("DOCKER_IMAGE_CPU", Text("ubuntu:18.04"))
  ]

  /** The `PRESETS` table. */
  const Presets: Catalog := map["default" := DefaultPreset, "tensorflow-2.3.0" := Tf230Preset]

  const CudaKey := "TF_NEED_CUDA"
  const ImageKey := "DOCKER_IMAGE"

  /**
   * What the resolution relies on in a preset table: a "default" preset that
   * names the three image keys, and presets that are dicts (distinct keys).
   */
  ghost predicate WellFormed(presets: Catalog)
  {
    && "default" in presets
    && (forall name :: name in presets ==> UniqueKeys(presets[name]))
    && ImageKey in Keys(presets["default"])
    && "DOCKER_IMAGE_GPU" in Keys(presets["default"])
    && "DOCKER_IMAGE_CPU" in Keys(presets["default"])
  }

  function ArchImageKey(arch: Arch): string
  {
    if arch == Gpu then "DOCKER_IMAGE_GPU" else "DOCKER_IMAGE_CPU"
  }

  function CudaValue(arch: Arch): string
  {
    if arch == Gpu then "1" else "0"
  }

  /** `os.environ.get(key, str(value))`, kept as a string value. */
  function EnvironGet(environ: map<string, string>, key: string, value: Value): Value
  {
    Text(if key in environ then environ[key] else Str(value))
  }

  /** `envs = {}; envs.update(PRESETS["default"]); envs.update(PRESETS[preset])` */
  function Merged(presets: Catalog, preset: string): Settings
    requires "default" in presets && preset in presets
  {
    UpdateWith(UpdateWith([], presets["default"]), presets[preset])
  }

  /** The loop that replaces each value by the environment variable of its name, or by `str(value)`. */
  function EnvLayer(s: Settings, environ: map<string, string>): Settings
  {
    seq(|s|, i requires 0 <= i < |s| => (s[i].0, EnvironGet(environ, s[i].0, s[i].1)))
  }

  /** The dict `envs` once `TF_NEED_CUDA` is set. */
  function ResolvedSettings(presets: Catalog, preset: string, arch: Arch, environ: map<string, string>): Settings
    requires "default" in presets && preset in presets
  {
    Assign(EnvLayer(Merged(presets, preset), environ), CudaKey, Text(CudaValue(arch)))
  }

  /** The `docker_image` chosen: the preferred image when non-empty, else the architecture's image. */
  function ResolvedImage(presets: Catalog, preset: string, arch: Arch, environ: map<string, string>): string
    requires WellFormed(presets) && preset in presets
  {
    var envs := ResolvedSettings(presets, preset, arch, environ);
    ImageKeysPresent(presets, preset, arch, environ);
    var preferred := Str(Lookup(envs, ImageKey).value);
    if preferred != "" then preferred else Str(Lookup(envs, ArchImageKey(arch)).value)
  }

  // ---------------------------------------------------------------------------
  // The precedence rules, stated independently of the order of operations.

  /**
   * The value a key should end with: `TF_NEED_CUDA` follows the architecture;
   * a key of neither preset is absent; otherwise the environment variable of
   * that name wins, then the chosen preset, then the default preset, as a string.
   */
  ghost function Expected(presets: Catalog, preset: string, arch: Arch, environ: map<string, string>, key: string): Option<Value>
    requires WellFormed(presets) && preset in presets
  {
    var chosen := presets[preset];
    var default := presets["default"];
    if key == CudaKey then Some(Text(CudaValue(arch)))
    else if key !in Keys(chosen) && key !in Keys(default) then None
    else if key in environ then Some(Text(environ[key]))
    else if key in Keys(chosen) then Some(Text(Str(Lookup(chosen, key).value)))
    else Some(Text(Str(Lookup(default, key).value)))
  }

  /** The string an image key should end with. */
  ghost function ExpectedText(presets: Catalog, preset: string, arch: Arch, environ: map<string, string>, key: string): string
    requires WellFormed(presets) && preset in presets
  {
    match Expected(presets, preset, arch, environ, key)
    case Some(v) => Str(v)
    case None => ""
  }

  // ---------------------------------------------------------------------------
  // Lemmas

  /** Updating an empty dict with a dict copies it. */
  lemma UpdateEmpty(t: Settings)
    requires UniqueKeys(t)
    ensures UpdateWith([], t) == t
  {
    UpdateWithFresh([], t);
  }

  /**
   * The merged dict holds every key of the default preset, in the default
   * preset's order, followed by any key only the chosen preset has.
   */
  lemma MergedKeys(presets: Catalog, preset: string)
    requires WellFormed(presets) && preset in presets
    ensures UniqueKeys(Merged(presets, preset))
    ensures Keys(presets["default"]) <= Keys(Merged(presets, preset))
    ensures forall k :: k in Keys(Merged(presets, preset)) <==> k in Keys(presets["default"]) || k in Keys(presets[preset])
  {
    var default := presets["default"];
    UpdateEmpty(default);
    UpdateWithUnique(default, presets[preset]);
    UpdateWithPrefix(default, presets[preset]);
    forall k ensures k in Keys(Merged(presets, preset)) <==> k in Keys(default) || k in Keys(presets[preset]) {
      UpdateWithKeySet(default, presets[preset], k);
    }
  }

  /** A key the chosen preset defines takes the preset's value; any other keeps the default's. */
  lemma MergedLookup(presets: Catalog, preset: string, k: string)
    requires WellFormed(presets) && preset in presets
    ensures Lookup(Merged(presets, preset), k)
         == if k in Keys(presets[preset]) then Lookup(presets[preset], k) else Lookup(presets["default"], k)
  {
    UpdateEmpty(presets["default"]);
    UpdateWithLookup(presets["default"], presets[preset], k);
  }

  /** The environment layer keeps every key in place and only replaces values. */
  lemma EnvLayerLookup(s: Settings, environ: map<string, string>, k: string)
    ensures Keys(EnvLayer(s, environ)) == Keys(s)
    ensures Lookup(EnvLayer(s, environ), k)
         == match Lookup(s, k)
            case None => None
            case Some(v) => Some(EnvironGet(environ, k, v))
  {
    var r := EnvLayer(s, environ);
    assert Keys(r) == Keys(s);
    IndexOfSameKeys(r, s, k);
  }

  /** `DOCKER_IMAGE` and the architecture's image key, the two keys `main` looks up, are present: no `KeyError`. */
  lemma ImageKeysPresent(presets: Catalog, preset: string, arch: Arch, environ: map<string, string>)
    requires WellFormed(presets) && preset in presets
    ensures ImageKey in Keys(ResolvedSettings(presets, preset, arch, environ))
    ensures ArchImageKey(arch) in Keys(ResolvedSettings(presets, preset, arch, environ))
  {
    MergedKeys(presets, preset);
    var layered := EnvLayer(Merged(presets, preset), environ);
    EnvLayerLookup(Merged(presets, preset), environ, ImageKey);
    AssignKeys(layered, CudaKey, Text(CudaValue(arch)));
  }

  /**
   * Precedence: every key of the resolved dict holds exactly the value
   * `Expected` gives it (environment over chosen preset over default, as a
   * string, and `TF_NEED_CUDA` by architecture alone).
   */
  lemma SettingPrecedence(presets: Catalog, preset: string, arch: Arch, environ: map<string, string>, key: string)
    requires WellFormed(presets) && preset in presets
    ensures Lookup(ResolvedSettings(presets, preset, arch, environ), key) == Expected(presets, preset, arch, environ, key)
  {
    var merged := Merged(presets, preset);
    AssignLookup(EnvLayer(merged, environ), CudaKey, Text(CudaValue(arch)), key);
    EnvLayerLookup(merged, environ, key);
    MergedLookup(presets, preset, key);
    MergedKeys(presets, preset);
  }

  /** The environment layer adds, removes and moves no key, so the keys stay distinct. */
  lemma EnvLayerUnique(s: Settings, environ: map<string, string>)
    requires UniqueKeys(s)
    ensures Keys(EnvLayer(s, environ)) == Keys(s)
    ensures UniqueKeys(EnvLayer(s, environ))
  {
    var r := EnvLayer(s, environ);
    assert Keys(r) == Keys(s);
    forall i, j | 0 <= i < j < |r| ensures r[i].0 != r[j].0 {
      assert r[i].0 == s[i].0 && r[j].0 == s[j].0;
    }
  }

  /**
   * The resolved dict is a dict holding the default preset's keys in their
   * order first; its keys are those of the two presets and `TF_NEED_CUDA`.
   */
  lemma ResolvedKeys(presets: Catalog, preset: string, arch: Arch, environ: map<string, string>)
    requires WellFormed(presets) && preset in presets
    ensures UniqueKeys(ResolvedSettings(presets, preset, arch, environ))
    ensures Keys(presets["default"]) <= Keys(ResolvedSettings(presets, preset, arch, environ))
    ensures forall k :: k in Keys(ResolvedSettings(presets, preset, arch, environ))
                    <==> k == CudaKey || k in Keys(presets["default"]) || k in Keys(presets[preset])
  {
    ResolvedPrefix(presets, preset, arch, environ);
    forall k ensures k in Keys(ResolvedSettings(presets, preset, arch, environ))
                     <==> k == CudaKey || k in Keys(presets["default"]) || k in Keys(presets[preset]) {
      ResolvedKey(presets, preset, arch, environ, k);
    }
  }

  lemma ResolvedPrefix(presets: Catalog, preset: string, arch: Arch, environ: map<string, string>)
    requires WellFormed(presets) && preset in presets
    ensures UniqueKeys(ResolvedSettings(presets, preset, arch, environ))
    ensures Keys(presets["default"]) <= Keys(ResolvedSettings(presets, preset, arch, environ))
  {
    var merged := Merged(presets, preset);
    var layered := EnvLayer(merged, environ);
    var resolved := ResolvedSettings(presets, preset, arch, environ);
    MergedKeys(presets, preset);
    EnvLayerLookup(merged, environ, CudaKey);
    EnvLayerUnique(merged, environ);
    AssignKeys(layered, CudaKey, Text(CudaValue(arch)));
    assert Keys(layered) <= Keys(resolved);
  }

  lemma ResolvedKey(presets: Catalog, preset: string, arch: Arch, environ: map<string, string>, k: string)
    requires WellFormed(presets) && preset in presets
    ensures k in Keys(ResolvedSettings(presets, preset, arch, environ))
            <==> k == CudaKey || k in Keys(presets["default"]) || k in Keys(presets[preset])
  {
    var merged := Merged(presets, preset);
    UpdateEmpty(presets["default"]);
    UpdateWithKeySet(presets["default"], presets[preset], k);
    EnvLayerLookup(merged, environ, k);
    AssignKeys(EnvLayer(merged, environ), CudaKey, Text(CudaValue(arch)));
  }

  /**
   * When the chosen preset adds no key and no preset sets `TF_NEED_CUDA`, the
   * resolved keys are the default preset's, in order, then `TF_NEED_CUDA` last.
   */
  lemma ResolvedKeyOrder(presets: Catalog, preset: string, arch: Arch, environ: map<string, string>)
    requires WellFormed(presets) && preset in presets
    requires forall k :: k in Keys(presets[preset]) ==> k in Keys(presets["default"])
    requires CudaKey !in Keys(presets["default"])
    ensures Keys(ResolvedSettings(presets, preset, arch, environ)) == Keys(presets["default"]) + [CudaKey]
  {
    var merged := Merged(presets, preset);
    UpdateEmpty(presets["default"]);
    UpdateWithSameKeys(presets["default"], presets[preset]);
    assert Keys(merged) == Keys(presets["default"]);
    EnvLayerLookup(merged, environ, CudaKey);
    AssignKeys(EnvLayer(merged, environ), CudaKey, Text(CudaValue(arch)));
  }

  /**
   * The image: a non-empty resolved `DOCKER_IMAGE` wins whatever the
   * architecture; otherwise it is the resolved `DOCKER_IMAGE_GPU` for gpu and
   * the resolved `DOCKER_IMAGE_CPU` for cpu.
   */
  lemma ImageSelection(presets: Catalog, preset: string, arch: Arch, environ: map<string, string>)
    requires WellFormed(presets) && preset in presets
    ensures var preferred := ExpectedText(presets, preset, arch, environ, ImageKey);
            ResolvedImage(presets, preset, arch, environ)
            == if preferred != "" then preferred
               else if arch == Gpu then ExpectedText(presets, preset, arch, environ, "DOCKER_IMAGE_GPU")
               else ExpectedText(presets, preset, arch, environ, "DOCKER_IMAGE_CPU")
  {
    ImageKeysPresent(presets, preset, arch, environ);
    SettingPrecedence(presets, preset, arch, environ, ImageKey);
    SettingPrecedence(presets, preset, arch, environ, ArchImageKey(arch));
  }

  /**
   * Environment variables whose names are not keys of either preset play no
   * part: two environments that agree on those keys resolve alike.
   */
  lemma ForeignEnvironmentIgnored(presets: Catalog, preset: string, arch: Arch, e1: map<string, string>, e2: map<string, string>)
    requires WellFormed(presets) && preset in presets
    requires forall k :: k in Keys(presets["default"]) || k in Keys(presets[preset]) ==>
               (k in e1 <==> k in e2) && (k in e1 ==> e1[k] == e2[k])
    ensures ResolvedSettings(presets, preset, arch, e1) == ResolvedSettings(presets, preset, arch, e2)
    ensures ResolvedImage(presets, preset, arch, e1) == ResolvedImage(presets, preset, arch, e2)
  {
    var merged := Merged(presets, preset);
    MergedKeys(presets, preset);
    forall i | 0 <= i < |merged| ensures EnvLayer(merged, e1)[i] == EnvLayer(merged, e2)[i] {
      assert merged[i].0 in Keys(merged) by { assert Keys(merged)[i] == merged[i].0; }
    }
    assert EnvLayer(merged, e1) == EnvLayer(merged, e2);
  }

  /**
   * Setting one more environment variable, for a key of the presets other
   * than `TF_NEED_CUDA`, gives that key the variable's value and changes no
   * other key.
   */
  lemma SingleOverride(presets: Catalog, preset: string, arch: Arch, environ: map<string, string>, key: string, x: string, other: string)
    requires WellFormed(presets) && preset in presets
    requires key != CudaKey && (key in Keys(presets["default"]) || key in Keys(presets[preset]))
    ensures Lookup(ResolvedSettings(presets, preset, arch, environ[key := x]), key) == Some(Text(x))
    ensures other != key ==>
              Lookup(ResolvedSettings(presets, preset, arch, environ[key := x]), other)
              == Lookup(ResolvedSettings(presets, preset, arch, environ), other)
  {
    SettingPrecedence(presets, preset, arch, environ[key := x], key);
    SettingPrecedence(presets, preset, arch, environ[key := x], other);
    SettingPrecedence(presets, preset, arch, environ, other);
  }

  // ---------------------------------------------------------------------------
  // The preset table itself

  /** The keys of the default preset, in the literal's order. */
  const DefaultKeys: seq<string> := [
    "PYTHON_BIN_PATH", "PYTHON_LIB_PATH", "TF_ENABLE_XLA", "TF_NEED_OPENCL_SYCL", "TF_NEED_ROCM",
    "TF_NEED_TENSORRT", "TF_NEED_MPI", "TF_CUDA_COMPUTE_CAPABILITIES", "TF_CUDA_PATHS", "TF_CUDA_CLANG",
    "TF_SET_ANDROID_WORKSPACE", "TF_DOWNLOAD_CLANG", "GCC_HOST_COMPILER_PATH", "CC_OPT_FLAGS",
    "BAZEL_CONFIGS", "DOCKER_IMAGE", "DOCKER_IMAGE_GPU", "DOCKER_IMAGE_CPU"]

  lemma DefaultKeysListed()
    ensures Keys(DefaultPreset) == DefaultKeys
  {
  }

  lemma DefaultKeysDistinct()
    ensures forall i, j :: 0 <= i < j < |DefaultKeys| ==> DefaultKeys[i] != DefaultKeys[j]
  {
  }

  /** The literal table is well formed; the 2.3.0 preset only overrides default keys; neither sets `TF_NEED_CUDA`. */
  lemma PresetsWellFormed()
    ensures WellFormed(Presets)
    ensures forall k :: k in Keys(Tf230Preset) ==> k in Keys(DefaultPreset)
    ensures CudaKey !in Keys(DefaultPreset)
  {
    DefaultUnique();
    Tf230Keys();
    DefaultNamesImages();
    assert forall name :: name in Presets ==> name == "default" || name == "tensorflow-2.3.0";
  }

  lemma DefaultUnique()
    ensures UniqueKeys(DefaultPreset)
  {
    DefaultKeysListed();
    DefaultKeysDistinct();
    forall i, j | 0 <= i < j < |DefaultPreset| ensures DefaultPreset[i].0 != DefaultPreset[j].0 {
      assert DefaultPreset[i].0 == DefaultKeys[i] && DefaultPreset[j].0 == DefaultKeys[j];
    }
  }

  lemma DefaultNamesImages()
    ensures ImageKey in Keys(DefaultPreset)
    ensures "DOCKER_IMAGE_GPU" in Keys(DefaultPreset) && "DOCKER_IMAGE_CPU" in Keys(DefaultPreset)
    ensures "TF_CUDA_COMPUTE_CAPABILITIES" in Keys(DefaultPreset)
    ensures CudaKey !in Keys(DefaultPreset)
  {
    DefaultKeysListed();
    assert DefaultKeys[7] == "TF_CUDA_COMPUTE_CAPABILITIES";
    assert DefaultKeys[15] == ImageKey;
    assert DefaultKeys[16] == "DOCKER_IMAGE_GPU";
    assert DefaultKeys[17] == "DOCKER_IMAGE_CPU";
  }

  lemma Tf230Keys()
    ensures Keys(Tf230Preset) == ["TF_CUDA_COMPUTE_CAPABILITIES", "DOCKER_IMAGE_GPU", "DOCKER_IMAGE_CPU"]
    ensures UniqueKeys(Tf230Preset)
  {
  }

  /** With the literal table, the resolved keys are the default preset's, in order, then `TF_NEED_CUDA`. */
  lemma PresetsKeyOrder(preset: string, arch: Arch, environ: map<string, string>)
    requires preset in Presets
    ensures Keys(ResolvedSettings(Presets, preset, arch, environ)) == Keys(DefaultPreset) + [CudaKey]
  {
    PresetsWellFormed();
    ResolvedKeyOrder(Presets, preset, arch, environ);
  }

  // Entries of the literal table that the scenarios below read, one lemma each
  // (looking up two keys of the 18-entry literal in one proof is costly).

  lemma XlaDefault()
    ensures Lookup(DefaultPreset, "TF_ENABLE_XLA") == Some(Int(0))
  {
    LookupFirst(DefaultPreset, 2);
  }

  lemma ImageDefault()
    ensures Lookup(DefaultPreset, ImageKey) == Some(Text(""))
  {
    LookupFirst(DefaultPreset, 15);
  }

  lemma CpuImageDefault()
    ensures Lookup(DefaultPreset, "DOCKER_IMAGE_CPU") == Some(Text("ubuntu:18.04"))
  {
    LookupFirst(DefaultPreset, 17);
  }

  lemma Tf230Entries()
    ensures Lookup(Tf230Preset, "TF_CUDA_COMPUTE_CAPABILITIES") == Some(Text("sm_35,sm_37,sm_52,sm_60,sm_61,compute_70"))
    ensures Lookup(Tf230Preset, "DOCKER_IMAGE_GPU") == Some(Text("nvidia/cuda:10.1-cudnn7-devel-ubuntu18.04"))
    ensures ImageKey !in Keys(Tf230Preset) && "TF_ENABLE_XLA" !in Keys(Tf230Preset)
  {
    LookupFirst(Tf230Preset, 0);
    LookupFirst(Tf230Preset, 1);
    assert Keys(Tf230Preset) == ["TF_CUDA_COMPUTE_CAPABILITIES", "DOCKER_IMAGE_GPU", "DOCKER_IMAGE_CPU"];
  }

  /**
   * Preset "default", arch cpu, empty environment: `TF_NEED_CUDA` is "0", the
   * integer flags become "0", and the image is the default preset's CPU image.
   */
  lemma DefaultCpuScenario()
    ensures WellFormed(Presets)
    ensures Lookup(ResolvedSettings(Presets, "default", Cpu, map[]), CudaKey) == Some(Text("0"))
    ensures Lookup(ResolvedSettings(Presets, "default", Cpu, map[]), "TF_ENABLE_XLA") == Some(Text("0"))
    ensures ResolvedImage(Presets, "default", Cpu, map[]) == "ubuntu:18.04"
  {
    PresetsWellFormed();
    SettingPrecedence(Presets, "default", Cpu, map[], CudaKey);
    DefaultCpuXla();
    DefaultCpuImage();
  }

  lemma DefaultCpuXla()
    ensures WellFormed(Presets)
    ensures Lookup(ResolvedSettings(Presets, "default", Cpu, map[]), "TF_ENABLE_XLA") == Some(Text("0"))
  {
    PresetsWellFormed();
    XlaDefault();
    SettingPrecedence(Presets, "default", Cpu, map[], "TF_ENABLE_XLA");
    assert Str(Int(0)) == "0";
  }

  lemma DefaultCpuImage()
    ensures WellFormed(Presets)
    ensures ResolvedImage(Presets, "default", Cpu, map[]) == "ubuntu:18.04"
  {
    PresetsWellFormed();
    ImageDefault();
    CpuImageDefault();
    ImageSelection(Presets, "default", Cpu, map[]);
    assert ExpectedText(Presets, "default", Cpu, map[], ImageKey) == "";
    assert ExpectedText(Presets, "default", Cpu, map[], "DOCKER_IMAGE_CPU") == "ubuntu:18.04";
  }

  /**
   * Preset "tensorflow-2.3.0", arch gpu, empty environment: the compute
   * capabilities and the GPU image are that preset's, and `TF_NEED_CUDA` is "1".
   */
  lemma Tf230GpuScenario()
    ensures WellFormed(Presets)
    ensures Lookup(ResolvedSettings(Presets, "tensorflow-2.3.0", Gpu, map[]), "TF_CUDA_COMPUTE_CAPABILITIES")
            == Some(Text("sm_35,sm_37,sm_52,sm_60,sm_61,compute_70"))
    ensures Lookup(ResolvedSettings(Presets, "tensorflow-2.3.0", Gpu, map[]), CudaKey) == Some(Text("1"))
    ensures ResolvedImage(Presets, "tensorflow-2.3.0", Gpu, map[]) == "nvidia/cuda:10.1-cudnn7-devel-ubuntu18.04"
  {
    PresetsWellFormed();
    SettingPrecedence(Presets, "tensorflow-2.3.0", Gpu, map[], CudaKey);
    Tf230GpuCapabilities();
    Tf230GpuImage();
  }

  lemma Tf230GpuCapabilities()
    ensures WellFormed(Presets)
    ensures Lookup(ResolvedSettings(Presets, "tensorflow-2.3.0", Gpu, map[]), "TF_CUDA_COMPUTE_CAPABILITIES")
            == Some(Text("sm_35,sm_37,sm_52,sm_60,sm_61,compute_70"))
  {
    PresetsWellFormed();
    Tf230Entries();
    SettingPrecedence(Presets, "tensorflow-2.3.0", Gpu, map[], "TF_CUDA_COMPUTE_CAPABILITIES");
  }

  lemma Tf230GpuImage()
    ensures WellFormed(Presets)
    ensures ResolvedImage(Presets, "tensorflow-2.3.0", Gpu, map[]) == "nvidia/cuda:10.1-cudnn7-devel-ubuntu18.04"
  {
    PresetsWellFormed();
    ImageDefault();
    Tf230Entries();
    ImageSelection(Presets, "tensorflow-2.3.0", Gpu, map[]);
    assert ExpectedText(Presets, "tensorflow-2.3.0", Gpu, map[], ImageKey) == "";
    assert ExpectedText(Presets, "tensorflow-2.3.0", Gpu, map[], "DOCKER_IMAGE_GPU") == "nvidia/cuda:10.1-cudnn7-devel-ubuntu18.04";
  }

  // ---------------------------------------------------------------------------
  // The resolution as the driver runs it

  /** Lines 89-101 of `main`: build `envs` in place and choose `docker_image`. */
  method Resolve(presets: Catalog, preset: string, arch: Arch, environ: map<string, string>)
    returns (envs: Dict<string, Value>, image: string)
    requires WellFormed(presets) && preset in presets
    ensures fresh(envs) && envs.Valid()
    ensures envs.items == ResolvedSettings(presets, preset, arch, environ)
    ensures image == ResolvedImage(presets, preset, arch, environ)
  {
    envs := new Dict();
    envs.Update(presets["default"]);
    envs.Update(presets[preset]);
    ghost var merged := envs.items;
    assert merged == Merged(presets, preset);

    var i := 0;
    while i < |envs.items|
      invariant 0 <= i <= |envs.items| == |merged|
      invariant envs.Valid()
      invariant forall j :: 0 <= j < |merged| ==>
                  envs.items[j] == if j < i then EnvLayer(merged, environ)[j] else merged[j]
    {
      var entry := envs.items[i];
      AssignAt(envs.items, i, EnvironGet(environ, entry.0, entry.1));
      envs.Set(entry.0, EnvironGet(environ, entry.0, entry.1));
      i := i + 1;
    }
    assert envs.items == EnvLayer(merged, environ);

    if arch == Gpu {
      envs.Set(CudaKey, Text("1"));
      ImageKeysPresent(presets, preset, arch, environ);
      image := Str(Lookup(envs.items, "DOCKER_IMAGE_GPU").value);
    } else {
      envs.Set(CudaKey, Text("0"));
      ImageKeysPresent(presets, preset, arch, environ);
      image := Str(Lookup(envs.items, "DOCKER_IMAGE_CPU").value);
    }
    var preferred := Str(Lookup(envs.items, ImageKey).value);
    if preferred != "" {
      image := preferred;
    }
  }
}
