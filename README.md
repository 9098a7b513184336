# Build driver for TensorFlow releases, modelled in Dafny

`scripts/build.py` builds a TensorFlow release inside a throw-away docker
container. It runs in two stages, and this project models both.

1. **Configuration resolution** (`main`):
   - Start from the `"default"` entry of the `PRESETS` table.
   - Update it with the chosen preset.
   - Replace every value by the environment variable of the same name, or by `str(value)` when there is none.
   - Set `TF_NEED_CUDA` from the architecture, and take the architecture's image.
   - Let a non-empty `DOCKER_IMAGE` win over that image.
2. **The container's lifecycle** (`build`):
   - Grow the `docker run` command vector.
   - Then call `docker run`, `docker exec`, `docker cp`, `docker stop` and, on request, `docker rm`, strictly in that order.
   - Every call goes through `check_call`/`check_output`, so the first failing call raises and no later call is made.

The model is written in the source's own form:

- `OrderedDict.Dict` is a class whose entry sequence the methods `Set` (`d[k] = v`) and `Update` (`d.update(t)`) reassign. An entry sequence is insertion-ordered with distinct keys, like a Python dict.
- `Config.Resolve` builds that dict in place, as lines 89-101 do. It is proved equal to the specification function `Config.ResolvedSettings`. The precedence rules are proved about that function against an independent reference, `Config.Expected`.
- `Orchestrator.RunCommand` grows the command vector in a loop. It is proved equal to `Orchestrator.RunArgs`, whose exact shape is proved by lemmas.
- `Orchestrator.Container` records the docker calls made and the phase the container is in. `Orchestrator.Build` drives it as `build` does, and is proved to make exactly the calls `Orchestrator.Trace` lists. The ordering, abort and teardown properties are proved about `Trace`.
- `Driver.BuildRelease` chains the two stages, as line 103 does.

Inputs that the program gets from outside are parameters:

- the outcome of each docker call (`Orchestrator.Responses`: the output of `docker run`, or none when it fails, and whether each later call exits with status 0);
- the process environment;
- whether stdout is a terminal;
- the repository root.

Four behaviours of the code that the model keeps as they are:

- **No guaranteed teardown.** A failing `exec` or `cp` raises before `stop`, so teardown is skipped and the container is left running (`Orchestrator.FailedBuildLeavesContainer`).
- **A failed stop or remove is fatal.** A failing `stop` or `rm` raises like any other call, even after a successful copy (`Orchestrator.StopAndRemoveTargets`, `Orchestrator.StopFailureRaises`, `Orchestrator.RemoveFailureRaises`).
- **No toolchain placeholder.** The only values that depend on the architecture are `TF_NEED_CUDA` in `envs` and `docker_image`.
- **The image is not copied back into the dict.** The architecture's image is only chosen into `docker_image`. `envs` itself gains only `TF_NEED_CUDA`.

## Model

| member | source | states |
|---|---|---|
| PyText.Decimal | scripts/build.py:93 | defines `str(n)` of a Python `int`: a minus sign for negatives, then the decimal digits |
| PyText.Str | scripts/build.py:93 | defines `str(value)` of a preset value: a string is itself, an integer is printed in decimal |
| PyText.IsSpace | scripts/build.py:52 | defines the characters `.strip()` removes: Python 3's `str.isspace` code points |
| PyText.Strip | scripts/build.py:52 | defines `.strip()` of the `docker run` output: the text between the leading and the trailing run of `isspace` characters |
| PyText.NatDigits | scripts/build.py:93 | `str` of a natural number is a non-empty run of decimal digits with no leading zero |
| PyText.DecimalRoundTrip | scripts/build.py:93 | `str` of an integer flag loses nothing: its digits read back as the same integer |
| PyText.StripSplits | scripts/build.py:52 | the container id is the docker output with a whitespace run removed at each end, and it neither starts nor ends with whitespace |
| PyText.StripUnique | scripts/build.py:52 | any split of the output into whitespace, text without whitespace at its ends, and whitespace yields exactly that text as the id |
| PyText.StripIdempotent | scripts/build.py:52 | stripping the id again changes nothing |
| OrderedDict.Lookup | scripts/build.py:96 | `envs[key]` finds a value exactly when the key is in the dict, and it is that key's entry |
| OrderedDict.Assign | scripts/build.py:93-98 | defines `d[k] = v`: replace the entry of `k` where it stands, or append `(k, v)` when `k` is new |
| OrderedDict.UpdateWith | scripts/build.py:90-91 | defines `d.update(t)`: assign the entries of `t` in `t`'s order |
| OrderedDict.AssignKeys | scripts/build.py:95 | `d[k] = v` keeps every key in place, appends `k` last when it is new, and keeps keys distinct |
| OrderedDict.AssignLookup | scripts/build.py:95 | after `d[k] = v`, `k` holds `v` and every other key holds what it held |
| OrderedDict.AssignAt | scripts/build.py:93 | assigning a key the dict holds changes that entry in place and nothing else |
| OrderedDict.UpdateWithUnique | scripts/build.py:90-91 | `update` keeps the keys distinct |
| OrderedDict.UpdateWithPrefix | scripts/build.py:90-91 | `update` keeps the existing keys, in their order, at the front |
| OrderedDict.UpdateWithKeySet | scripts/build.py:90-91 | after `update` the keys are those of both dicts and no others |
| OrderedDict.UpdateWithSameKeys | scripts/build.py:91 | updating with keys the dict already holds neither adds nor moves a key |
| OrderedDict.UpdateWithLookup | scripts/build.py:90-91 | after `update` a key of the argument holds the argument's value, and any other key is untouched |
| OrderedDict.UpdateWithFresh | scripts/build.py:90 | updating with all-new keys appends the argument's entries in order |
| OrderedDict.Dict.constructor | scripts/build.py:89 | `{}` is the empty dict |
| OrderedDict.Dict.Set | scripts/build.py:93 | `d[k] = v` on the dict in place, keeping its keys distinct |
| OrderedDict.Dict.Update | scripts/build.py:90-91 | `d.update(t)` in place: each entry of `t` is assigned in turn |
| Config.ArchImageKey | scripts/build.py:96-99 | defines which image key the architecture selects: `DOCKER_IMAGE_GPU` for gpu (line 96), `DOCKER_IMAGE_CPU` for cpu (line 99) |
| Config.CudaValue | scripts/build.py:95-98 | defines the `TF_NEED_CUDA` value: "1" for gpu (line 95), "0" for cpu (line 98) |
| Config.Merged | scripts/build.py:89-91 | defines the dict after `envs = {}` and the two `update` calls |
| Config.EnvironGet | scripts/build.py:93 | defines `os.environ.get(key, str(value))`: the variable of that name if set, else `str(value)` |
| Config.EnvLayer | scripts/build.py:92-93 | defines the dict after the loop that gives each key its `EnvironGet` value, in place |
| Config.ResolvedSettings | scripts/build.py:89-98 | defines the final `envs`: the environment layer over the merged presets, then `TF_NEED_CUDA` set by architecture |
| Config.ResolvedImage | scripts/build.py:94-101 | defines `docker_image`: the resolved `DOCKER_IMAGE` when non-empty, else the resolved image of the architecture |
| Config.Expected | scripts/build.py:89-98 | defines, independently of the order of operations, the value each key should end with; `SettingPrecedence` proves `ResolvedSettings` meets it |
| Config.UpdateEmpty | scripts/build.py:89-90 | updating `{}` with a dict copies that dict |
| Config.MergedKeys | scripts/build.py:89-91 | the merged dict holds every default key in the default's order, then any key only the chosen preset has, and no other key |
| Config.MergedLookup | scripts/build.py:89-91 | a key the chosen preset defines takes the preset's value; every other key keeps the default value |
| Config.EnvLayerLookup | scripts/build.py:92-93 | the environment loop keeps every key in place; each value becomes the variable of that name if set, else `str(value)` |
| Config.EnvLayerUnique | scripts/build.py:92-93 | the environment loop adds, removes and moves no key, so distinct keys stay distinct |
| Config.ImageKeysPresent | scripts/build.py:96-100 | `DOCKER_IMAGE` and the architecture's image key, the two keys `main` looks up, are present, so neither lookup raises `KeyError` |
| Config.SettingPrecedence | scripts/build.py:89-98 | every key ends with the reference value: `TF_NEED_CUDA` by architecture alone; otherwise environment over chosen preset over default, as a string; keys of neither preset are absent |
| Config.ResolvedKeys | scripts/build.py:89-98 | the resolved dict has distinct keys, starts with the default keys in order, and holds exactly `TF_NEED_CUDA` and the keys of the two presets |
| Config.ResolvedKeyOrder | scripts/build.py:90-98 | when the chosen preset adds no key and the default preset has no `TF_NEED_CUDA`, the keys are the default's in order, then `TF_NEED_CUDA` last |
| Config.ImageSelection | scripts/build.py:94-101 | a non-empty resolved `DOCKER_IMAGE` is the image whatever the architecture; otherwise it is the resolved GPU image for gpu and the CPU image for cpu |
| Config.ForeignEnvironmentIgnored | scripts/build.py:92-93 | environment variables whose names are keys of neither preset change neither the dict nor the image |
| Config.SingleOverride | scripts/build.py:92-93 | setting one variable named after a preset key other than `TF_NEED_CUDA` gives that key the variable's value and changes no other key |
| Config.DefaultPreset | scripts/build.py:12-31 | defines the "default" preset: its 18 entries, in the literal's order, with the integer and string values as written |
| Config.Tf230Preset | scripts/build.py:33-37 | defines the "tensorflow-2.3.0" preset: its 3 entries, in the literal's order |
| Config.Presets | scripts/build.py:10-38 | defines `PRESETS`: the two presets under their names |
| Config.DefaultKeysListed | scripts/build.py:12-31 | the default preset's keys are the 18 names listed, in the literal's order |
| Config.DefaultUnique | scripts/build.py:12-31 | the default preset names no key twice |
| Config.DefaultNamesImages | scripts/build.py:20-30 | the default preset names the three image keys and the compute capabilities, and not `TF_NEED_CUDA` |
| Config.Tf230Keys | scripts/build.py:33-37 | the 2.3.0 preset overrides the compute capabilities and the two architecture images, each once |
| Config.PresetsWellFormed | scripts/build.py:10-38 | the `PRESETS` table meets what the resolution relies on; the 2.3.0 preset only overrides default keys; no preset sets `TF_NEED_CUDA` |
| Config.PresetsKeyOrder | scripts/build.py:10-38 | with `PRESETS`, either preset resolves to the default's 18 keys in order, then `TF_NEED_CUDA` |
| Config.XlaDefault | scripts/build.py:15 | the default `TF_ENABLE_XLA` is the integer 0 |
| Config.ImageDefault | scripts/build.py:28 | the default `DOCKER_IMAGE` is empty |
| Config.CpuImageDefault | scripts/build.py:30 | the default CPU image is `ubuntu:18.04` |
| Config.Tf230Entries | scripts/build.py:33-37 | the 2.3.0 preset's capabilities and GPU image, and that it sets neither `DOCKER_IMAGE` nor `TF_ENABLE_XLA` |
| Config.DefaultCpuScenario | scripts/build.py:89-101 | default preset, cpu, empty environment: `TF_NEED_CUDA` is "0", `TF_ENABLE_XLA` is "0", and the image is `ubuntu:18.04` |
| Config.DefaultCpuXla | scripts/build.py:92-93 | (proof step of `DefaultCpuScenario`) default preset, cpu, empty environment: the integer flag `TF_ENABLE_XLA` ends as the string "0" |
| Config.DefaultCpuImage | scripts/build.py:97-101 | (proof step of `DefaultCpuScenario`) default preset, cpu, empty environment: the image is `ubuntu:18.04` |
| Config.Tf230GpuScenario | scripts/build.py:89-101 | 2.3.0 preset, gpu, empty environment: that preset's capabilities, `TF_NEED_CUDA` "1", and that preset's CUDA 10.1 image |
| Config.Tf230GpuCapabilities | scripts/build.py:89-93 | (proof step of `Tf230GpuScenario`) 2.3.0 preset, gpu, empty environment: the compute capabilities are that preset's |
| Config.Tf230GpuImage | scripts/build.py:94-101 | (proof step of `Tf230GpuScenario`) 2.3.0 preset, gpu, empty environment: the image is that preset's CUDA 10.1 image |
| Config.Resolve | scripts/build.py:89-101 | builds `envs` in place and chooses the image; both equal the resolution functions whose precedence, key order and image rules are proved above |
| Orchestrator.JoinPath | scripts/build.py:44 | defines `str(ROOT / name)` for the resolved root, also used on line 58 |
| Orchestrator.Assignment | scripts/build.py:49 | defines `"{}={}".format(k, v)` for one entry |
| Orchestrator.RunHead | scripts/build.py:44 | defines the fixed head `docker run -d -v <root>/scripts:/scripts:ro` |
| Orchestrator.EnvFlags | scripts/build.py:48-49 | defines the `-e`, `K=V` arguments the loop adds, one pair per entry in the dict's order |
| Orchestrator.RunArgs | scripts/build.py:44-50 | defines the `docker run` command vector: options, `TF_VER`, the entries' pairs, `<image> sleep inf` |
| Orchestrator.EnvFlagsSnoc | scripts/build.py:48-49 | (proof step of `RunCommand`) one more entry adds its `-e`, `K=V` pair at the end |
| Orchestrator.EnvFlagsLength | scripts/build.py:48-49 | (proof step of `EnvFlagsShape`) the entries give two arguments each |
| Orchestrator.EnvFlagsAt | scripts/build.py:48-49 | (proof step of `EnvFlagsShape`) entry `i` gives `-e` at position `2i` and its `K=str(V)` right after |
| Orchestrator.EnvFlagsShape | scripts/build.py:48-49 | (proof step of `RunArgsShape`) one `-e`, `K=V` pair per entry, in the dict's order |
| Orchestrator.RunArgsParts | scripts/build.py:44-50 | (proof step of `RunArgsShape`) the command is the options up to `TF_VER`, then the entries' pairs, then `<image> sleep inf` |
| Orchestrator.RunArgsOptions | scripts/build.py:44-47 | (proof step of `RunArgsShape`) it starts `docker run -d -v <root>/scripts:/scripts:ro`, has `-t` exactly on a terminal, then `-e TF_VER=<version>` before any entry |
| Orchestrator.RunArgsEntries | scripts/build.py:48-49 | (proof step of `RunArgsShape`) entry `i` of the dict sits at its place among the pairs |
| Orchestrator.RunArgsShape | scripts/build.py:44-50 | the whole shape: length, head, `-t` exactly on a terminal, `TF_VER` first, one pair per entry in order, `<image> sleep inf` last |
| Orchestrator.RunCommand | scripts/build.py:44-50 | the vector grown by `append`/`extend` is exactly `RunArgs` of the dict's entries |
| Orchestrator.Container.constructor | scripts/build.py:41 | the container before `build` makes its first call: absent, with no call logged |
| Orchestrator.Container.Launch | scripts/build.py:52 | `docker run` is logged; on success the container runs and its id is the output stripped |
| Orchestrator.Container.Call | scripts/build.py:54-64 | a later call is logged; on success the container moves one phase on |
| Orchestrator.Build | scripts/build.py:41-64 | the calls made are exactly `Trace` of the command vector and the outcomes, and the result is the failing step, if any |
| Orchestrator.BuildInContainer | scripts/build.py:54-64 | once the container runs: exec, cp, stop and, on request, rm, stopping at the first failure |
| Orchestrator.ExecArgs | scripts/build.py:54 | defines `docker exec <id> bash /scripts/inside-docker.sh` |
| Orchestrator.CopyArgs | scripts/build.py:58 | defines `docker cp <id>:/build/. <root>/build` |
| Orchestrator.StopArgs | scripts/build.py:61 | defines `docker stop <id>` |
| Orchestrator.RemoveArgs | scripts/build.py:64 | defines `docker rm <id>` |
| Orchestrator.AfterRun | scripts/build.py:54-64 | defines the calls made once the container runs: exec, then cp if exec succeeded, then stop if cp succeeded, then rm if asked for and stop succeeded |
| Orchestrator.Trace | scripts/build.py:52-64 | defines every docker call `build` makes: `docker run`, then `AfterRun` on the stripped id if run succeeded |
| Orchestrator.TraceLegal | scripts/build.py:52-64 | every trace follows the pipeline order, starts with `docker run`, and has no call after a failed one |
| Orchestrator.Outcome | scripts/build.py:52-64 | defines how `build` ends: it returns when every call succeeded, or raises `CalledProcessError` at the call that failed |
| Orchestrator.FailureAborts | scripts/build.py:52-64 | a failed call is the last call, and `build` raises at it |
| Orchestrator.ExecAndCopyTargets | scripts/build.py:52-59 | `exec` runs exactly when `run` succeeded, on the stripped id; `cp` runs exactly when `exec` also succeeded, on the same container |
| Orchestrator.TeardownOrder | scripts/build.py:58-64 | `stop` is issued at most once and only after a successful `cp`; `rm` only when asked for and after a successful `stop` |
| Orchestrator.StopAndRemoveTargets | scripts/build.py:58-64 | `stop` runs exactly when `cp` succeeded and records its own outcome; `rm` runs exactly when removal was asked for and `stop` succeeded, and records its outcome; both target the stripped id |
| Orchestrator.StopFailureRaises | scripts/build.py:59-61 | a failing `stop` after a successful `cp` makes `build` raise at the stop, with no `rm` issued |
| Orchestrator.RemoveFailureRaises | scripts/build.py:61-64 | a failing `rm` after a successful `stop`, with removal asked for, makes `build` raise at the rm |
| Orchestrator.FailedBuildLeavesContainer | scripts/build.py:54-64 | after a failed `exec` or `cp`, neither `stop` nor `rm` is issued and the container is left running or built |
| Orchestrator.CompletedBuild | scripts/build.py:52-64 | a build that completes ran run, exec, cp and stop once each, and rm exactly when asked for; the container ends removed or stopped |
| Driver.BuildRelease | scripts/build.py:89-103 | `main` after argument parsing: the calls made are the trace of the run command built from the resolved dict and image |

## Left out

- Argument parsing (scripts/build.py:67-87) is not modelled. Its restrictions are the model's inputs instead:
  - `arch` is one of cpu/gpu: the `Arch` type (line 76);
  - `--preset` names an entry of the table: the precondition `preset in presets` (line 80);
  - `--rm` is the boolean `removeContainer`.
- `os.makedirs` of the build directory (line 42) is left out: it is file-system I/O. An error it raises is not modelled.
- The `print` calls (lines 51, 55) are left out: they are output only.
- Decoding the `docker run` output as UTF-8 (line 52) is left out. The model takes the output as an already-decoded string, so a decoding error is not modelled.
- What the docker calls do is left out. Their outcomes and the output of `docker run` are inputs, and `stdin=DEVNULL` on `exec` has no counterpart.
- `ROOT` (line 8) is the resolved repository root, given as a string. `root / name` is string concatenation with one `/`.
- The process environment and `sys.stdout.isatty()` are parameters.
- The build script run inside the container (`scripts/inside-docker.sh`) is not part of this model.
- The MNIST example and its training script are not part of this model: they are TensorFlow, CUDA and Keras calls over floating-point data.
- Config.Resolve: requires the catalog to be well formed (`Config.WellFormed`): a "default" preset holding the three image keys, and distinct keys in every preset. This is stronger than the code needs. The code only looks up `DOCKER_IMAGE` and the selected architecture's image key, and either preset could supply them. The `PRESETS` literal meets the condition (`Config.PresetsWellFormed`), and a Python dict always has distinct keys.
- Python's `str` is modelled only for the value types in the table: strings and integers.
