/**
 * `main` of scripts/build.py once its arguments are parsed: resolve the
 * configuration, then run the build with it.
 */
module Driver {
  import opened Config
  import opened Orchestrator

  /**
   * The command line restricts `arch` to cpu/gpu (the `Arch` type) and the
   * preset to a name in the table; the environment, the terminal check, the
   * repository root and the docker outcomes are inputs.
   */
  method BuildRelease(presets: Catalog, version: string, arch: Arch, preset: string, removeContainer: bool,
                      environ: map<string, string>, root: string, isTty: bool, r: Responses, c: Container)
    returns (result: BuildResult)
    requires WellFormed(presets) && preset in presets
    requires c.Valid() && c.log == []
    modifies c
    ensures c.Valid()
    ensures c.log == Trace(RunArgs(root, isTty, version, ResolvedSettings(presets, preset, arch, environ),
                                   ResolvedImage(presets, preset, arch, environ)),
                           root, removeContainer, r)
    ensures result == Outcome(c.log)
  {
    var envs, image := Resolve(presets, preset, arch, environ);
    result := Build(c, envs, root, version, image, removeContainer, isTty, r);
  }
}
