/**
 * The artifact-import stage placed after the `install` stage
 * (pkg/build/stage/artifact_import_after_install.go): it exists only when the
 * image's configuration imports something from an artifact after `install`,
 * and then it holds exactly those imports.
 */
module Stage {
  import opened Wrappers

  /** The stage anchor these imports are attached to. */
  const InstallStage := "install"

  const AfterInstallArtifactStageName := "after_install_artifact"

  /** config.ArtifactImport: what to copy from which artifact, and the stage it is anchored before or after. */
  datatype ArtifactImport = ArtifactImport(
    artifactName: string, add: string, to: string, before: string, after: string)

  /** config.DimgBase, reduced to what the import selection reads. */
  datatype DimgBase = DimgBase(name: string, imports: seq<ArtifactImport>)

  /** getImportsOptions: select the imports anchored before or after a stage. */
  datatype GetImportsOptions = GetImportsOptions(before: string, after: string)

  datatype ArtifactImportBaseStage = ArtifactImportBaseStage(imports: seq<ArtifactImport>)

  datatype ArtifactImportAfterInstallStage = ArtifactImportAfterInstallStage(base: ArtifactImportBaseStage)
  {
    /** Name: every after-install artifact stage has the same name. */
    function Name(): (n: string)
      ensures n == "after_install_artifact"
    {
      AfterInstallArtifactStageName
    }
  }

  /** The selection this stage asks for: imports anchored after `install`. */
  function AfterInstall(): (opts: GetImportsOptions)
    ensures opts.after == InstallStage && opts.before == ""
  {
    GetImportsOptions("", InstallStage)
  }

  /** newArtifactImportAfterInstallStage: a stage whose base holds `imports`, unchanged. */
  function NewArtifactImportAfterInstallStage(imports: seq<ArtifactImport>): (s: ArtifactImportAfterInstallStage)
    ensures s.base.imports == imports
  {
    ArtifactImportAfterInstallStage(ArtifactImportBaseStage(imports))
  }

  /**
   * GenerateArtifactImportAfterInstallStage, with the import selection
   * `getImports` as a parameter: no stage when nothing is selected, else a
   * stage holding exactly the selection.
   */
  function GenerateArtifactImportAfterInstallStage(
    config: DimgBase, getImports: (DimgBase, GetImportsOptions) -> seq<ArtifactImport>)
    : (r: Option<ArtifactImportAfterInstallStage>)
    ensures r.None? <==> getImports(config, AfterInstall()) == []
    ensures r.Some? ==> r.value.base.imports == getImports(config, AfterInstall())
  {
    var imports := getImports(config, AfterInstall());
    if |imports| != 0 then Some(NewArtifactImportAfterInstallStage(imports)) else None
  }

  /**
   * Every stage generated is the after-install artifact stage, is never empty,
   * and does not depend on anything but the imports selected after `install`.
   */
  lemma GeneratedStageIsAfterInstall(
    config: DimgBase, other: DimgBase, getImports: (DimgBase, GetImportsOptions) -> seq<ArtifactImport>)
    requires getImports(config, AfterInstall()) == getImports(other, AfterInstall())
    ensures var r := GenerateArtifactImportAfterInstallStage(config, getImports);
      r == GenerateArtifactImportAfterInstallStage(other, getImports) &&
      (r.Some? ==> r.value.Name() == "after_install_artifact" && r.value.base.imports != [])
  {
  }
}
