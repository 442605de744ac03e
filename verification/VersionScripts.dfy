/**
  The steps of the updater for this repository's layout, and the checker.
 */
module VersionScripts {
  import opened Manifests
  import opened VersionRuns

  // The directories, which no run changes: the names of the subdirectories of a directory, and
  // all files below tests/, in the order of os.walk.
  datatype Tree = Tree(subdirs: Path -> seq<string>, testFiles: seq<Path>)

  const ManifestName := "manifest.json"
  const TentName := "manifest.json.tent"

  const Runtime: Path := ["core", "src", "ten_runtime"]
  const SystemManifests: seq<Path> := [
    Runtime + [ManifestName],
    Runtime + ["binding", "go", ManifestName],
    Runtime + ["binding", "python", ManifestName],
    Runtime + ["binding", "nodejs", ManifestName]]
  const CoreDirs: seq<Path> := [["packages", "core_apps"], ["packages", "core_extensions"], ["packages", "core_protocols"]]
  const Blacklisted: Path := ["tests", "ten_manager", "error_context", "package_version_not_found", "test_app", ManifestName]
  const Metadata: Path := Runtime + ["build_template", "preserved_metadata.c"]
  const MetadataTemplate: Path := Runtime + ["build_template", "preserved_metadata.c.jinja2"]
  const Tman: Path := ["core", "src", "ten_manager", "src", "version.rs"]
  const TmanTemplate: Path := ["core", "src", "ten_manager", "src", "version.rs.jinja2"]

  function MetadataMarker(version: string): string {
    "version=" + version
  }

  function TmanMarker(version: string): string {
    "VERSION: &str = \"" + version + "\""
  }

  // ---------- Collecting manifests ----------

  // dir/*/name, for the files that exist
  function CollectIn(files: Files, dir: Path, subdirs: seq<string>, name: string): seq<Path> {
    if subdirs == [] then []
    else
      (if dir + [subdirs[0], name] in files then [dir + [subdirs[0], name]] else [])
      + CollectIn(files, dir, subdirs[1..], name)
  }

  function Collect(tree: Tree, files: Files, dir: Path, name: string): seq<Path> {
    CollectIn(files, dir, tree.subdirs(dir), name)
  }

  function CollectAll(tree: Tree, files: Files, dirs: seq<Path>, name: string): seq<Path> {
    if dirs == [] then [] else Collect(tree, files, dirs[0], name) + CollectAll(tree, files, dirs[1..], name)
  }

  // packages/*/*/manifest.json and packages/*/*/manifest.json.tent, directory by directory
  function PackageManifests(tree: Tree, files: Files, dirs: seq<string>): seq<Path> {
    if dirs == [] then []
    else
      Collect(tree, files, ["packages", dirs[0]], ManifestName) + Collect(tree, files, ["packages", dirs[0]], TentName)
      + PackageManifests(tree, files, dirs[1..])
  }

  predicate IsNamed(p: Path, name: string) {
    p != [] && p[|p| - 1] == name
  }

  function Named(paths: seq<Path>, name: string): seq<Path> {
    if paths == [] then []
    else (if IsNamed(paths[0], name) then [paths[0]] else []) + Named(paths[1..], name)
  }

  function Without(paths: seq<Path>, path: Path): seq<Path> {
    if paths == [] then []
    else (if paths[0] == path then [] else [paths[0]]) + Without(paths[1..], path)
  }

  function CoreManifests(tree: Tree, files: Files): seq<Path> {
    CollectAll(tree, files, CoreDirs, ManifestName)
  }

  function DependencyManifests(tree: Tree, files: Files): seq<Path> {
    Collect(tree, files, Runtime + ["binding"], ManifestName)
    + PackageManifests(tree, files, tree.subdirs(["packages"]))
    + Without(Named(tree.testFiles, ManifestName), Blacklisted)
  }

  // ---------- The steps ----------

  function PkgAt(env: Env, files: Files, path: Path): Pkg {
    var j := Load(env, files, path);
    if j.Some? then PkgOf(j.value) else Pkg(Null, Null)
  }

  function PkgsAt(env: Env, files: Files, paths: seq<Path>): (r: seq<Pkg>)
    ensures |r| == |paths|
  {
    seq(|paths|, i requires 0 <= i < |paths| => PkgAt(env, files, paths[i]))
  }

  function TemplateSteps(version: string): seq<Step> {
    [FromTemplate(Metadata, MetadataTemplate, MetadataMarker(version)), FromTemplate(Tman, TmanTemplate, TmanMarker(version))]
  }

  function VersionSteps(paths: seq<Path>, collect: bool): seq<Step> {
    seq(|paths|, i requires 0 <= i < |paths| => SetVersion(paths[i], collect))
  }

  function TestSteps(paths: seq<Path>, pkgs: seq<Pkg>): seq<Step> {
    seq(|paths|, i requires 0 <= i < |paths| => SetVersionIfIn(paths[i], pkgs))
  }

  function DependencySteps(paths: seq<Path>, pkgs: seq<Pkg>): seq<Step> {
    seq(|paths|, i requires 0 <= i < |paths| => SetDependencies(paths[i], pkgs))
  }

  // The system and core packages: the only ones whose versions are rewritten in dependencies.
  function UpdatedPkgs(env: Env, tree: Tree, files: Files): seq<Pkg> {
    PkgsAt(env, files, SystemManifests) + PkgsAt(env, files, CoreManifests(tree, files))
  }

  function ManifestSteps(env: Env, tree: Tree, files: Files): seq<Step> {
    VersionSteps(SystemManifests, true)
    + VersionSteps(CoreManifests(tree, files), true)
    + VersionSteps(CollectAll(tree, files, CoreDirs, TentName), false)
    + TestSteps(Named(tree.testFiles, ManifestName), PkgsAt(env, files, CoreManifests(tree, files)))
    + DependencySteps(DependencyManifests(tree, files), UpdatedPkgs(env, tree, files))
  }

  function Run(env: Env, tree: Tree, files: Files): Outcome {
    var o := RunSteps(env, files, TemplateSteps(env.version));
    if o.ok then RunSteps(env, o.files, ManifestSteps(env, tree, o.files)) else o
  }

  // ---------- The checker ----------

  datatype Verdict = Match | Mismatch | Crash

  function CheckManifests(env: Env, files: Files, paths: seq<Path>): Verdict {
    if paths == [] then Match
    else if paths[0] !in files then Mismatch
    else
      var j := env.parse(files[paths[0]]);
      if j.None? || !j.value.Object? then Crash
      else if !HasVersion(j.value, env.version) then Mismatch
      else CheckManifests(env, files, paths[1..])
  }

  predicate CheckRendered(files: Files, path: Path, marker: string) {
    path in files && Contains(files[path], marker)
  }

  function CheckVersions(env: Env, files: Files): Verdict {
    if !CheckRendered(files, Metadata, MetadataMarker(env.version)) then Mismatch
    else if !CheckRendered(files, Tman, TmanMarker(env.version)) then Mismatch
    else CheckManifests(env, files, SystemManifests)
  }

  lemma {:induction false} CheckManifestsMeans(env: Env, files: Files, paths: seq<Path>)
    ensures CheckManifests(env, files, paths) == Match
            <==> forall p | p in paths :: Done(env, files, SetVersion(p, false))
  {
    if paths != [] {
      CheckManifestsMeans(env, files, paths[1..]);
      assert paths[0] in paths && paths == [paths[0]] + paths[1..];
    }
  }

  // Checker and updater agree: the check passes exactly when the updater has nothing to do.
  lemma CheckPassesIffNothingToSet(env: Env, files: Files, paths: seq<Path>)
    requires Faithful(env)
    ensures CheckManifests(env, files, paths) == Match
            <==> RunSteps(env, files, VersionSteps(paths, false)) == Outcome(files, true)
  {
    var steps := VersionSteps(paths, false);
    CheckManifestsMeans(env, files, paths);
    if CheckManifests(env, files, paths) == Match {
      forall step | step in steps
        ensures Done(env, files, step)
      {
      }
      DoneRunIsQuiet(env, files, steps);
    } else if RunSteps(env, files, steps) == Outcome(files, true) {
      RunAchieves(env, files, steps);
      forall p | p in paths
        ensures Done(env, files, SetVersion(p, false))
      {
        var i :| 0 <= i < |paths| && paths[i] == p;
        assert steps[i] in steps;
      }
    }
  }

  // ---------- The paths of a run ----------

  predicate IsManifest(p: Path) {
    IsNamed(p, ManifestName) || IsNamed(p, TentName)
  }

  predicate AllManifests(paths: seq<Path>) {
    forall p | p in paths :: IsManifest(p)
  }

  lemma {:induction false} CollectedAreManifests(files: Files, dir: Path, subdirs: seq<string>, name: string)
    requires name == ManifestName || name == TentName
    ensures AllManifests(CollectIn(files, dir, subdirs, name))
    ensures forall p | p in CollectIn(files, dir, subdirs, name) :: p in files
  {
    if subdirs != [] {
      CollectedAreManifests(files, dir, subdirs[1..], name);
      assert IsNamed(dir + [subdirs[0], name], name);
    }
  }

  lemma {:induction false} AllCollectedAreManifests(tree: Tree, files: Files, dirs: seq<Path>, name: string)
    requires name == ManifestName || name == TentName
    ensures AllManifests(CollectAll(tree, files, dirs, name))
    ensures forall p | p in CollectAll(tree, files, dirs, name) :: p in files
  {
    if dirs != [] {
      CollectedAreManifests(files, dirs[0], tree.subdirs(dirs[0]), name);
      AllCollectedAreManifests(tree, files, dirs[1..], name);
    }
  }

  lemma {:induction false} PackagesAreManifests(tree: Tree, files: Files, dirs: seq<string>)
    ensures AllManifests(PackageManifests(tree, files, dirs))
  {
    if dirs != [] {
      CollectedAreManifests(files, ["packages", dirs[0]], tree.subdirs(["packages", dirs[0]]), ManifestName);
      CollectedAreManifests(files, ["packages", dirs[0]], tree.subdirs(["packages", dirs[0]]), TentName);
      PackagesAreManifests(tree, files, dirs[1..]);
    }
  }

  lemma {:induction false} NamedAreNamed(paths: seq<Path>, name: string)
    ensures forall p | p in Named(paths, name) :: IsNamed(p, name)
  {
    if paths != [] {
      NamedAreNamed(paths[1..], name);
    }
  }

  lemma {:induction false} WithoutIsWithin(paths: seq<Path>, path: Path)
    ensures forall p :: p in Without(paths, path) <==> p in paths && p != path
  {
    if paths != [] {
      WithoutIsWithin(paths[1..], path);
      assert paths == [paths[0]] + paths[1..];
    }
  }

  predicate OnManifests(steps: seq<Step>) {
    forall step | step in steps :: !step.FromTemplate? && IsManifest(step.path)
  }

  lemma SystemAreManifests()
    ensures AllManifests(SystemManifests)
  {
    assert IsNamed(Runtime + [ManifestName], ManifestName);
    assert IsNamed(Runtime + ["binding", "go", ManifestName], ManifestName);
    assert IsNamed(Runtime + ["binding", "python", ManifestName], ManifestName);
    assert IsNamed(Runtime + ["binding", "nodejs", ManifestName], ManifestName);
  }

  lemma VisitedAreManifests(tree: Tree, files: Files)
    ensures AllManifests(SystemManifests)
    ensures AllManifests(CoreManifests(tree, files))
    ensures AllManifests(CollectAll(tree, files, CoreDirs, TentName))
    ensures AllManifests(Named(tree.testFiles, ManifestName))
    ensures AllManifests(DependencyManifests(tree, files))
  {
    SystemAreManifests();
    AllCollectedAreManifests(tree, files, CoreDirs, ManifestName);
    AllCollectedAreManifests(tree, files, CoreDirs, TentName);
    CollectedAreManifests(files, Runtime + ["binding"], tree.subdirs(Runtime + ["binding"]), ManifestName);
    PackagesAreManifests(tree, files, tree.subdirs(["packages"]));
    NamedAreNamed(tree.testFiles, ManifestName);
    WithoutIsWithin(Named(tree.testFiles, ManifestName), Blacklisted);
  }

  lemma StepsAreOnManifests(paths: seq<Path>, collect: bool, pkgs: seq<Pkg>)
    requires AllManifests(paths)
    ensures OnManifests(VersionSteps(paths, collect)) && OnManifests(TestSteps(paths, pkgs))
    ensures OnManifests(DependencySteps(paths, pkgs))
  {
  }

  lemma ManifestStepsAreOnManifests(env: Env, tree: Tree, files: Files)
    ensures OnManifests(ManifestSteps(env, tree, files))
  {
    VisitedAreManifests(tree, files);
    var core := CoreManifests(tree, files);
    StepsAreOnManifests(SystemManifests, true, []);
    StepsAreOnManifests(core, true, []);
    StepsAreOnManifests(CollectAll(tree, files, CoreDirs, TentName), false, []);
    StepsAreOnManifests(Named(tree.testFiles, ManifestName), true, PkgsAt(env, files, core));
    StepsAreOnManifests(DependencyManifests(tree, files), true, UpdatedPkgs(env, tree, files));
  }

  lemma TemplatesAreApart(version: string, steps: seq<Step>)
    requires OnManifests(steps)
    ensures forall step, t | step in steps && t in TemplateSteps(version) :: Apart(step, t)
    ensures AllApart(TemplateSteps(version)) && AllApart(steps)
  {
    assert Metadata[4] == "preserved_metadata.c" && MetadataTemplate[4] == "preserved_metadata.c.jinja2";
    assert Tman[4] == "version.rs" && TmanTemplate[4] == "version.rs.jinja2";
    assert |"version.rs"| == 10 && |"version.rs.jinja2"| == 17;
    assert |"preserved_metadata.c"| == 20 && |"preserved_metadata.c.jinja2"| == 27;
  }

  // ---------- A successful run ----------

  lemma RunIsDone(env: Env, tree: Tree, files: Files)
    requires Faithful(env) && Run(env, tree, files).ok
    ensures var o := RunSteps(env, files, TemplateSteps(env.version));
            forall step | step in TemplateSteps(env.version) + ManifestSteps(env, tree, o.files) ::
              Done(env, Run(env, tree, files).files, step)
  {
    var o := RunSteps(env, files, TemplateSteps(env.version));
    var steps := ManifestSteps(env, tree, o.files);
    ManifestStepsAreOnManifests(env, tree, o.files);
    TemplatesAreApart(env.version, steps);
    RunAchieves(env, files, TemplateSteps(env.version));
    RunAchieves(env, o.files, steps);
    forall t | t in TemplateSteps(env.version)
      ensures Done(env, Run(env, tree, files).files, t)
    {
      RunKeepsDone(env, o.files, steps, t);
    }
  }

  // The file shows the version, or its template will.
  predicate Shows(env: Env, files: Files, path: Path, template: Path, marker: string) {
    || (path in files && Contains(files[path], marker))
    || (template in files && Contains(env.render(files[template]), marker))
  }

  lemma RenderedShows(env: Env, files: Files, step: Step)
    requires step.FromTemplate? && StepOn(env, files, step).ok
    ensures CheckRendered(StepOn(env, files, step).files, step.path, step.marker)
            <==> Shows(env, files, step.path, step.template, step.marker)
  {
  }

  lemma {:induction false} RunLeavesAlone(env: Env, files: Files, steps: seq<Step>, p: Path)
    requires Faithful(env) && forall step | step in steps :: step.path != p
    ensures var end := RunSteps(env, files, steps).files;
            (p in end <==> p in files) && (p in files ==> end[p] == files[p])
    decreases |steps|
  {
    if steps != [] {
      assert steps[0] in steps;
      StepPreserves(env, files, steps[0], PkgsOf(steps[0]));
      if StepOn(env, files, steps[0]).ok {
        RunLeavesAlone(env, StepOn(env, files, steps[0]).files, steps[1..], p);
      }
    }
  }

  lemma TemplatesInTwo(env: Env, files: Files)
    ensures var steps := TemplateSteps(env.version);
            var o := StepOn(env, files, steps[0]);
            RunSteps(env, files, steps) == if o.ok then StepOn(env, o.files, steps[1]) else o
  {
    var steps := TemplateSteps(env.version);
    var o := StepOn(env, files, steps[0]);
    assert steps[1..] == [steps[1]] && [steps[1]][1..] == [];
    var o2 := StepOn(env, o.files, steps[1]);
    assert RunSteps(env, o.files, [steps[1]]) == if o2.ok then RunSteps(env, o2.files, []) else o2;
  }

  lemma TemplatePathsDiffer()
    ensures Metadata != Tman && Metadata != TmanTemplate && Tman != MetadataTemplate
    ensures !IsManifest(Metadata) && !IsManifest(Tman)
  {
    assert Metadata[4] == "preserved_metadata.c" && MetadataTemplate[4] == "preserved_metadata.c.jinja2";
    assert Tman[4] == "version.rs" && TmanTemplate[4] == "version.rs.jinja2";
    assert |"version.rs"| == 10 && |"version.rs.jinja2"| == 17 && |"preserved_metadata.c"| == 20;
  }

  // What the two rendered files will show, told from the files before the run.
  lemma TemplatesShow(env: Env, files: Files)
    requires Faithful(env) && RunSteps(env, files, TemplateSteps(env.version)).ok
    ensures var end := RunSteps(env, files, TemplateSteps(env.version)).files;
            && (CheckRendered(end, Metadata, MetadataMarker(env.version))
                <==> Shows(env, files, Metadata, MetadataTemplate, MetadataMarker(env.version)))
            && (CheckRendered(end, Tman, TmanMarker(env.version))
                <==> Shows(env, files, Tman, TmanTemplate, TmanMarker(env.version)))
  {
    var steps := TemplateSteps(env.version);
    var o := StepOn(env, files, steps[0]);
    TemplatesInTwo(env, files);
    TemplatePathsDiffer();
    RenderedShows(env, files, steps[0]);
    RenderedShows(env, o.files, steps[1]);
    StepPreserves(env, files, steps[0], []);
    StepPreserves(env, o.files, steps[1], []);
  }

  // The manifest steps do not touch the rendered files.
  lemma RenderedStay(env: Env, tree: Tree, files: Files)
    requires Faithful(env)
    ensures var end := RunSteps(env, files, ManifestSteps(env, tree, files)).files;
            && (forall m :: CheckRendered(end, Metadata, m) <==> CheckRendered(files, Metadata, m))
            && (forall m :: CheckRendered(end, Tman, m) <==> CheckRendered(files, Tman, m))
  {
    var steps := ManifestSteps(env, tree, files);
    ManifestStepsAreOnManifests(env, tree, files);
    TemplatePathsDiffer();
    RunLeavesAlone(env, files, steps, Metadata);
    RunLeavesAlone(env, files, steps, Tman);
  }

  lemma SystemManifestsPass(env: Env, tree: Tree, files: Files)
    requires Faithful(env) && Run(env, tree, files).ok
    ensures CheckManifests(env, Run(env, tree, files).files, SystemManifests) == Match
  {
    var files' := Run(env, tree, files).files;
    var o := RunSteps(env, files, TemplateSteps(env.version));
    RunIsDone(env, tree, files);
    forall p | p in SystemManifests
      ensures Done(env, files', SetVersion(p, false))
    {
      var i :| 0 <= i < |SystemManifests| && SystemManifests[i] == p;
      assert VersionSteps(SystemManifests, true)[i] == SetVersion(p, true);
      assert SetVersion(p, true) in ManifestSteps(env, tree, o.files);
      assert SetVersion(p, true) in TemplateSteps(env.version) + ManifestSteps(env, tree, o.files);
      assert Done(env, files', SetVersion(p, true));
    }
    CheckManifestsMeans(env, files', SystemManifests);
  }

  // After a successful run the checker is satisfied with the manifests. It is satisfied
  // altogether if and only if, before the run, each of the two rendered files showed the
  // version or had a template that does.
  lemma UpdateSatisfiesCheck(env: Env, tree: Tree, files: Files)
    requires Faithful(env) && Run(env, tree, files).ok
    ensures var files' := Run(env, tree, files).files;
            && CheckManifests(env, files', SystemManifests) == Match
            && (CheckVersions(env, files') == Match <==>
                  && Shows(env, files, Metadata, MetadataTemplate, MetadataMarker(env.version))
                  && Shows(env, files, Tman, TmanTemplate, TmanMarker(env.version)))
  {
    SystemManifestsPass(env, tree, files);
    TemplatesShow(env, files);
    RenderedStay(env, tree, RunSteps(env, files, TemplateSteps(env.version)).files);
  }

  // ---------- A run that succeeds and fails the check ----------

  function SomeManifest(version: string): Json {
    Object([Member("type", Str("system")), Member("name", Str("ten_runtime")), Member("version", Str(version))])
  }

  // The system manifests have the version, and both templates are empty.
  function StaleFiles(env: Env): Files {
    (map p | p in SystemManifests :: env.dump(SomeManifest(env.version)))[MetadataTemplate := ""][TmanTemplate := ""]
  }

  const NoPackages := Tree(_ => [], [])

  lemma OnlySystemSteps(env: Env, files: Files)
    ensures ManifestSteps(env, NoPackages, files) == VersionSteps(SystemManifests, true)
  {
    assert CoreDirs[1..][1..][1..] == [];
    assert CollectAll(NoPackages, files, CoreDirs[1..][1..], ManifestName) == [];
    assert CollectAll(NoPackages, files, CoreDirs[1..], ManifestName) == [];
    assert CollectAll(NoPackages, files, CoreDirs[1..][1..], TentName) == [];
    assert CollectAll(NoPackages, files, CoreDirs[1..], TentName) == [];
    assert CoreManifests(NoPackages, files) == [] && CollectAll(NoPackages, files, CoreDirs, TentName) == [];
    assert DependencyManifests(NoPackages, files) == [];
  }

  // The templates are copied as they are.
  lemma StaleTemplatesRun(env: Env)
    requires env.render("") == ""
    ensures RunSteps(env, StaleFiles(env), TemplateSteps(env.version))
         == Outcome(StaleFiles(env)[Metadata := ""][Tman := ""], true)
  {
    TemplatePathsDiffer();
    TemplatesInTwo(env, StaleFiles(env));
    var steps := TemplateSteps(env.version);
    forall p | p in SystemManifests
      ensures IsManifest(p)
    {
    }
    assert Metadata !in StaleFiles(env) && Tman !in StaleFiles(env) by {
      assert |MetadataTemplate[4]| == 27 && |Metadata[4]| == 20 && |Tman[4]| == 10 && |TmanTemplate[4]| == 17;
    }
    assert StepOn(env, StaleFiles(env), steps[0]) == Outcome(StaleFiles(env)[Metadata := ""], true);
  }

  lemma SystemManifestIsDone(env: Env, p: Path)
    requires Faithful(env) && p in SystemManifests
    ensures Done(env, StaleFiles(env)[Metadata := ""][Tman := ""], SetVersion(p, true))
  {
    TemplatePathsDiffer();
    assert IsManifest(p) && !IsManifest(MetadataTemplate) && !IsManifest(TmanTemplate);
    var m := SomeManifest(env.version);
    var ms := m.members;
    assert ms[1..][0] == ms[1] && ms[1..][1..][0] == ms[2];
    assert |"type"| == |"name"| == 4 && |"version"| == 7;
    assert Get(ms[1..][1..], "version") == Str(env.version);
    assert Get(ms[1..], "version") == Str(env.version) && Has(ms[1..], "name");
    assert HasVersion(m, env.version) && Has(ms, "type") && Has(ms, "name");
    assert StaleFiles(env)[Metadata := ""][Tman := ""][p] == env.dump(m);
    assert env.parse(env.dump(m)) == Some(m);
  }

  // Whatever the version: with templates that do not show it the updater succeeds, and the
  // checker still reports a mismatch.
  lemma StaleTemplatesFailCheck(env: Env)
    requires Faithful(env) && env.render("") == ""
    ensures var o := Run(env, NoPackages, StaleFiles(env));
            o.ok && CheckVersions(env, o.files) == Mismatch
  {
    var files := StaleFiles(env)[Metadata := ""][Tman := ""];
    var steps := VersionSteps(SystemManifests, true);
    StaleTemplatesRun(env);
    OnlySystemSteps(env, files);
    forall step | step in steps
      ensures Done(env, files, step)
    {
      SystemManifestIsDone(env, step.path);
    }
    DoneRunIsQuiet(env, files, steps);
    TemplatePathsDiffer();
    assert MetadataMarker(env.version)[0] == 'v';
    assert !Contains("", MetadataMarker(env.version));
  }

  // ---------- What a run keeps ----------

  lemma {:induction false} RunKeepsKeys(env: Env, files: Files, steps: seq<Step>)
    requires Faithful(env) && OnManifests(steps) && RunSteps(env, files, steps).ok
    ensures RunSteps(env, files, steps).files.Keys == files.Keys
    decreases |steps|
  {
    if steps != [] {
      assert steps[0] in steps;
      StepPreserves(env, files, steps[0], PkgsOf(steps[0]));
      RunKeepsKeys(env, StepOn(env, files, steps[0]).files, steps[1..]);
    }
  }

  // The same manifests exist.
  ghost predicate SameManifests(files: Files, files': Files) {
    forall p | IsManifest(p) :: p in files <==> p in files'
  }

  lemma SameKeysSameManifests(files: Files, files': Files)
    requires files.Keys == files'.Keys
    ensures SameManifests(files, files')
  {
    forall p | IsManifest(p)
      ensures p in files <==> p in files'
    {
      assert p in files.Keys <==> p in files'.Keys;
    }
  }

  lemma {:induction false} SameCollect(files: Files, files': Files, dir: Path, subdirs: seq<string>, name: string)
    requires SameManifests(files, files') && (name == ManifestName || name == TentName)
    ensures CollectIn(files, dir, subdirs, name) == CollectIn(files', dir, subdirs, name)
  {
    if subdirs != [] {
      SameCollect(files, files', dir, subdirs[1..], name);
      assert IsManifest(dir + [subdirs[0], name]);
    }
  }

  lemma {:induction false} SameCollectAll(tree: Tree, files: Files, files': Files, dirs: seq<Path>, name: string)
    requires SameManifests(files, files') && (name == ManifestName || name == TentName)
    ensures CollectAll(tree, files, dirs, name) == CollectAll(tree, files', dirs, name)
  {
    if dirs != [] {
      SameCollect(files, files', dirs[0], tree.subdirs(dirs[0]), name);
      SameCollectAll(tree, files, files', dirs[1..], name);
    }
  }

  lemma {:induction false} SamePackages(tree: Tree, files: Files, files': Files, dirs: seq<string>)
    requires SameManifests(files, files')
    ensures PackageManifests(tree, files, dirs) == PackageManifests(tree, files', dirs)
  {
    if dirs != [] {
      var dir := ["packages", dirs[0]];
      SameCollect(files, files', dir, tree.subdirs(dir), ManifestName);
      SameCollect(files, files', dir, tree.subdirs(dir), TentName);
      SamePackages(tree, files, files', dirs[1..]);
    }
  }

  // A package is the same before and after, because type and name are never written.
  lemma SamePkg(env: Env, files: Files, files': Files, p: Path, pkgs: seq<Pkg>)
    requires Preserved(env, files, files', pkgs, {}) && p in files
    ensures PkgAt(env, files, p) == PkgAt(env, files', p)
  {
    assert SameUpToVersions(env, files[p], files'[p], pkgs);
  }

  lemma SamePkgs(env: Env, files: Files, files': Files, paths: seq<Path>, pkgs: seq<Pkg>)
    requires Preserved(env, files, files', pkgs, {}) && forall p | p in paths :: p in files
    ensures PkgsAt(env, files, paths) == PkgsAt(env, files', paths)
  {
    forall i | 0 <= i < |paths|
      ensures PkgAt(env, files, paths[i]) == PkgAt(env, files', paths[i])
    {
      SamePkg(env, files, files', paths[i], pkgs);
    }
  }

  lemma StepsStayWithin(env: Env, tree: Tree, files: Files)
    ensures PkgsWithin(ManifestSteps(env, tree, files), UpdatedPkgs(env, tree, files))
    ensures Targets(ManifestSteps(env, tree, files)) == {}
  {
    ManifestStepsAreOnManifests(env, tree, files);
  }

  // Part of a run in which every system manifest is there: its steps do not depend on when
  // they are worked out.
  lemma SameSteps(env: Env, tree: Tree, files: Files, files': Files, pkgs: seq<Pkg>)
    requires Preserved(env, files, files', pkgs, {}) && files.Keys == files'.Keys
    requires forall p | p in SystemManifests :: p in files
    ensures ManifestSteps(env, tree, files) == ManifestSteps(env, tree, files')
    ensures UpdatedPkgs(env, tree, files) == UpdatedPkgs(env, tree, files')
  {
    SameKeysSameManifests(files, files');
    SameCollectAll(tree, files, files', CoreDirs, ManifestName);
    SameCollectAll(tree, files, files', CoreDirs, TentName);
    SamePackages(tree, files, files', tree.subdirs(["packages"]));
    SameCollect(files, files', Runtime + ["binding"], tree.subdirs(Runtime + ["binding"]), ManifestName);
    AllCollectedAreManifests(tree, files, CoreDirs, ManifestName);
    SamePkgs(env, files, files', SystemManifests, pkgs);
    SamePkgs(env, files, files', CoreManifests(tree, files), pkgs);
  }

  lemma RunKeepsSteps(env: Env, tree: Tree, files: Files)
    requires Faithful(env) && RunSteps(env, files, ManifestSteps(env, tree, files)).ok
    ensures var files' := RunSteps(env, files, ManifestSteps(env, tree, files)).files;
            && ManifestSteps(env, tree, files') == ManifestSteps(env, tree, files)
            && UpdatedPkgs(env, tree, files') == UpdatedPkgs(env, tree, files)
            && Preserved(env, files, files', UpdatedPkgs(env, tree, files), {})
            && files'.Keys == files.Keys
  {
    var steps := ManifestSteps(env, tree, files);
    var files' := RunSteps(env, files, steps).files;
    ManifestStepsAreOnManifests(env, tree, files);
    TemplatesAreApart(env.version, steps);
    RunKeepsKeys(env, files, steps);
    RunAchieves(env, files, steps);
    StepsStayWithin(env, tree, files);
    RunPreserves(env, files, steps, UpdatedPkgs(env, tree, files));
    forall p | p in SystemManifests
      ensures p in files
    {
      var i :| 0 <= i < |SystemManifests| && SystemManifests[i] == p;
      assert VersionSteps(SystemManifests, true)[i] == SetVersion(p, true);
      assert SetVersion(p, true) in steps;
      assert Done(env, files', SetVersion(p, true));
      assert p in files'.Keys;
    }
    SameSteps(env, tree, files, files', UpdatedPkgs(env, tree, files));
  }

  // A second run with the same version changes no file.
  lemma SecondRunIsQuiet(env: Env, tree: Tree, files: Files)
    requires Faithful(env) && Run(env, tree, files).ok
    ensures var files' := Run(env, tree, files).files;
            Run(env, tree, files') == Outcome(files', true)
  {
    var o := RunSteps(env, files, TemplateSteps(env.version));
    var files' := Run(env, tree, files).files;
    var steps := ManifestSteps(env, tree, o.files);
    RunIsDone(env, tree, files);
    RunKeepsSteps(env, tree, o.files);
    assert forall t | t in TemplateSteps(env.version) :: t in TemplateSteps(env.version) + steps;
    assert forall t | t in steps :: t in TemplateSteps(env.version) + steps;
    DoneRunIsQuiet(env, files', TemplateSteps(env.version));
    DoneRunIsQuiet(env, files', steps);
  }

  // The manifests and all other files are what they were before, up to versions, even when
  // the run ended with an exception; only the two rendered files may differ.
  lemma RunPreservesTheRest(env: Env, tree: Tree, files: Files)
    requires Faithful(env)
    ensures var o := RunSteps(env, files, TemplateSteps(env.version));
            Preserved(env, files, Run(env, tree, files).files, UpdatedPkgs(env, tree, o.files), {Metadata, Tman})
  {
    var o := RunSteps(env, files, TemplateSteps(env.version));
    var pkgs := UpdatedPkgs(env, tree, o.files);
    var end := Run(env, tree, files).files;
    assert Targets(TemplateSteps(env.version)) == {Metadata, Tman} by {
      assert TemplateSteps(env.version)[0] in TemplateSteps(env.version);
      assert TemplateSteps(env.version)[1] in TemplateSteps(env.version);
    }
    RunPreserves(env, files, TemplateSteps(env.version), pkgs);
    if o.ok {
      StepsStayWithin(env, tree, o.files);
      RunPreserves(env, o.files, ManifestSteps(env, tree, o.files), pkgs);
      forall p | p in files && p !in {Metadata, Tman}
        ensures p in end && SameUpToVersions(env, files[p], end[p], pkgs)
      {
        SameUpToVersionsOn(env, files[p], o.files[p], end[p], pkgs);
      }
    }
  }

  // Which version every dependency has afterwards; its place and the rest of it are the same.
  predicate DependenciesAre(j: Json, j': Json, version: string, pkgs: seq<Pkg>) {
    && j.Object? && j'.Object? && Dependencies(j).Some? && Dependencies(j').Some?
    && |Dependencies(j).value| == |Dependencies(j').value|
    && forall i | 0 <= i < |Dependencies(j).value| ::
         var d, d' := Dependencies(j).value[i], Dependencies(j').value[i];
         && StripDep(d') == StripDep(d) && PkgOf(d') == PkgOf(d)
         && Get(d'.members, "version") == if PkgOf(d) in pkgs then Str(version) else Get(d.members, "version")
  }

  lemma TemplatesCreateNoManifest(env: Env, files: Files, p: Path)
    requires Faithful(env) && IsManifest(p)
    ensures p in RunSteps(env, files, TemplateSteps(env.version)).files ==> p in files
    ensures p != Metadata && p != Tman
  {
    var steps := TemplateSteps(env.version);
    TemplatesAreApart(env.version, [SetVersion(p, false)]);
    assert Apart(SetVersion(p, false), steps[0]) && Apart(SetVersion(p, false), steps[1]);
    StepPreserves(env, files, steps[0], []);
    var o := StepOn(env, files, steps[0]);
    assert steps[1..] == [steps[1]] && [steps[1]][1..] == [];
    StepPreserves(env, o.files, steps[1], []);
    var o2 := StepOn(env, o.files, steps[1]);
    assert RunSteps(env, o.files, steps[1..]) == if o2.ok then RunSteps(env, o2.files, []) else o2;
    assert RunSteps(env, files, steps) == if o.ok then RunSteps(env, o.files, steps[1..]) else o;
    assert RunSteps(env, files, steps).files == if o.ok then o2.files else o.files;
  }

  lemma FollowedToTheEnd(j: Json, j': Json, version: string, pkgs: seq<Pkg>)
    requires Follows(j, j', version, pkgs) && DepsHaveVersion(j', version, pkgs)
    ensures DependenciesAre(j, j', version, pkgs)
  {
    forall i | 0 <= i < |Dependencies(j).value|
      ensures var d, d' := Dependencies(j).value[i], Dependencies(j').value[i];
              && StripDep(d') == StripDep(d) && PkgOf(d') == PkgOf(d)
              && Get(d'.members, "version") == if PkgOf(d) in pkgs then Str(version) else Get(d.members, "version")
    {
      assert DepFollows(Dependencies(j).value[i], Dependencies(j').value[i], version, pkgs);
    }
  }

  lemma VisitIsAStep(env: Env, tree: Tree, files: Files, p: Path)
    requires p in DependencyManifests(tree, files)
    ensures SetDependencies(p, UpdatedPkgs(env, tree, files)) in ManifestSteps(env, tree, files) && IsManifest(p)
  {
    var paths, pkgs := DependencyManifests(tree, files), UpdatedPkgs(env, tree, files);
    var i :| 0 <= i < |paths| && paths[i] == p;
    assert DependencySteps(paths, pkgs)[i] == SetDependencies(p, pkgs);
    ManifestStepsAreOnManifests(env, tree, files);
    assert IsManifest(SetDependencies(p, pkgs).path);
  }

  lemma StepIsDone(env: Env, tree: Tree, files: Files, step: Step)
    requires Faithful(env) && Run(env, tree, files).ok
    requires step in ManifestSteps(env, tree, Run(env, tree, files).files)
    ensures Done(env, Run(env, tree, files).files, step)
  {
    var o := RunSteps(env, files, TemplateSteps(env.version));
    RunIsDone(env, tree, files);
    RunKeepsSteps(env, tree, o.files);
    assert step in TemplateSteps(env.version) + ManifestSteps(env, tree, o.files);
  }

  lemma SamePkgsInTheEnd(env: Env, tree: Tree, files: Files)
    requires Faithful(env) && Run(env, tree, files).ok
    ensures var o := RunSteps(env, files, TemplateSteps(env.version));
            var files' := Run(env, tree, files).files;
            UpdatedPkgs(env, tree, files') == UpdatedPkgs(env, tree, o.files) && files'.Keys == o.files.Keys
  {
    RunKeepsSteps(env, tree, RunSteps(env, files, TemplateSteps(env.version)).files);
  }

  // In every manifest the run visits for its dependencies, a dependency ends with the version
  // if it is an updated package, and with the version it had otherwise.
  lemma VisitedEndRight(env: Env, tree: Tree, files: Files, p: Path)
    requires Faithful(env) && Run(env, tree, files).ok
    requires p in DependencyManifests(tree, Run(env, tree, files).files)
    ensures var files' := Run(env, tree, files).files;
            && Load(env, files, p).Some? && Load(env, files', p).Some?
            && DependenciesAre(Load(env, files, p).value, Load(env, files', p).value, env.version, UpdatedPkgs(env, tree, files'))
  {
    var files' := Run(env, tree, files).files;
    var pkgs := UpdatedPkgs(env, tree, files');
    var o := RunSteps(env, files, TemplateSteps(env.version));
    VisitIsAStep(env, tree, files', p);
    StepIsDone(env, tree, files, SetDependencies(p, pkgs));
    SamePkgsInTheEnd(env, tree, files);
    assert p in files'.Keys;
    RunPreservesTheRest(env, tree, files);
    TemplatesCreateNoManifest(env, files, p);
    assert SameUpToVersions(env, files[p], files'[p], pkgs);
    FollowsItself(Load(env, files', p).value, env.version, pkgs);
    FollowedToTheEnd(Load(env, files, p).value, Load(env, files', p).value, env.version, pkgs);
  }
}
