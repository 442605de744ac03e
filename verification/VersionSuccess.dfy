/**
  When a run of the updater succeeds, told from the files before it.
 */
module VersionSuccess {
  import opened Manifests
  import opened VersionRuns
  import opened VersionScripts

  predicate Readable(env: Env, files: Files, p: Path) {
    Load(env, files, p).Some? && Load(env, files, p).value.Object?
  }

  // What a single step needs.
  predicate Ready(env: Env, files: Files, step: Step) {
    match step
    case FromTemplate(path, template, marker) => CheckRendered(files, path, marker) || template in files
    case SetVersion(path, collect) => Readable(env, files, path) && (collect ==> Identified(Load(env, files, path)))
    case SetVersionIfIn(path, _) => Readable(env, files, path)
    case SetDependencies(path, _) => Readable(env, files, path) && Dependencies(Load(env, files, path).value).Some?
  }

  lemma StepSucceedsIff(env: Env, files: Files, step: Step)
    requires Faithful(env)
    ensures StepOn(env, files, step).ok <==> Ready(env, files, step)
  {
    if !step.FromTemplate? && Load(env, files, step.path).Some? {
      var j := Load(env, files, step.path).value;
      if Edited(env, step, j).Some? {
        EditFollows(env, step, j, PkgsOf(step));
      }
    }
  }

  lemma FollowingStaysReady(env: Env, files: Files, files': Files, b: Step, pkgs: seq<Pkg>)
    requires !b.FromTemplate? && (b.path in files <==> b.path in files')
    requires b.path in files ==> SameUpToVersions(env, files[b.path], files'[b.path], pkgs)
    ensures Ready(env, files, b) <==> Ready(env, files', b)
  {
  }

  // A manifest step leaves the others as ready as they were.
  lemma ReadyStays(env: Env, files: Files, a: Step, b: Step)
    requires Faithful(env) && !a.FromTemplate? && !b.FromTemplate? && StepOn(env, files, a).ok
    ensures Ready(env, files, b) <==> Ready(env, StepOn(env, files, a).files, b)
  {
    var files' := StepOn(env, files, a).files;
    StepPreserves(env, files, a, PkgsOf(a));
    assert Targets([a]) == {};
    assert b.path in files.Keys <==> b.path in files'.Keys;
    FollowingStaysReady(env, files, files', b, PkgsOf(a));
  }

  lemma {:induction false} StepsSucceedIff(env: Env, files: Files, steps: seq<Step>)
    requires Faithful(env) && forall step | step in steps :: !step.FromTemplate?
    ensures RunSteps(env, files, steps).ok <==> forall step | step in steps :: Ready(env, files, step)
    decreases |steps|
  {
    if steps != [] {
      var a, rest := steps[0], steps[1..];
      var o := StepOn(env, files, a);
      assert a in steps && steps == [a] + rest;
      StepSucceedsIff(env, files, a);
      if o.ok {
        StepsSucceedIff(env, o.files, rest);
        forall b | b in rest
          ensures Ready(env, files, b) <==> Ready(env, o.files, b)
        {
          ReadyStays(env, files, a, b);
        }
      }
    }
  }

  // ---------- The whole run ----------

  // What the updater needs to find: a version or a template for the two rendered files, a
  // type and a name in every manifest of a system or core package, and in every manifest it
  // visits an object, whose dependencies a loop can go through.
  predicate CanRun(env: Env, tree: Tree, files: Files) {
    && (CheckRendered(files, Metadata, MetadataMarker(env.version)) || MetadataTemplate in files)
    && (CheckRendered(files, Tman, TmanMarker(env.version)) || TmanTemplate in files)
    && CanEdit(env, tree, files)
  }

  predicate CanEdit(env: Env, tree: Tree, files: Files) {
    && AllIdentified(env, files, SystemManifests) && AllIdentified(env, files, CoreManifests(tree, files))
    && AllReadable(env, files, CollectAll(tree, files, CoreDirs, TentName))
    && AllReadable(env, files, Named(tree.testFiles, ManifestName))
    && AllHaveDependencies(env, files, DependencyManifests(tree, files))
  }

  predicate AllIdentified(env: Env, files: Files, paths: seq<Path>) {
    forall p | p in paths :: Identified(Load(env, files, p))
  }

  predicate AllReadable(env: Env, files: Files, paths: seq<Path>) {
    forall p | p in paths :: Readable(env, files, p)
  }

  predicate AllHaveDependencies(env: Env, files: Files, paths: seq<Path>) {
    forall p | p in paths :: Readable(env, files, p) && Dependencies(Load(env, files, p).value).Some?
  }

  predicate AllReady(env: Env, files: Files, steps: seq<Step>) {
    forall step | step in steps :: Ready(env, files, step)
  }

  lemma VersionStepsReady(env: Env, files: Files, paths: seq<Path>, collect: bool)
    ensures AllReady(env, files, VersionSteps(paths, collect))
            <==> forall p | p in paths :: Readable(env, files, p) && (collect ==> Identified(Load(env, files, p)))
  {
    forall i | 0 <= i < |paths|
      ensures VersionSteps(paths, collect)[i] == SetVersion(paths[i], collect)
      ensures VersionSteps(paths, collect)[i] in VersionSteps(paths, collect)
    {
    }
  }

  lemma TestStepsReady(env: Env, files: Files, paths: seq<Path>, pkgs: seq<Pkg>)
    ensures AllReady(env, files, TestSteps(paths, pkgs)) <==> forall p | p in paths :: Readable(env, files, p)
  {
    forall i | 0 <= i < |paths|
      ensures TestSteps(paths, pkgs)[i] == SetVersionIfIn(paths[i], pkgs)
      ensures TestSteps(paths, pkgs)[i] in TestSteps(paths, pkgs)
    {
    }
  }

  lemma DependencyStepsReady(env: Env, files: Files, paths: seq<Path>, pkgs: seq<Pkg>)
    ensures AllReady(env, files, DependencySteps(paths, pkgs))
            <==> forall p | p in paths :: Readable(env, files, p) && Dependencies(Load(env, files, p).value).Some?
  {
    forall i | 0 <= i < |paths|
      ensures DependencySteps(paths, pkgs)[i] == SetDependencies(paths[i], pkgs)
      ensures DependencySteps(paths, pkgs)[i] in DependencySteps(paths, pkgs)
    {
    }
  }

  lemma ReadyInTwo(env: Env, files: Files, a: seq<Step>, b: seq<Step>)
    ensures AllReady(env, files, a + b) <==> AllReady(env, files, a) && AllReady(env, files, b)
  {
    assert forall step :: step in a + b <==> step in a || step in b;
  }

  lemma CanEditIsReady(env: Env, tree: Tree, files: Files)
    ensures CanEdit(env, tree, files) <==> AllReady(env, files, ManifestSteps(env, tree, files))
  {
    var core, tent := CoreManifests(tree, files), CollectAll(tree, files, CoreDirs, TentName);
    var tests, deps := Named(tree.testFiles, ManifestName), DependencyManifests(tree, files);
    var corePkgs, pkgs := PkgsAt(env, files, core), UpdatedPkgs(env, tree, files);
    var a, b, c := VersionSteps(SystemManifests, true), VersionSteps(core, true), VersionSteps(tent, false);
    var d, e := TestSteps(tests, corePkgs), DependencySteps(deps, pkgs);
    ReadyInTwo(env, files, a + b + c + d, e);
    ReadyInTwo(env, files, a + b + c, d);
    ReadyInTwo(env, files, a + b, c);
    ReadyInTwo(env, files, a, b);
    VersionStepsReady(env, files, SystemManifests, true);
    VersionStepsReady(env, files, core, true);
    VersionStepsReady(env, files, tent, false);
    TestStepsReady(env, files, tests, corePkgs);
    DependencyStepsReady(env, files, deps, pkgs);
  }

  // ---------- The template steps do not matter to the others ----------

  // The same manifests exist and have the same text.
  ghost predicate SameTexts(files: Files, files': Files) {
    && SameManifests(files, files')
    && forall p | IsManifest(p) && p in files :: files'[p] == files[p]
  }

  lemma TemplatesKeepManifests(env: Env, files: Files)
    requires Faithful(env)
    ensures SameTexts(files, RunSteps(env, files, TemplateSteps(env.version)).files)
  {
    var end := RunSteps(env, files, TemplateSteps(env.version)).files;
    TemplatePathsDiffer();
    forall p | IsManifest(p)
      ensures (p in files <==> p in end) && (p in files ==> end[p] == files[p])
    {
      RunLeavesAlone(env, files, TemplateSteps(env.version), p);
    }
  }

  lemma SameDependencyManifests(tree: Tree, files: Files, files': Files)
    requires SameManifests(files, files')
    ensures DependencyManifests(tree, files) == DependencyManifests(tree, files')
  {
    SamePackages(tree, files, files', tree.subdirs(["packages"]));
    SameCollect(files, files', Runtime + ["binding"], tree.subdirs(Runtime + ["binding"]), ManifestName);
  }

  lemma SameTextsSameLoads(env: Env, files: Files, files': Files, paths: seq<Path>)
    requires SameTexts(files, files') && AllManifests(paths)
    ensures AllIdentified(env, files, paths) <==> AllIdentified(env, files', paths)
    ensures AllReadable(env, files, paths) <==> AllReadable(env, files', paths)
    ensures AllHaveDependencies(env, files, paths) <==> AllHaveDependencies(env, files', paths)
  {
    assert forall p | p in paths :: Load(env, files, p) == Load(env, files', p);
  }

  lemma SameTextsCanEdit(env: Env, tree: Tree, files: Files, files': Files)
    requires SameTexts(files, files')
    ensures CanEdit(env, tree, files) <==> CanEdit(env, tree, files')
  {
    SameCollectAll(tree, files, files', CoreDirs, ManifestName);
    SameCollectAll(tree, files, files', CoreDirs, TentName);
    SameDependencyManifests(tree, files, files');
    VisitedAreManifests(tree, files);
    SameTextsSameLoads(env, files, files', SystemManifests);
    SameTextsSameLoads(env, files, files', CoreManifests(tree, files));
    SameTextsSameLoads(env, files, files', CollectAll(tree, files, CoreDirs, TentName));
    SameTextsSameLoads(env, files, files', Named(tree.testFiles, ManifestName));
    SameTextsSameLoads(env, files, files', DependencyManifests(tree, files));
  }

  lemma TemplatesSucceedIff(env: Env, files: Files)
    requires Faithful(env)
    ensures RunSteps(env, files, TemplateSteps(env.version)).ok
            <==> && (CheckRendered(files, Metadata, MetadataMarker(env.version)) || MetadataTemplate in files)
                 && (CheckRendered(files, Tman, TmanMarker(env.version)) || TmanTemplate in files)
  {
    var steps := TemplateSteps(env.version);
    TemplatesInTwo(env, files);
    TemplatePathsDiffer();
    StepPreserves(env, files, steps[0], []);
  }

  // The updater succeeds if and only if it finds what it needs.
  lemma RunSucceedsIff(env: Env, tree: Tree, files: Files)
    requires Faithful(env)
    ensures Run(env, tree, files).ok <==> CanRun(env, tree, files)
  {
    var o := RunSteps(env, files, TemplateSteps(env.version));
    TemplatesSucceedIff(env, files);
    if o.ok {
      TemplatesKeepManifests(env, files);
      SameTextsCanEdit(env, tree, files, o.files);
      CanEditIsReady(env, tree, o.files);
      ManifestStepsAreOnManifests(env, tree, o.files);
      StepsSucceedIff(env, o.files, ManifestSteps(env, tree, o.files));
    }
  }
}
