/**
  The scripts as code that rewrites the files step by step, and reads them for the check; each
  method is proved to do what VersionRuns.dfy and VersionScripts.dfy say.
 */
module VersionCode {
  import opened Manifests
  import opened VersionRuns
  import opened VersionScripts

  lemma {:induction false} RunInTwo(env: Env, files: Files, a: seq<Step>, b: seq<Step>)
    ensures var o := RunSteps(env, files, a);
            RunSteps(env, files, a + b) == if o.ok then RunSteps(env, o.files, b) else o
    decreases |a|
  {
    if a == [] {
      assert a + b == b;
    } else {
      assert (a + b)[0] == a[0] && (a + b)[1..] == a[1..] + b;
      RunInTwo(env, StepOn(env, files, a[0]).files, a[1..], b);
    }
  }

  lemma {:induction false} CollectInAppend(files: Files, dir: Path, subdirs: seq<string>, last: string, name: string)
    ensures CollectIn(files, dir, subdirs + [last], name)
         == CollectIn(files, dir, subdirs, name) + (if dir + [last, name] in files then [dir + [last, name]] else [])
  {
    if subdirs == [] {
      assert subdirs + [last] == [last];
    } else {
      assert (subdirs + [last])[0] == subdirs[0] && (subdirs + [last])[1..] == subdirs[1..] + [last];
      CollectInAppend(files, dir, subdirs[1..], last, name);
    }
  }

  lemma PreservedOn(env: Env, a: Files, b: Files, c: Files)
    requires Preserved(env, a, b, [], {}) && Preserved(env, b, c, [], {})
    ensures Preserved(env, a, c, [], {})
  {
    forall p | p in a
      ensures p in c && SameUpToVersions(env, a[p], c[p], [])
    {
      SameUpToVersionsOn(env, a[p], b[p], c[p], []);
    }
  }

  lemma PkgStays(env: Env, files: Files, files': Files, path: Path)
    requires Preserved(env, files, files', [], {}) && files.Keys == files'.Keys
    ensures PkgAt(env, files, path) == PkgAt(env, files', path)
  {
    if path in files {
      SamePkgs(env, files, files', [path], []);
      assert PkgsAt(env, files, [path])[0] == PkgsAt(env, files', [path])[0];
    } else {
      assert path !in files.Keys && path !in files'.Keys;
    }
  }

  lemma PkgsAtAppend(env: Env, files: Files, paths: seq<Path>, i: nat)
    requires i < |paths|
    ensures PkgsAt(env, files, paths[..i + 1]) == PkgsAt(env, files, paths[..i]) + [PkgAt(env, files, paths[i])]
  {
  }

  // The part of a run that is about the core packages.
  function CoreSteps(env: Env, tree: Tree, files: Files): seq<Step> {
    VersionSteps(CoreManifests(tree, files), true)
    + VersionSteps(CollectAll(tree, files, CoreDirs, TentName), false)
    + TestSteps(Named(tree.testFiles, ManifestName), PkgsAt(env, files, CoreManifests(tree, files)))
  }

  // A run goes through its phases one after the other.
  lemma RunPhases(env: Env, tree: Tree, files: Files)
    ensures var system := RunSteps(env, files, VersionSteps(SystemManifests, true));
            var core := RunSteps(env, system.files, CoreSteps(env, tree, files));
            RunSteps(env, files, ManifestSteps(env, tree, files))
            == if !system.ok then system
               else if !core.ok then core
               else RunSteps(env, core.files, DependencySteps(DependencyManifests(tree, files), UpdatedPkgs(env, tree, files)))
  {
    var a, b := VersionSteps(SystemManifests, true), CoreSteps(env, tree, files);
    var c := DependencySteps(DependencyManifests(tree, files), UpdatedPkgs(env, tree, files));
    assert ManifestSteps(env, tree, files) == a + (b + c);
    RunInTwo(env, files, a, b + c);
    RunInTwo(env, RunSteps(env, files, a).files, b, c);
  }

  lemma CoreStepsStay(env: Env, tree: Tree, files: Files, files': Files)
    requires Preserved(env, files, files', [], {}) && files.Keys == files'.Keys
    ensures CoreSteps(env, tree, files) == CoreSteps(env, tree, files')
    ensures PkgsAt(env, files, CoreManifests(tree, files)) == PkgsAt(env, files', CoreManifests(tree, files'))
  {
    SameKeysSameManifests(files, files');
    SameCollectAll(tree, files, files', CoreDirs, ManifestName);
    SameCollectAll(tree, files, files', CoreDirs, TentName);
    AllCollectedAreManifests(tree, files, CoreDirs, ManifestName);
    SamePkgs(env, files, files', CoreManifests(tree, files), []);
  }

  lemma CoreKeepsKeys(env: Env, tree: Tree, files: Files)
    requires Faithful(env) && RunSteps(env, files, CoreSteps(env, tree, files)).ok
    ensures RunSteps(env, files, CoreSteps(env, tree, files)).files.Keys == files.Keys
  {
    ManifestStepsAreOnManifests(env, tree, files);
    forall step | step in CoreSteps(env, tree, files)
      ensures !step.FromTemplate? && IsManifest(step.path)
    {
      assert step in ManifestSteps(env, tree, files);
    }
    RunKeepsKeys(env, files, CoreSteps(env, tree, files));
  }

  lemma DependencyManifestsStay(tree: Tree, files: Files, files': Files)
    requires files.Keys == files'.Keys
    ensures DependencyManifests(tree, files) == DependencyManifests(tree, files')
  {
    SameKeysSameManifests(files, files');
    SamePackages(tree, files, files', tree.subdirs(["packages"]));
    SameCollect(files, files', Runtime + ["binding"], tree.subdirs(Runtime + ["binding"]), ManifestName);
  }

  class Repository {
    const env: Env
    const tree: Tree
    var files: Files

    constructor (env: Env, tree: Tree, files: Files)
      ensures this.env == env && this.tree == tree && this.files == files
    {
      this.env, this.tree, this.files := env, tree, files;
    }

    // ---------- common.py ----------

    // touch() and json.load(); ok is false where an exception is raised
    method LoadManifest(path: Path) returns (ok: bool, data: Json)
      requires Faithful(env)
      modifies this
      ensures ok <==> Load(env, old(files), path).Some?
      ensures ok ==> data == Load(env, old(files), path).value
      ensures files == if path in old(files) then old(files) else old(files)[path := ""]
    {
      if path !in files {
        files := files[path := ""];
      }
      var j := env.parse(files[path]);
      ok := j.Some?;
      data := if ok then j.value else Null;
    }

    method UpdateVersionInManifestJsonFile(path: Path) returns (ok: bool)
      requires Faithful(env)
      modifies this
      ensures Outcome(files, ok) == StepOn(env, old(files), SetVersion(path, false))
    {
      var loaded, data := LoadManifest(path);
      if !loaded || !data.Object? {
        return false;
      }
      VersionIsSet(data, env.version);
      if Get(data.members, "version") != Str(env.version) {
        data := Object(Set(data.members, "version", Str(env.version)));
        files := files[path := env.dump(data)];
      }
      return true;
    }

    method GetPkgInfoFromManifestFile(path: Path) returns (ok: bool, pkg: Pkg)
      ensures ok <==> Identified(Load(env, files, path))
      ensures ok ==> pkg == PkgAt(env, files, path)
    {
      ok, pkg := false, Pkg(Null, Null);
      if path in files {
        var j := env.parse(files[path]);
        if j.Some? && j.value.Object? && Has(j.value.members, "type") && Has(j.value.members, "name") {
          ok, pkg := true, Pkg(Get(j.value.members, "type"), Get(j.value.members, "name"));
        }
      }
    }

    method UpdateVersionInManifestJsonFileForPkgs(path: Path, pkgInfos: seq<Pkg>) returns (ok: bool)
      requires Faithful(env)
      modifies this
      ensures Outcome(files, ok) == StepOn(env, old(files), SetVersionIfIn(path, pkgInfos))
    {
      var loaded, data := LoadManifest(path);
      if !loaded || !data.Object? {
        return false;
      }
      VersionIsSet(data, env.version);
      if PkgOf(data) in pkgInfos && Get(data.members, "version") != Str(env.version) {
        data := Object(Set(data.members, "version", Str(env.version)));
        files := files[path := env.dump(data)];
      }
      return true;
    }

    // The loop over the dependencies, with its `updated` flag.
    method SetDependencyVersions(data: Json, items: seq<Json>, pkgs: seq<Pkg>)
      returns (ok: bool, items': seq<Json>, updated: bool)
      ensures ok <==> forall i | 0 <= i < |items| :: items[i].Object?
      ensures ok ==> items' == DepsWithVersion(items, env.version, pkgs) && (updated <==> items' != items)
    {
      ok, items', updated := true, items, false;
      for i := 0 to |items|
        invariant |items'| == |items| && forall k | 0 <= k < i :: items[k].Object?
        invariant forall k | 0 <= k < i :: items'[k] == DepWithVersion(items[k], env.version, pkgs)
        invariant forall k | i <= k < |items| :: items'[k] == items[k]
        invariant updated <==> exists k | 0 <= k < i :: items'[k] != items[k]
      {
        var dependency := items[i];
        if !dependency.Object? {
          ok := false;
          return;
        }
        VersionIsSet(dependency, env.version);
        ghost var before := items';
        if PkgOf(dependency) in pkgs && Get(dependency.members, "version") != Str(env.version) {
          items' := items'[i := Object(Set(dependency.members, "version", Str(env.version)))];
          updated := true;
          assert items'[i] != items[i];
        }
        assert forall k | 0 <= k < i :: items'[k] == before[k];
      }
    }

    method UpdateDependencyVersionInManifestJsonFile(path: Path, pkgs: seq<Pkg>) returns (ok: bool)
      requires Faithful(env)
      modifies this
      ensures Outcome(files, ok) == StepOn(env, old(files), SetDependencies(path, pkgs))
    {
      var loaded, data := LoadManifest(path);
      if !loaded || !data.Object? {
        return false;
      }
      var items := [];
      if Has(data.members, "dependencies") {
        var dependencies := Get(data.members, "dependencies");
        if dependencies.Array? {
          items := dependencies.items;
        } else if dependencies != Str("") && dependencies != Object([]) {
          return false;
        }
      }
      var done, items', updated := SetDependencyVersions(data, items, pkgs);
      if !done {
        return false;
      }
      if items != [] {
        GetAfterSet(data.members, "dependencies", Array(items'), "dependencies");
        SetSame(data.members, "dependencies");
      }
      if updated {
        files := files[path := env.dump(Object(Set(data.members, "dependencies", Array(items'))))];
      }
      return true;
    }

    // The preserved metadata and the version of tman, which differ in paths and marker only.
    method UpdateVersionFromTemplate(path: Path, template: Path, marker: string) returns (ok: bool)
      modifies this
      ensures Outcome(files, ok) == StepOn(env, old(files), FromTemplate(path, template, marker))
    {
      var updateNeeded := true;
      if path in files {
        updateNeeded := !Contains(files[path], marker);
      }
      if updateNeeded {
        if template !in files {
          return false;
        }
        files := files[path := env.render(files[template])];
      }
      return true;
    }

    // ---------- update_version_in_ten_framework.py ----------

    method CollectManifestFiles(directory: Path, name: string) returns (manifests: seq<Path>)
      ensures manifests == Collect(tree, files, directory, name)
    {
      manifests := [];
      var dirs := tree.subdirs(directory);
      for i := 0 to |dirs|
        invariant manifests == CollectIn(files, directory, dirs[..i], name)
      {
        assert dirs[..i + 1] == dirs[..i] + [dirs[i]];
        CollectInAppend(files, directory, dirs[..i], dirs[i], name);
        if directory + [dirs[i], name] in files {
          manifests := manifests + [directory + [dirs[i], name]];
        }
      }
      assert dirs[..|dirs|] == dirs;
    }

    method UpdateAndCollectOne(manifest: Path) returns (ok: bool, pkg: Pkg)
      requires Faithful(env)
      modifies this
      ensures Outcome(files, ok) == StepOn(env, old(files), SetVersion(manifest, true))
      ensures ok ==> pkg == PkgAt(env, old(files), manifest) && manifest in files && files.Keys == old(files.Keys)
      ensures ok ==> Preserved(env, old(files), files, [], {})
    {
      ManifestStepPreserves(env, files, SetVersion(manifest, false));
      CollectingStep(env, files, manifest);
      pkg := Pkg(Null, Null);
      ok := UpdateVersionInManifestJsonFile(manifest);
      if ok {
        ok, pkg := GetPkgInfoFromManifestFile(manifest);
        SamePkg(env, old(files), files, manifest, []);
      }
    }

    // Sets the versions, and collects the packages, of manifest after manifest.
    method UpdateAndCollect(manifests: seq<Path>) returns (ok: bool, pkgInfos: seq<Pkg>)
      requires Faithful(env)
      modifies this
      ensures Outcome(files, ok) == RunSteps(env, old(files), VersionSteps(manifests, true))
      ensures ok ==> pkgInfos == PkgsAt(env, old(files), manifests) && files.Keys == old(files.Keys)
      ensures ok ==> Preserved(env, old(files), files, [], {})
    {
      ok, pkgInfos := true, [];
      ghost var steps := VersionSteps(manifests, true);
      for i := 0 to |manifests|
        invariant ok && RunSteps(env, files, steps[i..]) == RunSteps(env, old(files), steps)
        invariant pkgInfos == PkgsAt(env, old(files), manifests[..i])
        invariant files.Keys == old(files.Keys) && Preserved(env, old(files), files, [], {})
      {
        ghost var before := files;
        assert steps[i..][0] == SetVersion(manifests[i], true) && steps[i..][1..] == steps[i + 1..];
        var done, pkg := UpdateAndCollectOne(manifests[i]);
        if !done {
          ok := false;
          return;
        }
        PreservedOn(env, old(files), before, files);
        PkgStays(env, old(files), before, manifests[i]);
        PkgsAtAppend(env, old(files), manifests, i);
        pkgInfos := pkgInfos + [pkg];
      }
      assert manifests[..|manifests|] == manifests;
    }

    method UpdateTemplates(manifests: seq<Path>) returns (ok: bool)
      requires Faithful(env)
      modifies this
      ensures Outcome(files, ok) == RunSteps(env, old(files), VersionSteps(manifests, false))
    {
      ghost var steps := VersionSteps(manifests, false);
      for i := 0 to |manifests|
        invariant RunSteps(env, files, steps[i..]) == RunSteps(env, old(files), steps)
      {
        assert steps[i..][0] == SetVersion(manifests[i], false) && steps[i..][1..] == steps[i + 1..];
        ok := UpdateVersionInManifestJsonFile(manifests[i]);
        if !ok {
          return;
        }
      }
      return true;
    }

    method UpdateManifestsInTests(pkgInfos: seq<Pkg>) returns (ok: bool)
      requires Faithful(env)
      modifies this
      ensures Outcome(files, ok) == RunSteps(env, old(files), TestSteps(Named(tree.testFiles, ManifestName), pkgInfos))
    {
      var manifests := Named(tree.testFiles, ManifestName);
      ghost var steps := TestSteps(manifests, pkgInfos);
      for i := 0 to |manifests|
        invariant RunSteps(env, files, steps[i..]) == RunSteps(env, old(files), steps)
      {
        assert steps[i..][0] == SetVersionIfIn(manifests[i], pkgInfos) && steps[i..][1..] == steps[i + 1..];
        ok := UpdateVersionInManifestJsonFileForPkgs(manifests[i], pkgInfos);
        if !ok {
          return;
        }
      }
      return true;
    }

    method UpdateDependencies(manifests: seq<Path>, dependencies: seq<Pkg>) returns (ok: bool)
      requires Faithful(env)
      modifies this
      ensures Outcome(files, ok) == RunSteps(env, old(files), DependencySteps(manifests, dependencies))
    {
      ghost var steps := DependencySteps(manifests, dependencies);
      for i := 0 to |manifests|
        invariant RunSteps(env, files, steps[i..]) == RunSteps(env, old(files), steps)
      {
        assert steps[i..][0] == SetDependencies(manifests[i], dependencies) && steps[i..][1..] == steps[i + 1..];
        ok := UpdateDependencyVersionInManifestJsonFile(manifests[i], dependencies);
        if !ok {
          return;
        }
      }
      return true;
    }

    method CollectFromAll(directories: seq<Path>, name: string) returns (manifests: seq<Path>)
      ensures manifests == CollectAll(tree, files, directories, name)
    {
      manifests := [];
      for i := 0 to |directories|
        invariant manifests + CollectAll(tree, files, directories[i..], name) == CollectAll(tree, files, directories, name)
      {
        assert directories[i..][0] == directories[i] && directories[i..][1..] == directories[i + 1..];
        var some := CollectManifestFiles(directories[i], name);
        assert manifests + (some + CollectAll(tree, files, directories[i + 1..], name))
            == (manifests + some) + CollectAll(tree, files, directories[i + 1..], name);
        manifests := manifests + some;
      }
      assert CollectAll(tree, files, directories[|directories|..], name) == [];
    }

    method CollectAndUpdateVersionOfSystemPackages() returns (ok: bool, pkgInfos: seq<Pkg>)
      requires Faithful(env)
      modifies this
      ensures Outcome(files, ok) == RunSteps(env, old(files), VersionSteps(SystemManifests, true))
      ensures ok ==> pkgInfos == PkgsAt(env, old(files), SystemManifests) && files.Keys == old(files.Keys)
      ensures ok ==> Preserved(env, old(files), files, [], {})
    {
      ok, pkgInfos := UpdateAndCollect(SystemManifests);
    }

    method CollectAndUpdateVersionOfCorePackages() returns (ok: bool, pkgInfos: seq<Pkg>)
      requires Faithful(env)
      modifies this
      ensures Outcome(files, ok) == RunSteps(env, old(files), CoreSteps(env, tree, old(files)))
      ensures ok ==> pkgInfos == PkgsAt(env, old(files), CoreManifests(tree, old(files)))
    {
      var manifests := CollectFromAll(CoreDirs, ManifestName);
      var templates := CollectFromAll(CoreDirs, TentName);
      ghost var a, b := VersionSteps(manifests, true), VersionSteps(templates, false);
      ghost var c := TestSteps(Named(tree.testFiles, ManifestName), PkgsAt(env, files, manifests));
      RunInTwo(env, files, a + b, c);
      RunInTwo(env, files, a, b);
      ok, pkgInfos := UpdateAndCollect(manifests);
      if ok {
        ok := UpdateTemplates(templates);
      }
      if ok {
        ok := UpdateManifestsInTests(pkgInfos);
      }
    }

    method CollectFromPackages() returns (manifests: seq<Path>)
      ensures manifests == PackageManifests(tree, files, tree.subdirs(["packages"]))
    {
      var dirs := tree.subdirs(["packages"]);
      manifests := [];
      for i := 0 to |dirs|
        invariant manifests + PackageManifests(tree, files, dirs[i..]) == PackageManifests(tree, files, dirs)
      {
        assert dirs[i..][0] == dirs[i] && dirs[i..][1..] == dirs[i + 1..];
        var some := CollectManifestFiles(["packages", dirs[i]], ManifestName);
        var more := CollectManifestFiles(["packages", dirs[i]], TentName);
        assert manifests + (some + more + PackageManifests(tree, files, dirs[i + 1..]))
            == (manifests + some + more) + PackageManifests(tree, files, dirs[i + 1..]);
        manifests := manifests + some + more;
      }
      assert dirs[|dirs|..] == [];
    }

    method UpdateDependenciesVersion(dependencies: seq<Pkg>) returns (ok: bool)
      requires Faithful(env)
      modifies this
      ensures Outcome(files, ok) == RunSteps(env, old(files), DependencySteps(DependencyManifests(tree, old(files)), dependencies))
    {
      var system := CollectManifestFiles(Runtime + ["binding"], ManifestName);
      var packages := CollectFromPackages();
      var manifests := system + packages + Without(Named(tree.testFiles, ManifestName), Blacklisted);
      ok := UpdateDependencies(manifests, dependencies);
    }

    method UpdateVersions() returns (ok: bool)
      requires Faithful(env)
      modifies this
      ensures Outcome(files, ok) == Run(env, tree, old(files))
    {
      ghost var files0 := files;
      ok := UpdateVersionFromTemplate(Metadata, MetadataTemplate, MetadataMarker(env.version));
      if ok {
        ok := UpdateVersionFromTemplate(Tman, TmanTemplate, TmanMarker(env.version));
      }
      assert Outcome(files, ok) == RunSteps(env, files0, TemplateSteps(env.version)) by {
        TemplatesInTwo(env, files0);
      }
      if !ok {
        return;
      }
      ghost var start := files;
      var systemPkgs, corePkgs;
      ok, systemPkgs := CollectAndUpdateVersionOfSystemPackages();
      ghost var afterSystem := files;
      RunPhases(env, tree, start);
      if !ok {
        return;
      }
      CoreStepsStay(env, tree, start, afterSystem);
      ok, corePkgs := CollectAndUpdateVersionOfCorePackages();
      if !ok {
        return;
      }
      CoreKeepsKeys(env, tree, afterSystem);
      DependencyManifestsStay(tree, start, files);
      ok := UpdateDependenciesVersion(systemPkgs + corePkgs);
    }

    // ---------- check_version_in_ten_framework.py ----------

    method CheckVersionOfSystemPackages() returns (verdict: Verdict)
      ensures verdict == CheckManifests(env, files, SystemManifests)
    {
      var manifests := SystemManifests;
      for i := 0 to |manifests|
        invariant CheckManifests(env, files, manifests[i..]) == CheckManifests(env, files, manifests)
      {
        assert manifests[i..][0] == manifests[i] && manifests[i..][1..] == manifests[i + 1..];
        if manifests[i] !in files {
          return Mismatch;
        }
        var data := env.parse(files[manifests[i]]);
        if data.None? || !data.value.Object? {
          return Crash;
        }
        if Get(data.value.members, "version") != Str(env.version) {
          return Mismatch;
        }
      }
      return Match;
    }

    method CheckVariousVersions() returns (verdict: Verdict)
      ensures verdict == CheckVersions(env, files)
    {
      if !CheckRendered(files, Metadata, MetadataMarker(env.version)) {
        return Mismatch;
      }
      if !CheckRendered(files, Tman, TmanMarker(env.version)) {
        return Mismatch;
      }
      verdict := CheckVersionOfSystemPackages();
    }
  }
}
