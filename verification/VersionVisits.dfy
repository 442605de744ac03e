/**
  Which files the updater visits, and what it leaves in them, said with the paths of the
  repository and the fields of the manifests.
 */
module VersionVisits {
  import opened Manifests
  import opened VersionRuns
  import opened VersionScripts
  import opened VersionSuccess

  // ---------- The files ----------

  predicate IsSystem(p: Path) {
    || p == ["core", "src", "ten_runtime", "manifest.json"]
    || p == ["core", "src", "ten_runtime", "binding", "go", "manifest.json"]
    || p == ["core", "src", "ten_runtime", "binding", "python", "manifest.json"]
    || p == ["core", "src", "ten_runtime", "binding", "nodejs", "manifest.json"]
  }

  // packages/core_*/*/name
  predicate IsCore(tree: Tree, files: Files, p: Path, name: string) {
    && p in files && |p| == 4 && p[0] == "packages" && p[3] == name
    && (p[1] == "core_apps" || p[1] == "core_extensions" || p[1] == "core_protocols")
    && p[2] in tree.subdirs(["packages", p[1]])
  }

  // core/src/ten_runtime/binding/*/manifest.json
  predicate IsBinding(tree: Tree, files: Files, p: Path) {
    && p in files && |p| == 6 && p[..4] == ["core", "src", "ten_runtime", "binding"] && p[5] == "manifest.json"
    && p[4] in tree.subdirs(["core", "src", "ten_runtime", "binding"])
  }

  // packages/*/*/manifest.json and packages/*/*/manifest.json.tent
  predicate IsPackage(tree: Tree, files: Files, p: Path) {
    && p in files && |p| == 4 && p[0] == "packages" && (p[3] == "manifest.json" || p[3] == "manifest.json.tent")
    && p[1] in tree.subdirs(["packages"]) && p[2] in tree.subdirs(["packages", p[1]])
  }

  predicate IsTest(tree: Tree, p: Path) {
    p in tree.testFiles && p != [] && p[|p| - 1] == "manifest.json"
  }

  // The manifests whose dependencies are updated.
  predicate IsVisited(tree: Tree, files: Files, p: Path) {
    || IsBinding(tree, files, p) || IsPackage(tree, files, p)
    || (IsTest(tree, p) && p != ["tests", "ten_manager", "error_context", "package_version_not_found", "test_app", "manifest.json"])
  }

  lemma {:induction false} CollectInIff(files: Files, dir: Path, subdirs: seq<string>, name: string, p: Path)
    ensures p in CollectIn(files, dir, subdirs, name) <==>
              p in files && |p| == |dir| + 2 && p[..|dir|] == dir && p[|dir|] in subdirs && p[|dir| + 1] == name
  {
    if subdirs != [] {
      CollectInIff(files, dir, subdirs[1..], name, p);
      var q := dir + [subdirs[0], name];
      assert q[..|dir|] == dir && q[|dir|] == subdirs[0] && q[|dir| + 1] == name;
      assert subdirs == [subdirs[0]] + subdirs[1..];
      if |p| == |dir| + 2 && p[..|dir|] == dir && p[|dir|] == subdirs[0] && p[|dir| + 1] == name {
        assert p == q;
      }
    }
  }

  lemma {:induction false} CollectAllIff(tree: Tree, files: Files, dirs: seq<Path>, name: string, p: Path)
    ensures p in CollectAll(tree, files, dirs, name) <==> exists dir | dir in dirs :: p in Collect(tree, files, dir, name)
  {
    if dirs != [] {
      CollectAllIff(tree, files, dirs[1..], name, p);
      assert dirs == [dirs[0]] + dirs[1..];
    }
  }

  lemma {:induction false} PackagesIff(tree: Tree, files: Files, dirs: seq<string>, p: Path)
    ensures p in PackageManifests(tree, files, dirs) <==>
              && p in files && |p| == 4 && p[0] == "packages" && p[1] in dirs && p[2] in tree.subdirs(["packages", p[1]])
              && (p[3] == "manifest.json" || p[3] == "manifest.json.tent")
  {
    if dirs != [] {
      var dir := ["packages", dirs[0]];
      PackagesIff(tree, files, dirs[1..], p);
      CollectInIff(files, dir, tree.subdirs(dir), "manifest.json", p);
      CollectInIff(files, dir, tree.subdirs(dir), "manifest.json.tent", p);
      assert dirs == [dirs[0]] + dirs[1..];
      if |p| == 4 {
        assert p[..2] == [p[0], p[1]];
      }
    }
  }

  lemma {:induction false} NamedIff(paths: seq<Path>, name: string, p: Path)
    ensures p in Named(paths, name) <==> p in paths && p != [] && p[|p| - 1] == name
  {
    if paths != [] {
      NamedIff(paths[1..], name, p);
      assert paths == [paths[0]] + paths[1..];
    }
  }

  lemma SystemIff(p: Path)
    ensures p in SystemManifests <==> IsSystem(p)
  {
    assert SystemManifests[0] == ["core", "src", "ten_runtime", "manifest.json"];
    assert SystemManifests[1] == ["core", "src", "ten_runtime", "binding", "go", "manifest.json"];
    assert SystemManifests[2] == ["core", "src", "ten_runtime", "binding", "python", "manifest.json"];
    assert SystemManifests[3] == ["core", "src", "ten_runtime", "binding", "nodejs", "manifest.json"];
  }

  lemma CoreIff(tree: Tree, files: Files, name: string, p: Path)
    ensures p in CollectAll(tree, files, CoreDirs, name) <==> IsCore(tree, files, p, name)
  {
    CollectAllIff(tree, files, CoreDirs, name, p);
    assert CoreDirs[0] == ["packages", "core_apps"] && CoreDirs[1] == ["packages", "core_extensions"]
           && CoreDirs[2] == ["packages", "core_protocols"];
    forall dir | dir in CoreDirs
      ensures p in Collect(tree, files, dir, name) <==> IsCore(tree, files, p, name) && p[1] == dir[1]
    {
      CollectInIff(files, dir, tree.subdirs(dir), name, p);
      if |p| == 4 {
        assert p[..2] == [p[0], p[1]];
      }
    }
    if IsCore(tree, files, p, name) {
      assert ["packages", p[1]] in CoreDirs;
      assert p in Collect(tree, files, ["packages", p[1]], name);
    }
  }

  // The dependencies are updated in the bindings, in all packages, and in the tests except one.
  lemma DependencyManifestsIff(tree: Tree, files: Files, p: Path)
    ensures p in DependencyManifests(tree, files) <==> IsVisited(tree, files, p)
  {
    var bindings := ["core", "src", "ten_runtime", "binding"];
    assert Runtime + ["binding"] == bindings;
    CollectInIff(files, bindings, tree.subdirs(bindings), "manifest.json", p);
    PackagesIff(tree, files, tree.subdirs(["packages"]), p);
    NamedIff(tree.testFiles, "manifest.json", p);
    WithoutIsWithin(Named(tree.testFiles, "manifest.json"), Blacklisted);
  }

  // ---------- The fields of a manifest ----------

  // The first member with this key has this value.
  ghost predicate FieldIs(j: Json, key: string, value: Json) {
    j.Object? && exists i: nat :: IsFirst(j.members, i, key, value)
  }

  // What dict.get(key) returns: None, which null is read as, where there is no such key.
  ghost predicate Reads(j: Json, key: string, value: Json) {
    FieldIs(j, key, value) || (j.Object? && value == Null && forall m | m in j.members :: m.key != key)
  }

  lemma {:induction false} HasIff(ms: seq<Member>, key: string)
    ensures Has(ms, key) <==> exists m | m in ms :: m.key == key
  {
    if ms != [] {
      HasIff(ms[1..], key);
      assert ms == [ms[0]] + ms[1..];
    }
  }

  lemma {:induction false} FieldIff(ms: seq<Member>, key: string, value: Json)
    ensures FieldIs(Object(ms), key, value) <==> Has(ms, key) && Get(ms, key) == value
  {
    if ms != [] {
      FieldIff(ms[1..], key, value);
      if ms[0].key != key {
        FieldBehind(ms, key, value);
      } else {
        FieldInFront(ms, key, value);
      }
    }
  }

  predicate IsFirst(ms: seq<Member>, i: nat, key: string, value: Json) {
    i < |ms| && ms[i] == Member(key, value) && forall k | 0 <= k < i :: ms[k].key != key
  }

  lemma FieldInFront(ms: seq<Member>, key: string, value: Json)
    requires ms != [] && ms[0].key == key
    ensures FieldIs(Object(ms), key, value) <==> ms[0].value == value
  {
    if ms[0].value == value {
      assert IsFirst(ms, 0, key, value);
    }
  }

  lemma FieldBehind(ms: seq<Member>, key: string, value: Json)
    requires ms != [] && ms[0].key != key
    ensures FieldIs(Object(ms), key, value) <==> FieldIs(Object(ms[1..]), key, value)
  {
    if i: nat :| IsFirst(ms, i, key, value) {
      assert IsFirst(ms[1..], i - 1, key, value);
    }
    if i: nat :| IsFirst(ms[1..], i, key, value) {
      assert forall k | 0 < k < i + 1 :: ms[k] == ms[1..][k - 1];
      assert IsFirst(ms, i + 1, key, value);
    }
  }

  lemma {:induction false} MissingIsNull(ms: seq<Member>, key: string)
    requires !Has(ms, key)
    ensures Get(ms, key) == Null
  {
    if ms != [] {
      MissingIsNull(ms[1..], key);
    }
  }

  lemma ReadsIff(j: Json, key: string, value: Json)
    ensures Reads(j, key, value) <==> j.Object? && Get(j.members, key) == value
  {
    if j.Object? {
      FieldIff(j.members, key, value);
      HasIff(j.members, key);
      if !Has(j.members, key) {
        MissingIsNull(j.members, key);
      }
    }
  }

  lemma ReadsSameIff(j: Json, j': Json, key: string)
    requires j.Object? && j'.Object?
    ensures Get(j.members, key) == Get(j'.members, key) <==> forall value :: Reads(j, key, value) <==> Reads(j', key, value)
  {
    forall value
      ensures Reads(j, key, value) <==> Get(j.members, key) == value
      ensures Reads(j', key, value) <==> Get(j'.members, key) == value
    {
      ReadsIff(j, key, value);
      ReadsIff(j', key, value);
    }
    assert Reads(j, key, Get(j.members, key));
  }

  // ---------- The packages that are updated ----------

  // d names the same package as the manifest.
  ghost predicate SamePackage(j: Json, d: Json) {
    && j.Object? && d.Object?
    && (forall value :: Reads(j, "type", value) <==> Reads(d, "type", value))
    && (forall value :: Reads(j, "name", value) <==> Reads(d, "name", value))
  }

  ghost predicate Names(env: Env, files: Files, q: Path, d: Json) {
    q in files && env.parse(files[q]).Some? && SamePackage(env.parse(files[q]).value, d)
  }

  // d names the package of a system or core manifest.
  ghost predicate IsUpdated(env: Env, tree: Tree, files: Files, d: Json) {
    exists q | IsSystem(q) || IsCore(tree, files, q, "manifest.json") :: Names(env, files, q, d)
  }

  ghost predicate IsCorePackage(env: Env, tree: Tree, files: Files, d: Json) {
    exists q | IsCore(tree, files, q, "manifest.json") :: Names(env, files, q, d)
  }

  lemma NamesIff(env: Env, files: Files, q: Path, d: Json)
    requires d.Object? && Readable(env, files, q)
    ensures Names(env, files, q, d) <==> PkgAt(env, files, q) == PkgOf(d)
  {
    ReadsSameIff(Load(env, files, q).value, d, "type");
    ReadsSameIff(Load(env, files, q).value, d, "name");
  }

  lemma PkgsIff(env: Env, files: Files, paths: seq<Path>, d: Json)
    requires d.Object? && forall q | q in paths :: Readable(env, files, q)
    ensures PkgOf(d) in PkgsAt(env, files, paths) <==> exists q | q in paths :: Names(env, files, q, d)
  {
    forall q | q in paths
      ensures Names(env, files, q, d) <==> PkgAt(env, files, q) == PkgOf(d)
    {
      NamesIff(env, files, q, d);
    }
    if PkgOf(d) in PkgsAt(env, files, paths) {
      var i :| 0 <= i < |paths| && PkgsAt(env, files, paths)[i] == PkgOf(d);
      assert Names(env, files, paths[i], d);
    }
    if q :| q in paths && Names(env, files, q, d) {
      var i :| 0 <= i < |paths| && paths[i] == q;
      assert PkgsAt(env, files, paths)[i] == PkgOf(d);
    }
  }

  lemma CorePkgsIff(env: Env, tree: Tree, files: Files, d: Json)
    requires d.Object? && forall q | q in CoreManifests(tree, files) :: Readable(env, files, q)
    ensures PkgOf(d) in PkgsAt(env, files, CoreManifests(tree, files)) <==> IsCorePackage(env, tree, files, d)
  {
    PkgsIff(env, files, CoreManifests(tree, files), d);
    forall q
      ensures q in CoreManifests(tree, files) <==> IsCore(tree, files, q, "manifest.json")
    {
      CoreIff(tree, files, "manifest.json", q);
    }
  }

  // The packages whose version is rewritten in dependencies are those that the system and
  // core manifests name.
  lemma UpdatedPkgsIff(env: Env, tree: Tree, files: Files, d: Json)
    requires d.Object? && forall q | q in SystemManifests + CoreManifests(tree, files) :: Readable(env, files, q)
    ensures PkgOf(d) in UpdatedPkgs(env, tree, files) <==> IsUpdated(env, tree, files, d)
  {
    assert forall q | q in SystemManifests :: q in SystemManifests + CoreManifests(tree, files);
    assert forall q | q in CoreManifests(tree, files) :: q in SystemManifests + CoreManifests(tree, files);
    PkgsIff(env, files, SystemManifests, d);
    CorePkgsIff(env, tree, files, d);
    forall q
      ensures q in SystemManifests <==> IsSystem(q)
    {
      SystemIff(q);
    }
  }

  // ---------- Before and after a successful run ----------

  // The run neither creates nor removes a manifest, and keeps the packages.
  lemma SameVisits(env: Env, tree: Tree, files: Files)
    requires Faithful(env) && Run(env, tree, files).ok
    ensures var files' := Run(env, tree, files).files;
            && SameManifests(files, files')
            && ManifestSteps(env, tree, files) == ManifestSteps(env, tree, files')
            && UpdatedPkgs(env, tree, files) == UpdatedPkgs(env, tree, files')
            && (forall q | q in SystemManifests + CoreManifests(tree, files) :: Readable(env, files, q))
  {
    var o := RunSteps(env, files, TemplateSteps(env.version));
    TemplatesKeepManifests(env, files);
    RunKeepsSteps(env, tree, o.files);
    SameKeysSameManifests(o.files, Run(env, tree, files).files);
    RunSucceedsIff(env, tree, files);
    TextsDecide(env, tree, files, o.files);
  }

  lemma TextsDecide(env: Env, tree: Tree, files: Files, files': Files)
    requires SameTexts(files, files')
    ensures ManifestSteps(env, tree, files) == ManifestSteps(env, tree, files')
    ensures UpdatedPkgs(env, tree, files) == UpdatedPkgs(env, tree, files')
  {
    SameCollectAll(tree, files, files', CoreDirs, ManifestName);
    SameCollectAll(tree, files, files', CoreDirs, TentName);
    SameDependencyManifests(tree, files, files');
    VisitedAreManifests(tree, files);
    SamePkgTexts(env, files, files', SystemManifests);
    SamePkgTexts(env, files, files', CoreManifests(tree, files));
  }

  lemma SamePkgTexts(env: Env, files: Files, files': Files, paths: seq<Path>)
    requires SameTexts(files, files') && AllManifests(paths)
    ensures PkgsAt(env, files, paths) == PkgsAt(env, files', paths)
  {
    forall i | 0 <= i < |paths|
      ensures PkgAt(env, files, paths[i]) == PkgAt(env, files', paths[i])
    {
      assert paths[i] in paths;
    }
  }

  // ---------- Dependencies ----------

  lemma {:induction false} StrippedIff(ms: seq<Member>, key: string)
    requires key != "version"
    ensures Get(WithoutVersion(ms), key) == Get(ms, key) && (Has(WithoutVersion(ms), key) <==> Has(ms, key))
  {
    if ms != [] {
      StrippedIff(ms[1..], key);
      if ms[0].key != "version" {
        assert WithoutVersion(ms) == [ms[0]] + WithoutVersion(ms[1..]);
        assert WithoutVersion(ms)[1..] == WithoutVersion(ms[1..]);
      } else {
        assert WithoutVersion(ms) == WithoutVersion(ms[1..]);
      }
    }
  }

  // Apart from the version nothing of a dependency changes.
  lemma OnlyTheVersion(d: Json, d': Json, key: string, value: Json)
    requires d.Object? && d'.Object? && StripDep(d') == StripDep(d) && key != "version"
    ensures FieldIs(d', key, value) <==> FieldIs(d, key, value)
  {
    StrippedIff(d.members, key);
    StrippedIff(d'.members, key);
    FieldIff(d.members, key, value);
    FieldIff(d'.members, key, value);
  }

  // What a dependency is after the run.
  ghost predicate EndsRight(env: Env, tree: Tree, files: Files, d: Json, d': Json) {
    && d.Object? && d'.Object?
    && (forall key, value | key != "version" :: FieldIs(d', key, value) <==> FieldIs(d, key, value))
    && (if IsUpdated(env, tree, files, d) then FieldIs(d', "version", Str(env.version))
        else forall value :: Reads(d', "version", value) <==> Reads(d, "version", value))
  }

  // Every dependency of a visited manifest that names a system or core package ends with the
  // version; all others, and everything else in the dependencies, are as they were.
  lemma DependenciesEndRight(env: Env, tree: Tree, files: Files, p: Path, items: seq<Json>) returns (items': seq<Json>)
    requires Faithful(env) && Run(env, tree, files).ok && IsVisited(tree, files, p)
    requires p in files && env.parse(files[p]).Some? && FieldIs(env.parse(files[p]).value, "dependencies", Array(items))
    ensures var files' := Run(env, tree, files).files;
            && p in files' && env.parse(files'[p]).Some?
            && (items != [] ==> FieldIs(env.parse(files'[p]).value, "dependencies", Array(items')))
            && |items'| == |items| && forall i | 0 <= i < |items| :: EndsRight(env, tree, files, items[i], items'[i])
  {
    var j := env.parse(files[p]).value;
    VisitedIsRead(env, tree, files, p);
    FieldIff(j.members, "dependencies", Array(items));
    var j' := env.parse(Run(env, tree, files).files[p]).value;
    items' := Dependencies(j').value;
    ItemsEndRight(env, tree, files, j, j');
    if items != [] {
      DependenciesIff(j', items');
    }
  }

  lemma VisitedIsRead(env: Env, tree: Tree, files: Files, p: Path)
    requires Faithful(env) && Run(env, tree, files).ok && IsVisited(tree, files, p)
    ensures var files' := Run(env, tree, files).files;
            && p in files && p in files' && env.parse(files[p]).Some? && env.parse(files'[p]).Some?
            && DependenciesAre(env.parse(files[p]).value, env.parse(files'[p]).value, env.version, UpdatedPkgs(env, tree, files))
  {
    SameVisits(env, tree, files);
    SameDependencyManifests(tree, files, Run(env, tree, files).files);
    DependencyManifestsIff(tree, files, p);
    VisitedEndRight(env, tree, files, p);
  }

  lemma ItemsEndRight(env: Env, tree: Tree, files: Files, j: Json, j': Json)
    requires Faithful(env) && Run(env, tree, files).ok
    requires DependenciesAre(j, j', env.version, UpdatedPkgs(env, tree, files))
    ensures forall i | 0 <= i < |Dependencies(j).value| ::
              EndsRight(env, tree, files, Dependencies(j).value[i], Dependencies(j').value[i])
  {
    SameVisits(env, tree, files);
    forall i | 0 <= i < |Dependencies(j).value|
      ensures EndsRight(env, tree, files, Dependencies(j).value[i], Dependencies(j').value[i])
    {
      ItemEndsRight(env, tree, files, Dependencies(j).value[i], Dependencies(j').value[i]);
    }
  }

  // A loop over dependencies that visits something goes through the list of that field.
  lemma DependenciesIff(j: Json, items: seq<Json>)
    requires j.Object? && Dependencies(j) == Some(items) && items != []
    ensures FieldIs(j, "dependencies", Array(items))
  {
    FieldIff(j.members, "dependencies", Array(items));
  }

  lemma ItemEndsRight(env: Env, tree: Tree, files: Files, d: Json, d': Json)
    requires d.Object? && d'.Object? && StripDep(d') == StripDep(d)
    requires Get(d'.members, "version")
          == if PkgOf(d) in UpdatedPkgs(env, tree, files) then Str(env.version) else Get(d.members, "version")
    requires forall q | q in SystemManifests + CoreManifests(tree, files) :: Readable(env, files, q)
    ensures EndsRight(env, tree, files, d, d')
  {
    forall key, value | key != "version"
      ensures FieldIs(d', key, value) <==> FieldIs(d, key, value)
    {
      OnlyTheVersion(d, d', key, value);
    }
    UpdatedPkgsIff(env, tree, files, d);
    if IsUpdated(env, tree, files, d) {
      VersionIsField(d', env.version);
    } else {
      ReadsSameIff(d', d, "version");
    }
  }

  lemma VersionIsField(j: Json, version: string)
    requires j.Object? && Get(j.members, "version") == Str(version)
    ensures FieldIs(j, "version", Str(version))
  {
    ReadsIff(j, "version", Str(version));
  }

  // ---------- Versions ----------

  // The manifests whose own version is set: of the system packages, of the core packages and
  // their templates, and in tests those that stand in for a core package.
  ghost predicate IsVersioned(env: Env, tree: Tree, files: Files, p: Path) {
    || IsSystem(p) || IsCore(tree, files, p, "manifest.json") || IsCore(tree, files, p, "manifest.json.tent")
    || (IsTest(tree, p) && p in files && env.parse(files[p]).Some? && env.parse(files[p]).value.Object?
        && IsCorePackage(env, tree, files, env.parse(files[p]).value))
  }

  // Every one of them ends with the version, and every other manifest with the one it had.
  lemma VersionsEndRight(env: Env, tree: Tree, files: Files, p: Path)
    requires Faithful(env) && Run(env, tree, files).ok
    requires p in files && env.parse(files[p]).Some? && env.parse(files[p]).value.Object? && IsManifest(p)
    ensures var files' := Run(env, tree, files).files;
            && p in files' && env.parse(files'[p]).Some?
            && var j, j' := env.parse(files[p]).value, env.parse(files'[p]).value;
               if IsVersioned(env, tree, files, p) then FieldIs(j', "version", Str(env.version))
               else forall value :: Reads(j', "version", value) <==> Reads(j, "version", value)
  {
    var files' := Run(env, tree, files).files;
    var j := env.parse(files[p]).value;
    SameVisits(env, tree, files);
    VersionedIff(env, tree, files, p);
    var steps := ManifestSteps(env, tree, files);
    if step :| step in steps && SetsVersion(step, p, PkgOf(j)) {
      VersionIsThere(env, tree, files, p, step);
    } else {
      VersionIsKept(env, tree, files, p);
    }
  }

  // The step sets the version of this manifest, which names this package.
  predicate SetsVersion(step: Step, p: Path, pkg: Pkg) {
    step.path == p && (step.SetVersion? || (step.SetVersionIfIn? && pkg in step.pkgs))
  }

  lemma StepsIff(paths: seq<Path>, collect: bool, pkgs: seq<Pkg>, step: Step)
    ensures step in VersionSteps(paths, collect) <==> step.SetVersion? && step.collect == collect && step.path in paths
    ensures step in TestSteps(paths, pkgs) <==> step.SetVersionIfIn? && step.pkgs == pkgs && step.path in paths
    ensures step in DependencySteps(paths, pkgs) ==> step.SetDependencies?
  {
    if !step.FromTemplate? && step.path in paths {
      var i :| 0 <= i < |paths| && paths[i] == step.path;
      assert VersionSteps(paths, collect)[i] == SetVersion(paths[i], collect);
      assert TestSteps(paths, pkgs)[i] == SetVersionIfIn(paths[i], pkgs);
    }
  }

  lemma VersionStepsIff(env: Env, tree: Tree, files: Files, p: Path, pkg: Pkg)
    ensures (exists step | step in ManifestSteps(env, tree, files) :: SetsVersion(step, p, pkg)) <==>
              || IsSystem(p) || IsCore(tree, files, p, "manifest.json") || IsCore(tree, files, p, "manifest.json.tent")
              || (IsTest(tree, p) && pkg in PkgsAt(env, files, CoreManifests(tree, files)))
  {
    var core, tent := CoreManifests(tree, files), CollectAll(tree, files, CoreDirs, TentName);
    var tests, corePkgs := Named(tree.testFiles, ManifestName), PkgsAt(env, files, core);
    var steps := ManifestSteps(env, tree, files);
    SystemIff(p);
    CoreIff(tree, files, "manifest.json", p);
    CoreIff(tree, files, "manifest.json.tent", p);
    NamedIff(tree.testFiles, "manifest.json", p);
    forall step
      ensures step in steps <==>
                || step in VersionSteps(SystemManifests, true) || step in VersionSteps(core, true)
                || step in VersionSteps(tent, false) || step in TestSteps(tests, corePkgs)
                || step in DependencySteps(DependencyManifests(tree, files), UpdatedPkgs(env, tree, files))
    {
    }
    forall step
      ensures SetsVersion(step, p, pkg) && step in steps ==> p in SystemManifests + core + tent || (p in tests && pkg in corePkgs)
    {
      StepsIff(SystemManifests, true, [], step);
      StepsIff(core, true, [], step);
      StepsIff(tent, false, [], step);
      StepsIff(tests, true, corePkgs, step);
      StepsIff(DependencyManifests(tree, files), true, UpdatedPkgs(env, tree, files), step);
    }
    StepsIff(SystemManifests, true, [], SetVersion(p, true));
    StepsIff(core, true, [], SetVersion(p, true));
    StepsIff(tent, false, [], SetVersion(p, false));
    StepsIff(tests, true, corePkgs, SetVersionIfIn(p, corePkgs));
    assert p in SystemManifests || p in core ==> SetVersion(p, true) in steps && SetsVersion(SetVersion(p, true), p, pkg);
    assert p in tent ==> SetVersion(p, false) in steps && SetsVersion(SetVersion(p, false), p, pkg);
    assert p in tests && pkg in corePkgs ==>
           SetVersionIfIn(p, corePkgs) in steps && SetsVersion(SetVersionIfIn(p, corePkgs), p, pkg);
  }

  lemma VersionedIff(env: Env, tree: Tree, files: Files, p: Path)
    requires p in files && env.parse(files[p]).Some? && env.parse(files[p]).value.Object?
    requires forall q | q in SystemManifests + CoreManifests(tree, files) :: Readable(env, files, q)
    ensures IsVersioned(env, tree, files, p) <==>
              exists step | step in ManifestSteps(env, tree, files) :: SetsVersion(step, p, PkgOf(env.parse(files[p]).value))
  {
    var j := env.parse(files[p]).value;
    assert forall q | q in CoreManifests(tree, files) :: q in SystemManifests + CoreManifests(tree, files);
    VersionStepsIff(env, tree, files, p, PkgOf(j));
    CorePkgsIff(env, tree, files, j);
  }

  lemma VersionIsThere(env: Env, tree: Tree, files: Files, p: Path, step: Step)
    requires Faithful(env) && Run(env, tree, files).ok && IsManifest(p)
    requires p in files && env.parse(files[p]).Some? && env.parse(files[p]).value.Object?
    requires step in ManifestSteps(env, tree, files) && SetsVersion(step, p, PkgOf(env.parse(files[p]).value))
    ensures var files' := Run(env, tree, files).files;
            p in files' && env.parse(files'[p]).Some? && FieldIs(env.parse(files'[p]).value, "version", Str(env.version))
  {
    var files' := Run(env, tree, files).files;
    StepIsThere(env, tree, files, step);
    SamePkgAfter(env, tree, files, p);
    DoneSetsVersion(env, files', p, step, PkgOf(env.parse(files[p]).value));
    VersionIsField(env.parse(files'[p]).value, env.version);
  }

  lemma StepIsThere(env: Env, tree: Tree, files: Files, step: Step)
    requires Faithful(env) && Run(env, tree, files).ok && step in ManifestSteps(env, tree, files)
    ensures Done(env, Run(env, tree, files).files, step)
  {
    SameVisits(env, tree, files);
    StepIsDone(env, tree, files, step);
  }

  lemma DoneSetsVersion(env: Env, files: Files, p: Path, step: Step, pkg: Pkg)
    requires Done(env, files, step) && SetsVersion(step, p, pkg)
    requires p in files && env.parse(files[p]).Some? && PkgOf(env.parse(files[p]).value) == pkg
    ensures HasVersion(env.parse(files[p]).value, env.version)
  {
  }

  lemma SamePkgAfter(env: Env, tree: Tree, files: Files, p: Path)
    requires Faithful(env) && Run(env, tree, files).ok && p in files && IsManifest(p)
    ensures var files' := Run(env, tree, files).files;
            p in files' && (env.parse(files[p]).Some? && env.parse(files[p]).value.Object? ==>
              && env.parse(files'[p]).Some? && env.parse(files'[p]).value.Object?
              && PkgOf(env.parse(files'[p]).value) == PkgOf(env.parse(files[p]).value))
  {
    RunPreservesTheRest(env, tree, files);
    TemplatePathsDiffer();
    var o := RunSteps(env, files, TemplateSteps(env.version));
    assert SameUpToVersions(env, files[p], Run(env, tree, files).files[p], UpdatedPkgs(env, tree, o.files));
  }

  lemma VersionIsKept(env: Env, tree: Tree, files: Files, p: Path)
    requires Faithful(env) && Run(env, tree, files).ok
    requires p in files && env.parse(files[p]).Some? && env.parse(files[p]).value.Object? && IsManifest(p)
    requires forall step | step in ManifestSteps(env, tree, files) :: !SetsVersion(step, p, PkgOf(env.parse(files[p]).value))
    ensures var files' := Run(env, tree, files).files;
            && p in files' && env.parse(files'[p]).Some?
            && forall value :: Reads(env.parse(files'[p]).value, "version", value) <==> Reads(env.parse(files[p]).value, "version", value)
  {
    var o := RunSteps(env, files, TemplateSteps(env.version));
    TemplatesKeepManifests(env, files);
    TextsDecide(env, tree, files, o.files);
    ManifestStepsAreOnManifests(env, tree, o.files);
    StepsKeepVersion(env, o.files, ManifestSteps(env, tree, o.files), p);
    ReadsSameIff(env.parse(Run(env, tree, files).files[p]).value, env.parse(files[p]).value, "version");
  }

  lemma {:induction false} StepsKeepVersion(env: Env, files: Files, steps: seq<Step>, p: Path)
    requires Faithful(env) && RunSteps(env, files, steps).ok && OnManifests(steps)
    requires p in files && env.parse(files[p]).Some? && env.parse(files[p]).value.Object?
    requires forall step | step in steps :: !SetsVersion(step, p, PkgOf(env.parse(files[p]).value))
    ensures KeepsVersion(env, files, RunSteps(env, files, steps).files, p)
    decreases |steps|
  {
    if steps != [] {
      assert steps[0] in steps;
      StepKeepsVersion(env, files, steps[0], p);
      assert forall step | step in steps[1..] :: step in steps;
      StepsKeepVersion(env, StepOn(env, files, steps[0]).files, steps[1..], p);
    }
  }

  predicate KeepsVersion(env: Env, files: Files, files': Files, p: Path)
    requires p in files && env.parse(files[p]).Some? && env.parse(files[p]).value.Object?
  {
    && p in files' && env.parse(files'[p]).Some? && env.parse(files'[p]).value.Object?
    && var j, j' := env.parse(files[p]).value, env.parse(files'[p]).value;
       PkgOf(j') == PkgOf(j) && Get(j'.members, "version") == Get(j.members, "version")
  }

  lemma StepKeepsVersion(env: Env, files: Files, step: Step, p: Path)
    requires Faithful(env) && StepOn(env, files, step).ok && !step.FromTemplate?
    requires p in files && env.parse(files[p]).Some? && env.parse(files[p]).value.Object?
    requires !SetsVersion(step, p, PkgOf(env.parse(files[p]).value))
    ensures KeepsVersion(env, files, StepOn(env, files, step).files, p)
  {
    if step.path != p {
      StepPreserves(env, files, step, PkgsOf(step));
    } else {
      var j := env.parse(files[p]).value;
      if step.SetDependencies? && WithDependencies(j, env.version, step.pkgs).Some? {
        DependenciesAreSet(j, env.version, step.pkgs);
      }
    }
  }

  // ---------- The rendered files and the check ----------

  ghost predicate HasText(text: string, part: string) {
    exists i: nat :: i <= |text| && part <= text[i..]
  }

  lemma {:induction false} ContainsIff(text: string, part: string)
    ensures Contains(text, part) <==> HasText(text, part)
  {
    if part <= text {
      assert part <= text[0..];
    } else if text != "" {
      ContainsIff(text[1..], part);
      if i: nat :| i <= |text| && part <= text[i..] {
        assert i > 0 && text[i..] == text[1..][i - 1..];
      }
      if i: nat :| i <= |text[1..]| && part <= text[1..][i..] {
        assert text[1..][i..] == text[i + 1..];
      }
    }
  }

  ghost predicate ShowsText(files: Files, path: Path, part: string) {
    path in files && HasText(files[path], part)
  }

  // A file that showed the version is kept, and any other is rendered from its template.
  ghost predicate Renders(env: Env, files: Files, files': Files, path: Path, template: Path, part: string) {
    && path in files'
    && if ShowsText(files, path, part) then files'[path] == files[path]
       else template in files && files'[path] == env.render(files[template])
  }

  lemma RenderedEndRight(env: Env, tree: Tree, files: Files)
    requires Faithful(env) && Run(env, tree, files).ok
    ensures var files' := Run(env, tree, files).files;
            && Renders(env, files, files', ["core", "src", "ten_runtime", "build_template", "preserved_metadata.c"],
                       ["core", "src", "ten_runtime", "build_template", "preserved_metadata.c.jinja2"], "version=" + env.version)
            && Renders(env, files, files', ["core", "src", "ten_manager", "src", "version.rs"],
                       ["core", "src", "ten_manager", "src", "version.rs.jinja2"], "VERSION: &str = \"" + env.version + "\"")
  {
    var o := RunSteps(env, files, TemplateSteps(env.version));
    PathsAre();
    TemplatesRender(env, files);
    ManifestStepsAreOnManifests(env, tree, o.files);
    TemplatePathsDiffer();
    RunLeavesAlone(env, o.files, ManifestSteps(env, tree, o.files), Metadata);
    RunLeavesAlone(env, o.files, ManifestSteps(env, tree, o.files), Tman);
  }

  lemma PathsAre()
    ensures Metadata == ["core", "src", "ten_runtime", "build_template", "preserved_metadata.c"]
    ensures MetadataTemplate == ["core", "src", "ten_runtime", "build_template", "preserved_metadata.c.jinja2"]
    ensures Tman == ["core", "src", "ten_manager", "src", "version.rs"]
    ensures TmanTemplate == ["core", "src", "ten_manager", "src", "version.rs.jinja2"]
  {
  }

  lemma TemplatesRender(env: Env, files: Files)
    requires Faithful(env) && RunSteps(env, files, TemplateSteps(env.version)).ok
    ensures var files' := RunSteps(env, files, TemplateSteps(env.version)).files;
            && Renders(env, files, files', Metadata, MetadataTemplate, MetadataMarker(env.version))
            && Renders(env, files, files', Tman, TmanTemplate, TmanMarker(env.version))
  {
    var steps := TemplateSteps(env.version);
    var o := StepOn(env, files, steps[0]);
    TemplatesInTwo(env, files);
    TemplatePathsDiffer();
    StepRenders(env, files, steps[0]);
    StepRenders(env, o.files, steps[1]);
    StepPreserves(env, files, steps[0], []);
    StepPreserves(env, o.files, steps[1], []);
  }

  lemma StepRenders(env: Env, files: Files, step: Step)
    requires step.FromTemplate? && StepOn(env, files, step).ok
    ensures Renders(env, files, StepOn(env, files, step).files, step.path, step.template, step.marker)
  {
    if step.path in files {
      ContainsIff(files[step.path], step.marker);
    }
  }

  // The checker passes exactly if both rendered files show the version and every system
  // manifest has it.
  lemma CheckMeans(env: Env, files: Files)
    ensures CheckVersions(env, files) == Match <==>
              && ShowsText(files, ["core", "src", "ten_runtime", "build_template", "preserved_metadata.c"], "version=" + env.version)
              && ShowsText(files, ["core", "src", "ten_manager", "src", "version.rs"], "VERSION: &str = \"" + env.version + "\"")
              && forall p | IsSystem(p) ::
                   p in files && env.parse(files[p]).Some? && FieldIs(env.parse(files[p]).value, "version", Str(env.version))
  {
    PathsAre();
    if Metadata in files {
      ContainsIff(files[Metadata], MetadataMarker(env.version));
    }
    if Tman in files {
      ContainsIff(files[Tman], TmanMarker(env.version));
    }
    CheckManifestsMeans(env, files, SystemManifests);
    forall p
      ensures p in SystemManifests <==> IsSystem(p)
      ensures Done(env, files, SetVersion(p, false)) <==>
                p in files && env.parse(files[p]).Some? && FieldIs(env.parse(files[p]).value, "version", Str(env.version))
    {
      SystemIff(p);
      if p in files && env.parse(files[p]).Some? {
        ReadsIff(env.parse(files[p]).value, "version", Str(env.version));
      }
    }
  }

  // ---------- Success ----------

  ghost predicate IsObject(env: Env, files: Files, p: Path) {
    p in files && env.parse(files[p]).Some? && env.parse(files[p]).value.Object?
  }

  ghost predicate HasField(j: Json, key: string) {
    exists value :: FieldIs(j, key, value)
  }

  // A loop over data.get("dependencies", []) with dictionary access to its elements.
  ghost predicate CanLoop(j: Json) {
    || !HasField(j, "dependencies")
    || FieldIs(j, "dependencies", Str("")) || FieldIs(j, "dependencies", Object([]))
    || exists items: seq<Json> :: FieldIs(j, "dependencies", Array(items)) && forall i | 0 <= i < |items| :: items[i].Object?
  }

  // The updater succeeds if and only if the rendered files show the version or have a template,
  // the system and core manifests name their package, every other manifest it visits is an
  // object, and it can loop over the dependencies where it sets them.
  lemma SucceedsIff(env: Env, tree: Tree, files: Files)
    requires Faithful(env)
    ensures Run(env, tree, files).ok <==>
              && (ShowsText(files, ["core", "src", "ten_runtime", "build_template", "preserved_metadata.c"], "version=" + env.version)
                  || ["core", "src", "ten_runtime", "build_template", "preserved_metadata.c.jinja2"] in files)
              && (ShowsText(files, ["core", "src", "ten_manager", "src", "version.rs"], "VERSION: &str = \"" + env.version + "\"")
                  || ["core", "src", "ten_manager", "src", "version.rs.jinja2"] in files)
              && ManifestsAreFit(env, tree, files)
  {
    PathsAre();
    RunSucceedsIff(env, tree, files);
    CanEditIff(env, tree, files);
    if Metadata in files {
      ContainsIff(files[Metadata], MetadataMarker(env.version));
    }
    if Tman in files {
      ContainsIff(files[Tman], TmanMarker(env.version));
    }
  }

  // What the manifests must be like.
  ghost predicate ManifestsAreFit(env: Env, tree: Tree, files: Files) {
    && (forall p | IsSystem(p) || IsCore(tree, files, p, "manifest.json") ::
          IsObject(env, files, p) && HasField(env.parse(files[p]).value, "type")
          && HasField(env.parse(files[p]).value, "name"))
    && (forall p | IsCore(tree, files, p, "manifest.json.tent") || IsTest(tree, p) :: IsObject(env, files, p))
    && (forall p | IsVisited(tree, files, p) :: IsObject(env, files, p) && CanLoop(env.parse(files[p]).value))
  }

  lemma CanEditIff(env: Env, tree: Tree, files: Files)
    ensures CanEdit(env, tree, files) <==> ManifestsAreFit(env, tree, files)
  {
    forall p
      ensures p in SystemManifests <==> IsSystem(p)
      ensures p in CoreManifests(tree, files) <==> IsCore(tree, files, p, "manifest.json")
      ensures p in CollectAll(tree, files, CoreDirs, TentName) <==> IsCore(tree, files, p, "manifest.json.tent")
      ensures p in Named(tree.testFiles, ManifestName) <==> IsTest(tree, p)
      ensures p in DependencyManifests(tree, files) <==> IsVisited(tree, files, p)
    {
      SystemIff(p);
      CoreIff(tree, files, "manifest.json", p);
      CoreIff(tree, files, "manifest.json.tent", p);
      NamedIff(tree.testFiles, "manifest.json", p);
      DependencyManifestsIff(tree, files, p);
    }
    forall p
      ensures Identified(Load(env, files, p)) <==>
                IsObject(env, files, p) && HasField(env.parse(files[p]).value, "type") && HasField(env.parse(files[p]).value, "name")
      ensures IsObject(env, files, p) ==> (Dependencies(env.parse(files[p]).value).Some? <==> CanLoop(env.parse(files[p]).value))
    {
      if IsObject(env, files, p) {
        HasFieldIff(env.parse(files[p]).value, "type");
        HasFieldIff(env.parse(files[p]).value, "name");
        CanLoopIff(env.parse(files[p]).value);
      }
    }
  }

  lemma HasFieldIff(j: Json, key: string)
    requires j.Object?
    ensures HasField(j, key) <==> Has(j.members, key)
  {
    FieldIff(j.members, key, Get(j.members, key));
    if value :| FieldIs(j, key, value) {
      FieldIff(j.members, key, value);
    }
  }

  lemma CanLoopIff(j: Json)
    requires j.Object?
    ensures CanLoop(j) <==> Dependencies(j).Some?
  {
    HasFieldIff(j, "dependencies");
    forall value
      ensures FieldIs(j, "dependencies", value) <==> Has(j.members, "dependencies") && Get(j.members, "dependencies") == value
    {
      FieldIff(j.members, "dependencies", value);
    }
    if Dependencies(j).Some? && Has(j.members, "dependencies") && Get(j.members, "dependencies").Array? {
      assert FieldIs(j, "dependencies", Array(Get(j.members, "dependencies").items));
    }
  }

  // ---------- What no run touches ----------

  // A file that is neither rendered nor a manifest of these kinds is not touched, even when
  // the run ends with an exception.
  lemma OthersAreUntouched(env: Env, tree: Tree, files: Files, p: Path)
    requires Faithful(env)
    requires p != ["core", "src", "ten_runtime", "build_template", "preserved_metadata.c"]
    requires p != ["core", "src", "ten_manager", "src", "version.rs"]
    requires !IsSystem(p) && !IsTest(tree, p) && !IsVisited(tree, files, p)
    requires !IsCore(tree, files, p, "manifest.json") && !IsCore(tree, files, p, "manifest.json.tent")
    ensures var files' := Run(env, tree, files).files;
            (p in files' <==> p in files) && (p in files ==> files'[p] == files[p])
  {
    var o := RunSteps(env, files, TemplateSteps(env.version));
    PathsAre();
    assert forall step | step in TemplateSteps(env.version) :: step.path == Metadata || step.path == Tman;
    RunLeavesAlone(env, files, TemplateSteps(env.version), p);
    if o.ok {
      TemplatesKeepManifests(env, files);
      TextsDecide(env, tree, files, o.files);
      forall step | step in ManifestSteps(env, tree, files)
        ensures step.path != p
      {
        StepPaths(env, tree, files, step);
      }
      RunLeavesAlone(env, o.files, ManifestSteps(env, tree, o.files), p);
    }
  }

  lemma StepPaths(env: Env, tree: Tree, files: Files, step: Step)
    requires step in ManifestSteps(env, tree, files)
    ensures var p := step.path;
            || IsSystem(p) || IsTest(tree, p) || (p in files && IsVisited(tree, files, p))
            || IsCore(tree, files, p, "manifest.json") || IsCore(tree, files, p, "manifest.json.tent")
  {
    var p := step.path;
    var core, tent := CoreManifests(tree, files), CollectAll(tree, files, CoreDirs, TentName);
    var tests := Named(tree.testFiles, ManifestName);
    SystemIff(p);
    CoreIff(tree, files, "manifest.json", p);
    CoreIff(tree, files, "manifest.json.tent", p);
    NamedIff(tree.testFiles, "manifest.json", p);
    DependencyManifestsIff(tree, files, p);
    StepsIff(SystemManifests, true, [], step);
    StepsIff(core, true, [], step);
    StepsIff(tent, false, [], step);
    StepsIff(tests, true, PkgsAt(env, files, core), step);
  }

  lemma {:induction false} StrippedFieldIff(ms: seq<Member>, key: string)
    requires key != "version" && key != "dependencies"
    ensures Get(StripMembers(ms), key) == Get(ms, key) && (Has(StripMembers(ms), key) <==> Has(ms, key))
  {
    if ms != [] {
      StrippedFieldIff(ms[1..], key);
      if ms[0].key == "version" {
        assert StripMembers(ms) == StripMembers(ms[1..]);
      } else {
        assert StripMembers(ms)[1..] == StripMembers(ms[1..]);
      }
    }
  }

  // In a manifest only the version and the dependencies can change, even when the run ends with
  // an exception.
  lemma OtherFieldsStay(env: Env, tree: Tree, files: Files, p: Path, key: string, value: Json)
    requires Faithful(env) && p in files && IsManifest(p) && env.parse(files[p]).Some?
    requires key != "version" && key != "dependencies"
    ensures var files' := Run(env, tree, files).files;
            && p in files' && env.parse(files'[p]).Some?
            && (FieldIs(env.parse(files'[p]).value, key, value) <==> FieldIs(env.parse(files[p]).value, key, value))
  {
    RunPreservesTheRest(env, tree, files);
    TemplatePathsDiffer();
    var o := RunSteps(env, files, TemplateSteps(env.version));
    var files' := Run(env, tree, files).files;
    assert SameUpToVersions(env, files[p], files'[p], UpdatedPkgs(env, tree, o.files));
    var j, j' := env.parse(files[p]).value, env.parse(files'[p]).value;
    if files'[p] != files[p] {
      StrippedFieldIff(j.members, key);
      StrippedFieldIff(j'.members, key);
      FieldIff(j.members, key, value);
      FieldIff(j'.members, key, value);
    }
  }
}
