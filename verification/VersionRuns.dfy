/**
  A whole run of the version updater (tools/version/update_version_in_ten_framework.py) and the
  checker it must satisfy (tools/version/check_version_in_ten_framework.py).

  A run is a list of steps on a file system. A step that raises an exception ends the run and
  leaves what was written before.
 */
module VersionRuns {
  import opened Manifests

  // A path below the root of the repository, component by component.
  type Path = seq<string>

  type Files = map<Path, string>

  // What stays the same during a run, with the libraries the scripts call: json.load, json.dump
  // and the rendering of a template for this version and date.
  datatype Env = Env(
    version: string,
    parse: string -> Option<Json>,
    dump: Json -> string,
    render: string -> string)

  // json.load reads back what json.dump wrote, and rejects an empty file.
  ghost predicate Faithful(env: Env) {
    (forall j :: env.parse(env.dump(j)) == Some(j)) && env.parse("") == None
  }

  predicate Contains(text: string, part: string) {
    part <= text || (text != "" && Contains(text[1..], part))
  }

  datatype Step =
    | FromTemplate(path: Path, template: Path, marker: string)
    | SetVersion(path: Path, collect: bool)
    | SetVersionIfIn(path: Path, pkgs: seq<Pkg>)
    | SetDependencies(path: Path, pkgs: seq<Pkg>)

  datatype Outcome = Outcome(files: Files, ok: bool)

  // ---------- One step ----------

  // The manifest after the edit, or None where Python raises an exception.
  function Edited(env: Env, step: Step, j: Json): Option<Json>
    requires !step.FromTemplate?
  {
    if !j.Object? then None
    else
      match step
      case SetVersion(_, _) => Some(WithVersion(j, env.version))
      case SetVersionIfIn(_, pkgs) => Some(if PkgOf(j) in pkgs then WithVersion(j, env.version) else j)
      case SetDependencies(_, pkgs) => WithDependencies(j, env.version, pkgs)
  }

  function Load(env: Env, files: Files, path: Path): Option<Json> {
    if path in files then env.parse(files[path]) else None
  }

  // The manifest names its package: both manifest["type"] and manifest["name"] succeed.
  predicate Identified(j: Option<Json>) {
    j.Some? && j.value.Object? && Has(j.value.members, "type") && Has(j.value.members, "name")
  }

  // A manifest that does not exist is created empty, and then cannot be read.
  function EditFile(env: Env, files: Files, step: Step): Outcome
    requires !step.FromTemplate?
  {
    var j := Load(env, files, step.path);
    if step.path !in files then Outcome(files[step.path := ""], false)
    else if j.None? then Outcome(files, false)
    else
      var j' := Edited(env, step, j.value);
      if j'.None? then Outcome(files, false)
      else
        var files' := if j' == j then files else files[step.path := env.dump(j'.value)];
        Outcome(files', step.SetVersion? && step.collect ==> Identified(Load(env, files', step.path)))
  }

  function RenderFile(env: Env, files: Files, step: Step): Outcome
    requires step.FromTemplate?
  {
    if step.path in files && Contains(files[step.path], step.marker) then Outcome(files, true)
    else if step.template !in files then Outcome(files, false)
    else Outcome(files[step.path := env.render(files[step.template])], true)
  }

  function StepOn(env: Env, files: Files, step: Step): Outcome {
    if step.FromTemplate? then RenderFile(env, files, step) else EditFile(env, files, step)
  }

  function RunSteps(env: Env, files: Files, steps: seq<Step>): Outcome
    decreases |steps|
  {
    if steps == [] then Outcome(files, true)
    else
      var o := StepOn(env, files, steps[0]);
      if o.ok then RunSteps(env, o.files, steps[1..]) else o
  }

  // ---------- What a step achieves ----------

  predicate Done(env: Env, files: Files, step: Step) {
    var j := Load(env, files, step.path);
    match step
    case FromTemplate(path, template, marker) =>
      path in files && (Contains(files[path], marker) || (template in files && files[path] == env.render(files[template])))
    case SetVersion(_, collect) => j.Some? && HasVersion(j.value, env.version) && (collect ==> Identified(j))
    case SetVersionIfIn(_, pkgs) => j.Some? && j.value.Object? && (PkgOf(j.value) in pkgs ==> HasVersion(j.value, env.version))
    case SetDependencies(_, pkgs) => j.Some? && DepsHaveVersion(j.value, env.version, pkgs)
  }

  predicate WellFormed(step: Step) {
    step.FromTemplate? ==> step.path != step.template
  }

  lemma StepAchieves(env: Env, files: Files, step: Step)
    requires Faithful(env) && WellFormed(step) && StepOn(env, files, step).ok
    ensures Done(env, StepOn(env, files, step).files, step)
  {
    if !step.FromTemplate? {
      var j := Load(env, files, step.path).value;
      EditFollows(env, step, j, PkgsOf(step));
    }
  }

  // Where nothing is left to do, nothing is written.
  lemma DoneIsQuiet(env: Env, files: Files, step: Step)
    requires Done(env, files, step)
    ensures StepOn(env, files, step) == Outcome(files, true)
  {
    if step.FromTemplate? {
      assert step.template in files && files[step.path] == env.render(files[step.template])
             ==> files == files[step.path := env.render(files[step.template])];
    } else {
      var j := Load(env, files, step.path).value;
      VersionIsSet(j, env.version);
      if step.SetDependencies? && WithDependencies(j, env.version, step.pkgs).Some? {
        DependenciesAreSet(j, env.version, step.pkgs);
      }
    }
  }

  // The packages a step may give a version to as dependencies.
  function PkgsOf(step: Step): seq<Pkg> {
    if step.SetDependencies? then step.pkgs else []
  }

  lemma EditFollows(env: Env, step: Step, j: Json, pkgs: seq<Pkg>)
    requires !step.FromTemplate? && Edited(env, step, j).Some? && forall p | p in PkgsOf(step) :: p in pkgs
    ensures var j' := Edited(env, step, j).value;
            && Follows(j, j', env.version, pkgs)
            && (step.SetVersion? ==> HasVersion(j', env.version))
            && (step.SetVersionIfIn? && PkgOf(j') in step.pkgs ==> HasVersion(j', env.version))
            && (step.SetDependencies? ==> DepsHaveVersion(j', env.version, step.pkgs))
  {
    match step
    case SetVersion(_, _) =>
      VersionFollows(j, env.version, pkgs);
      VersionIsSet(j, env.version);
    case SetVersionIfIn(_, few) =>
      VersionFollows(j, env.version, pkgs);
      VersionIsSet(j, env.version);
      FollowsItself(j, env.version, pkgs);
    case SetDependencies(_, few) =>
      DependenciesFollow(j, env.version, few, pkgs);
      DependenciesAreSet(j, env.version, few);
  }

  // ---------- What a step leaves alone ----------

  // A file after some steps: the same text, or a manifest that is the same up to versions.
  predicate SameUpToVersions(env: Env, a: string, b: string, pkgs: seq<Pkg>) {
    || a == b
    || (env.parse(a).Some? && env.parse(b).Some? && Follows(env.parse(a).value, env.parse(b).value, env.version, pkgs))
  }

  // The files after some steps, other than the rendered ones.
  ghost predicate Preserved(env: Env, files: Files, files': Files, pkgs: seq<Pkg>, rendered: set<Path>) {
    forall p | p in files && p !in rendered :: p in files' && SameUpToVersions(env, files[p], files'[p], pkgs)
  }

  function Targets(steps: seq<Step>): set<Path> {
    set step | step in steps && step.FromTemplate? :: step.path
  }

  predicate PkgsWithin(steps: seq<Step>, pkgs: seq<Pkg>) {
    forall step | step in steps :: forall p | p in PkgsOf(step) :: p in pkgs
  }

  lemma SameUpToVersionsOn(env: Env, a: string, b: string, c: string, pkgs: seq<Pkg>)
    requires SameUpToVersions(env, a, b, pkgs) && SameUpToVersions(env, b, c, pkgs)
    ensures SameUpToVersions(env, a, c, pkgs)
  {
    if a != b && b != c {
      FollowsOn(env.parse(a).value, env.parse(b).value, env.parse(c).value, env.version, pkgs);
    }
  }

  // A step changes one file; a step that fails may have created it empty.
  lemma StepPreserves(env: Env, files: Files, step: Step, pkgs: seq<Pkg>)
    requires Faithful(env) && forall p | p in PkgsOf(step) :: p in pkgs
    ensures var o := StepOn(env, files, step);
            && Preserved(env, files, o.files, pkgs, Targets([step]))
            && (forall p | p != step.path :: (p in o.files <==> p in files) && (p in files ==> o.files[p] == files[p]))
            && (o.ok && !step.FromTemplate? ==> o.files.Keys == files.Keys)
  {
    if step.FromTemplate? {
      assert step in [step];
    } else {
      EditPreserves(env, files, step, pkgs);
    }
  }

  lemma EditPreserves(env: Env, files: Files, step: Step, pkgs: seq<Pkg>)
    requires Faithful(env) && !step.FromTemplate? && forall p | p in PkgsOf(step) :: p in pkgs
    ensures var o := EditFile(env, files, step);
            && (step.path in files ==> step.path in o.files && SameUpToVersions(env, files[step.path], o.files[step.path], pkgs))
            && (forall p | p != step.path :: (p in o.files <==> p in files) && (p in files ==> o.files[p] == files[p]))
            && (o.ok ==> o.files.Keys == files.Keys)
  {
    if step.path in files {
      var j := env.parse(files[step.path]);
      if j.Some? && Edited(env, step, j.value).Some? {
        EditFollows(env, step, j.value, pkgs);
      }
    }
  }

  // Collecting the package of a manifest may fail after its version was set.
  lemma CollectingStep(env: Env, files: Files, path: Path)
    ensures var o := StepOn(env, files, SetVersion(path, false));
            StepOn(env, files, SetVersion(path, true)) == Outcome(o.files, o.ok && Identified(Load(env, o.files, path)))
  {
    var j := Load(env, files, path);
    if j.Some? {
      assert Edited(env, SetVersion(path, true), j.value) == Edited(env, SetVersion(path, false), j.value);
    }
  }

  lemma ManifestStepPreserves(env: Env, files: Files, step: Step)
    requires Faithful(env) && !step.FromTemplate? && PkgsOf(step) == []
    ensures var o := StepOn(env, files, step);
            Preserved(env, files, o.files, [], {}) && (o.ok ==> o.files.Keys == files.Keys)
  {
    StepPreserves(env, files, step, []);
    assert Targets([step]) == {};
  }

  // Whatever happens, even if the run is cut short by an exception.
  lemma {:induction false} RunPreserves(env: Env, files: Files, steps: seq<Step>, pkgs: seq<Pkg>)
    requires Faithful(env) && PkgsWithin(steps, pkgs)
    ensures Preserved(env, files, RunSteps(env, files, steps).files, pkgs, Targets(steps))
    decreases |steps|
  {
    if steps != [] {
      var o := StepOn(env, files, steps[0]);
      assert steps[0] in steps;
      StepPreserves(env, files, steps[0], pkgs);
      assert forall p | p in Targets([steps[0]]) :: p in Targets(steps);
      if o.ok {
        RunPreserves(env, o.files, steps[1..], pkgs);
        assert forall p | p in Targets(steps[1..]) :: p in Targets(steps);
        var end := RunSteps(env, o.files, steps[1..]).files;
        forall p | p in files && p !in Targets(steps)
          ensures p in end && SameUpToVersions(env, files[p], end[p], pkgs)
        {
          SameUpToVersionsOn(env, files[p], o.files[p], end[p], pkgs);
        }
      }
    }
  }

  // ---------- What was achieved stays achieved ----------

  // a does not write what b has rendered or renders from, or the other way round.
  predicate Apart(a: Step, b: Step) {
    && (a.FromTemplate? || b.FromTemplate? ==> a.path != b.path)
    && (b.FromTemplate? ==> a.path != b.template)
  }

  lemma StepKeepsDone(env: Env, files: Files, a: Step, b: Step)
    requires Faithful(env) && Apart(a, b) && Done(env, files, b) && StepOn(env, files, a).ok
    ensures Done(env, StepOn(env, files, a).files, b)
  {
    var files' := StepOn(env, files, a).files;
    StepPreserves(env, files, a, PkgsOf(a));
    if a.path == b.path {
      var j, j' := env.parse(files[a.path]).value, env.parse(files'[a.path]).value;
      EditFollows(env, a, j, PkgsOf(a));
      FollowsItself(j, env.version, PkgsOf(a));
      assert Follows(j, j', env.version, PkgsOf(a));
      FollowingKeepsVersions(j, j', env.version, PkgsOf(a), PkgsOf(b));
    }
  }

  lemma {:induction false} RunKeepsDone(env: Env, files: Files, steps: seq<Step>, b: Step)
    requires Faithful(env) && Done(env, files, b) && RunSteps(env, files, steps).ok
    requires forall a | a in steps :: Apart(a, b)
    ensures Done(env, RunSteps(env, files, steps).files, b)
    decreases |steps|
  {
    if steps != [] {
      assert steps[0] in steps;
      StepKeepsDone(env, files, steps[0], b);
      RunKeepsDone(env, StepOn(env, files, steps[0]).files, steps[1..], b);
    }
  }

  predicate AllApart(steps: seq<Step>) {
    && (forall step | step in steps :: WellFormed(step))
    && forall i, j | 0 <= i < j < |steps| :: Apart(steps[j], steps[i])
  }

  // After a successful run every step is done, the first as well as the last.
  lemma {:induction false} RunAchieves(env: Env, files: Files, steps: seq<Step>)
    requires Faithful(env) && AllApart(steps) && RunSteps(env, files, steps).ok
    ensures forall step | step in steps :: Done(env, RunSteps(env, files, steps).files, step)
    decreases |steps|
  {
    if steps != [] {
      var o := StepOn(env, files, steps[0]);
      assert steps[0] in steps;
      StepAchieves(env, files, steps[0]);
      RunKeepsDone(env, o.files, steps[1..], steps[0]);
      RunAchieves(env, o.files, steps[1..]);
      assert steps == [steps[0]] + steps[1..];
    }
  }

  // Repeating steps that are done changes no file.
  lemma {:induction false} DoneRunIsQuiet(env: Env, files: Files, steps: seq<Step>)
    requires forall step | step in steps :: Done(env, files, step)
    ensures RunSteps(env, files, steps) == Outcome(files, true)
    decreases |steps|
  {
    if steps != [] {
      assert steps[0] in steps;
      DoneIsQuiet(env, files, steps[0]);
      DoneRunIsQuiet(env, files, steps[1..]);
    }
  }
}
