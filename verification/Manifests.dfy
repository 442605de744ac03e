/**
  Manifests as the version scripts see them, and the edits the scripts make
  (tools/version/common.py). Objects are ordered, as Python's dictionaries are.
 */
module Manifests {

  datatype Option<T> = None | Some(value: T)

  datatype Json =
    | Null
    | Str(text: string)
    | Raw(text: string) // a number or a boolean
    | Array(items: seq<Json>)
    | Object(members: seq<Member>)

  datatype Member = Member(key: string, value: Json)

  // ---------- Dictionaries ----------

  // dict.get(key): None, which is also what null is read as, for a missing key
  function Get(ms: seq<Member>, key: string): Json {
    if ms == [] then Null else if ms[0].key == key then ms[0].value else Get(ms[1..], key)
  }

  predicate Has(ms: seq<Member>, key: string) {
    ms != [] && (ms[0].key == key || Has(ms[1..], key))
  }

  // dict[key] = value: in place, or at the end for a new key
  function Set(ms: seq<Member>, key: string, value: Json): seq<Member> {
    if ms == [] then [Member(key, value)]
    else if ms[0].key == key then [Member(key, value)] + ms[1..]
    else [ms[0]] + Set(ms[1..], key, value)
  }

  lemma {:induction false} GetAfterSet(ms: seq<Member>, key: string, value: Json, other: string)
    ensures Get(Set(ms, key, value), other) == if other == key then value else Get(ms, other)
    ensures Has(Set(ms, key, value), other) <==> other == key || Has(ms, other)
  {
    if ms != [] && ms[0].key != key {
      GetAfterSet(ms[1..], key, value, other);
    }
  }

  lemma {:induction false} SetSame(ms: seq<Member>, key: string)
    requires Has(ms, key)
    ensures Set(ms, key, Get(ms, key)) == ms
  {
    if ms[0].key != key {
      SetSame(ms[1..], key);
    } else {
      assert ms == [Member(key, ms[0].value)] + ms[1..];
    }
  }

  // ---------- Edits ----------

  datatype Pkg = Pkg(pkgType: Json, name: Json)

  function PkgOf(j: Json): Pkg {
    if j.Object? then Pkg(Get(j.members, "type"), Get(j.members, "name")) else Pkg(Null, Null)
  }

  predicate HasVersion(j: Json, version: string) {
    j.Object? && Get(j.members, "version") == Str(version)
  }

  function WithVersion(j: Json, version: string): Json
    requires j.Object?
  {
    if HasVersion(j, version) then j else Object(Set(j.members, "version", Str(version)))
  }

  // What a Python loop over data.get("dependencies", []) goes through; None stands for the
  // exception raised by the loop itself or by asking its first element for a key.
  function Dependencies(j: Json): (r: Option<seq<Json>>)
    requires j.Object?
    ensures r.Some? ==> forall i | 0 <= i < |r.value| :: r.value[i].Object?
  {
    if !Has(j.members, "dependencies") then Some([])
    else
      match Get(j.members, "dependencies")
      case Array(items) => if forall i | 0 <= i < |items| :: items[i].Object? then Some(items) else None
      case Str(text) => if text == "" then Some([]) else None
      case Object(members) => if members == [] then Some([]) else None
      case _ => None
  }

  function DepWithVersion(d: Json, version: string, pkgs: seq<Pkg>): Json
    requires d.Object?
  {
    if PkgOf(d) in pkgs then WithVersion(d, version) else d
  }

  function DepsWithVersion(items: seq<Json>, version: string, pkgs: seq<Pkg>): (r: seq<Json>)
    requires forall i | 0 <= i < |items| :: items[i].Object?
    ensures |r| == |items|
  {
    seq(|items|, i requires 0 <= i < |items| => DepWithVersion(items[i], version, pkgs))
  }

  function WithDependencies(j: Json, version: string, pkgs: seq<Pkg>): Option<Json>
    requires j.Object?
  {
    var deps := Dependencies(j);
    if deps.None? then None
    else if deps.value == [] then Some(j)
    else Some(Object(Set(j.members, "dependencies", Array(DepsWithVersion(deps.value, version, pkgs)))))
  }

  lemma VersionIsSet(j: Json, version: string)
    requires j.Object?
    ensures var j' := WithVersion(j, version);
            && HasVersion(j', version) && PkgOf(j') == PkgOf(j)
            && Dependencies(j') == Dependencies(j)
            && (j' == j <==> HasVersion(j, version))
  {
    GetAfterSet(j.members, "version", Str(version), "version");
    GetAfterSet(j.members, "version", Str(version), "type");
    GetAfterSet(j.members, "version", Str(version), "name");
    GetAfterSet(j.members, "version", Str(version), "dependencies");
  }

  // Everything the scripts never change: versions taken out, at the top and in dependencies.
  function WithoutVersion(ms: seq<Member>): seq<Member> {
    if ms == [] then []
    else (if ms[0].key == "version" then [] else [ms[0]]) + WithoutVersion(ms[1..])
  }

  function StripDep(d: Json): Json {
    if d.Object? then Object(WithoutVersion(d.members)) else d
  }

  function StripDeps(j: Json): Json {
    if j.Array? then Array(seq(|j.items|, i requires 0 <= i < |j.items| => StripDep(j.items[i]))) else j
  }

  function StripMembers(ms: seq<Member>): seq<Member> {
    if ms == [] then []
    else
      (if ms[0].key == "version" then []
       else if ms[0].key == "dependencies" then [Member(ms[0].key, StripDeps(ms[0].value))]
       else [ms[0]]) + StripMembers(ms[1..])
  }

  function Stripped(j: Json): Json {
    if j.Object? then Object(StripMembers(j.members)) else j
  }

  lemma {:induction false} StripSetVersion(ms: seq<Member>, value: Json)
    ensures StripMembers(Set(ms, "version", value)) == StripMembers(ms)
    ensures WithoutVersion(Set(ms, "version", value)) == WithoutVersion(ms)
  {
    if ms == [] {
      assert [Member("version", value)][1..] == [];
    } else if ms[0].key == "version" {
      assert ([Member("version", value)] + ms[1..])[1..] == ms[1..];
    } else {
      StripSetVersion(ms[1..], value);
      assert ([ms[0]] + Set(ms[1..], "version", value))[1..] == Set(ms[1..], "version", value);
    }
  }

  lemma {:induction false} StripSetDeps(ms: seq<Member>, value: Json)
    requires Has(ms, "dependencies") && StripDeps(value) == StripDeps(Get(ms, "dependencies"))
    ensures StripMembers(Set(ms, "dependencies", value)) == StripMembers(ms)
  {
    if ms[0].key == "dependencies" {
      assert ([Member("dependencies", value)] + ms[1..])[1..] == ms[1..];
    } else {
      StripSetDeps(ms[1..], value);
      assert ([ms[0]] + Set(ms[1..], "dependencies", value))[1..] == Set(ms[1..], "dependencies", value);
    }
  }

  lemma DepKeepsRest(d: Json, version: string, pkgs: seq<Pkg>)
    requires d.Object?
    ensures var d' := DepWithVersion(d, version, pkgs);
            d'.Object? && PkgOf(d') == PkgOf(d) && StripDep(d') == StripDep(d)
            && Get(d'.members, "version") == (if PkgOf(d) in pkgs then Str(version) else Get(d.members, "version"))
  {
    VersionIsSet(d, version);
    StripSetVersion(d.members, Str(version));
  }

  // All dependencies named in pkgs have the version.
  predicate DepsHaveVersion(j: Json, version: string, pkgs: seq<Pkg>) {
    && j.Object? && Dependencies(j).Some?
    && forall i | 0 <= i < |Dependencies(j).value| ::
         PkgOf(Dependencies(j).value[i]) in pkgs ==> HasVersion(Dependencies(j).value[i], version)
  }

  // The edit of the dependencies does what it should: nothing else changes, and no dependency
  // changes its place.
  lemma DependenciesAreSet(j: Json, version: string, pkgs: seq<Pkg>)
    requires j.Object? && WithDependencies(j, version, pkgs).Some?
    ensures var j' := WithDependencies(j, version, pkgs).value;
            && DepsHaveVersion(j', version, pkgs)
            && Stripped(j') == Stripped(j)
            && PkgOf(j') == PkgOf(j) && Get(j'.members, "version") == Get(j.members, "version")
            && Dependencies(j').value == DepsWithVersion(Dependencies(j).value, version, pkgs)
            && (j' == j <==> DepsHaveVersion(j, version, pkgs))
  {
    var items := Dependencies(j).value;
    var items' := DepsWithVersion(items, version, pkgs);
    if items != [] {
      forall i | 0 <= i < |items|
        ensures items'[i].Object? && PkgOf(items'[i]) == PkgOf(items[i]) && StripDep(items'[i]) == StripDep(items[i])
        ensures Get(items'[i].members, "version")
             == if PkgOf(items[i]) in pkgs then Str(version) else Get(items[i].members, "version")
      {
        DepKeepsRest(items[i], version, pkgs);
      }
      assert StripDeps(Array(items')) == StripDeps(Array(items));
      StripSetDeps(j.members, Array(items'));
      GetAfterSet(j.members, "dependencies", Array(items'), "dependencies");
      GetAfterSet(j.members, "dependencies", Array(items'), "type");
      GetAfterSet(j.members, "dependencies", Array(items'), "name");
      GetAfterSet(j.members, "dependencies", Array(items'), "version");
      if DepsHaveVersion(j, version, pkgs) {
        assert items' == items;
        SetSame(j.members, "dependencies");
      }
    }
  }

  // ---------- What edits keep ----------

  // d' is d, or d with the version where pkgs names it.
  predicate DepFollows(d: Json, d': Json, version: string, pkgs: seq<Pkg>) {
    && d.Object? && d'.Object? && StripDep(d') == StripDep(d) && PkgOf(d') == PkgOf(d)
    && (Get(d'.members, "version") == Get(d.members, "version") || (PkgOf(d) in pkgs && HasVersion(d', version)))
  }

  // j' is j up to versions: the top-level one may have become `version`, and so may those of
  // dependencies named in pkgs. Nothing else differs, and nothing has changed its place.
  predicate Follows(j: Json, j': Json, version: string, pkgs: seq<Pkg>) {
    && j.Object? && j'.Object? && Stripped(j') == Stripped(j) && PkgOf(j') == PkgOf(j)
    && (Get(j'.members, "version") == Get(j.members, "version") || HasVersion(j', version))
    && (Has(j.members, "type") <==> Has(j'.members, "type"))
    && (Has(j.members, "name") <==> Has(j'.members, "name"))
    && (Dependencies(j).Some? <==> Dependencies(j').Some?)
    && (Dependencies(j).Some? ==>
          && |Dependencies(j).value| == |Dependencies(j').value|
          && forall i | 0 <= i < |Dependencies(j).value| ::
               DepFollows(Dependencies(j).value[i], Dependencies(j').value[i], version, pkgs))
  }

  lemma FollowsItself(j: Json, version: string, pkgs: seq<Pkg>)
    requires j.Object?
    ensures Follows(j, j, version, pkgs)
  {
  }

  lemma DepFollowsOn(a: Json, b: Json, c: Json, version: string, pkgs: seq<Pkg>)
    requires DepFollows(a, b, version, pkgs) && DepFollows(b, c, version, pkgs)
    ensures DepFollows(a, c, version, pkgs)
  {
  }

  lemma FollowsOn(a: Json, b: Json, c: Json, version: string, pkgs: seq<Pkg>)
    requires Follows(a, b, version, pkgs) && Follows(b, c, version, pkgs)
    ensures Follows(a, c, version, pkgs)
  {
    if Dependencies(a).Some? {
      forall i | 0 <= i < |Dependencies(a).value|
        ensures DepFollows(Dependencies(a).value[i], Dependencies(c).value[i], version, pkgs)
      {
        DepFollowsOn(Dependencies(a).value[i], Dependencies(b).value[i], Dependencies(c).value[i], version, pkgs);
      }
    }
  }

  lemma VersionFollows(j: Json, version: string, pkgs: seq<Pkg>)
    requires j.Object?
    ensures Follows(j, WithVersion(j, version), version, pkgs)
  {
    VersionIsSet(j, version);
    GetAfterSet(j.members, "version", Str(version), "type");
    GetAfterSet(j.members, "version", Str(version), "name");
    StripSetVersion(j.members, Str(version));
  }

  lemma DependenciesFollow(j: Json, version: string, few: seq<Pkg>, pkgs: seq<Pkg>)
    requires j.Object? && WithDependencies(j, version, few).Some? && forall p | p in few :: p in pkgs
    ensures Follows(j, WithDependencies(j, version, few).value, version, pkgs)
  {
    DependenciesAreSet(j, version, few);
    var items := Dependencies(j).value;
    var j' := WithDependencies(j, version, few).value;
    GetAfterSet(j.members, "dependencies", Array(DepsWithVersion(items, version, few)), "type");
    GetAfterSet(j.members, "dependencies", Array(DepsWithVersion(items, version, few)), "name");
    if items != [] {
      GetAfterSet(j.members, "dependencies", Array(DepsWithVersion(items, version, few)), "dependencies");
      forall i | 0 <= i < |items|
        ensures DepFollows(items[i], DepsWithVersion(items, version, few)[i], version, pkgs)
      {
        DepKeepsRest(items[i], version, few);
      }
    }
  }

  // Once set, versions stay set.
  lemma FollowingKeepsVersions(j: Json, j': Json, version: string, pkgs: seq<Pkg>, asked: seq<Pkg>)
    requires Follows(j, j', version, pkgs)
    ensures HasVersion(j, version) ==> HasVersion(j', version)
    ensures DepsHaveVersion(j, version, asked) ==> DepsHaveVersion(j', version, asked)
  {
    if DepsHaveVersion(j, version, asked) {
      forall i | 0 <= i < |Dependencies(j').value| && PkgOf(Dependencies(j').value[i]) in asked
        ensures HasVersion(Dependencies(j').value[i], version)
      {
        assert DepFollows(Dependencies(j).value[i], Dependencies(j').value[i], version, pkgs);
      }
    }
  }
}
