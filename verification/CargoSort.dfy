/**
  Sorting and inlining the dependencies of a Cargo.toml (tools/rust/cargo_toml_sort.py).

  The key under which two names are compared is a parameter `fold`: the script uses
  str.lower, and everything here holds of any such function.
 */
module CargoSort {

  // ---------- The document ----------

  datatype Scalar = Text(text: string) | Raw(toml: string)

  datatype Field = Field(key: string, value: Scalar)

  datatype Value =
    | Str(text: string)
    | InlineTable(fields: seq<Field>)
    | Table(fields: seq<Field>)
    | Other(toml: string) // a number, a boolean, a date or an array

  datatype Dep = Dep(key: string, value: Value)

  // What a top-level key of the document holds.
  datatype Item = Section(deps: seq<Dep>) | NotATable(toml: string)

  datatype Entry = Entry(name: string, item: Item)

  const Sections := ["dependencies", "dev-dependencies", "build-dependencies"]

  predicate UniqueKeys(deps: seq<Dep>) {
    forall i, j | 0 <= i < j < |deps| :: deps[i].key != deps[j].key
  }

  predicate UniqueFields(fields: seq<Field>) {
    forall i, j | 0 <= i < j < |fields| :: fields[i].key != fields[j].key
  }

  // TOML forbids defining a key twice.
  predicate ValidDeps(deps: seq<Dep>) {
    UniqueKeys(deps) && forall i | 0 <= i < |deps| :: deps[i].value.Table? ==> UniqueFields(deps[i].value.fields)
  }

  predicate ValidDocument(d: seq<Entry>) {
    && (forall i, j | 0 <= i < j < |d| :: d[i].name != d[j].name)
    && (forall i | 0 <= i < |d| :: d[i].item.Section? ==> ValidDeps(d[i].item.deps))
  }

  // ---------- Order of strings ----------

  predicate Le(a: string, b: string) {
    a == [] || (b != [] && (a[0] < b[0] || (a[0] == b[0] && Le(a[1..], b[1..]))))
  }

  lemma {:induction false} LeTotal(a: string, b: string)
    ensures Le(a, b) || Le(b, a)
    ensures Le(a, b) && Le(b, a) ==> a == b
  {
    if a != [] && b != [] && a[0] == b[0] {
      LeTotal(a[1..], b[1..]);
      assert a == [a[0]] + a[1..] && b == [b[0]] + b[1..];
    }
  }

  lemma {:induction false} LeTransitive(a: string, b: string, c: string)
    requires Le(a, b) && Le(b, c)
    ensures Le(a, c)
  {
    if a != [] && a[0] == b[0] == c[0] {
      LeTransitive(a[1..], b[1..], c[1..]);
    }
  }

  // The order of strings: a proper beginning comes first, and otherwise the first character
  // in which they differ decides.
  lemma {:induction false} LeIsLexicographic(a: string, b: string)
    ensures Le(a, b) <==> a <= b || exists k: nat :: k < |a| && k < |b| && a[..k] == b[..k] && a[k] < b[k]
  {
    if a != [] && b != [] && a[0] == b[0] {
      LeIsLexicographic(a[1..], b[1..]);
      assert a <= b <==> a[1..] <= b[1..] by {
        assert a == [a[0]] + a[1..] && b == [b[0]] + b[1..];
      }
      forall k: nat | k < |a| - 1 && k < |b| - 1
        ensures a[1..][..k] == b[1..][..k] <==> a[..k + 1] == b[..k + 1]
      {
        assert a[..k + 1] == [a[0]] + a[1..][..k] && b[..k + 1] == [b[0]] + b[1..][..k];
      }
      if k: nat :| k < |a| && k < |b| && a[..k] == b[..k] && a[k] < b[k] {
        var i: nat := k - 1;
        assert a[1..][..i] == b[1..][..i] && a[1..][i] < b[1..][i];
      }
      if i: nat :| i < |a[1..]| && i < |b[1..]| && a[1..][..i] == b[1..][..i] && a[1..][i] < b[1..][i] {
        assert a[..i + 1] == b[..i + 1] && a[i + 1] < b[i + 1];
      }
    } else if a != [] && b != [] && a[0] < b[0] {
      assert a[..0] == b[..0];
    } else if k: nat :| k < |a| && k < |b| && a[..k] == b[..k] && a[k] < b[k] {
      assert k > 0 ==> a[..k][0] == b[..k][0];
    }
  }

  // ---------- Python's sorted(), a stable sort ----------

  function Insert(fold: string -> string, d: Dep, s: seq<Dep>): seq<Dep> {
    if s == [] || Le(fold(d.key), fold(s[0].key)) then [d] + s
    else [s[0]] + Insert(fold, d, s[1..])
  }

  function Sort(fold: string -> string, s: seq<Dep>): seq<Dep> {
    if s == [] then [] else Insert(fold, s[0], Sort(fold, s[1..]))
  }

  predicate Sorted(fold: string -> string, s: seq<Dep>) {
    forall i, j | 0 <= i < j < |s| :: Le(fold(s[i].key), fold(s[j].key))
  }

  // The entries that compare equal to k, in order.
  function Group(fold: string -> string, k: string, s: seq<Dep>): seq<Dep> {
    if s == [] then []
    else (if fold(s[0].key) == k then [s[0]] else []) + Group(fold, k, s[1..])
  }

  // A stable rearrangement: entries that compare equal keep their order.
  ghost predicate SameGroups(fold: string -> string, a: seq<Dep>, b: seq<Dep>) {
    forall k :: Group(fold, k, a) == Group(fold, k, b)
  }

  lemma {:induction false} InsertGroups(fold: string -> string, k: string, d: Dep, s: seq<Dep>)
    ensures Group(fold, k, Insert(fold, d, s)) == Group(fold, k, [d] + s)
  {
    if s != [] && !Le(fold(d.key), fold(s[0].key)) {
      LeTotal(fold(d.key), fold(s[0].key));
      InsertGroups(fold, k, d, s[1..]);
      assert ([d] + s[1..])[1..] == s[1..] && ([d] + s)[1..] == s;
    }
  }

  lemma {:induction false} SortIsStable(fold: string -> string, s: seq<Dep>)
    ensures SameGroups(fold, Sort(fold, s), s)
  {
    if s != [] {
      SortIsStable(fold, s[1..]);
      forall k
        ensures Group(fold, k, Sort(fold, s)) == Group(fold, k, s)
      {
        InsertGroups(fold, k, s[0], Sort(fold, s[1..]));
        assert ([s[0]] + Sort(fold, s[1..]))[1..] == Sort(fold, s[1..]);
      }
    }
  }

  lemma {:induction false} InsertElements(fold: string -> string, d: Dep, s: seq<Dep>)
    ensures multiset(Insert(fold, d, s)) == multiset{d} + multiset(s)
  {
    if s != [] && !Le(fold(d.key), fold(s[0].key)) {
      InsertElements(fold, d, s[1..]);
      assert s == [s[0]] + s[1..];
    }
  }

  lemma {:induction false} InsertSorted(fold: string -> string, d: Dep, s: seq<Dep>)
    requires Sorted(fold, s)
    ensures Sorted(fold, Insert(fold, d, s))
  {
    if s != [] {
      if Le(fold(d.key), fold(s[0].key)) {
        forall i | 0 <= i < |s|
          ensures Le(fold(d.key), fold(s[i].key))
        {
          if i > 0 {
            LeTransitive(fold(d.key), fold(s[0].key), fold(s[i].key));
          }
        }
      } else {
        LeTotal(fold(d.key), fold(s[0].key));
        var rest := Insert(fold, d, s[1..]);
        InsertSorted(fold, d, s[1..]);
        InsertElements(fold, d, s[1..]);
        forall i | 0 <= i < |rest|
          ensures Le(fold(s[0].key), fold(rest[i].key))
        {
          assert rest[i] in multiset(rest);
          assert rest[i] == d || rest[i] in s[1..];
        }
      }
    }
  }

  lemma {:induction false} SortSorts(fold: string -> string, s: seq<Dep>)
    ensures Sorted(fold, Sort(fold, s)) && multiset(Sort(fold, s)) == multiset(s)
  {
    if s != [] {
      SortSorts(fold, s[1..]);
      InsertSorted(fold, s[0], Sort(fold, s[1..]));
      InsertElements(fold, s[0], Sort(fold, s[1..]));
      assert s == [s[0]] + s[1..];
    }
  }

  lemma {:induction false} InItsGroup(fold: string -> string, s: seq<Dep>, i: nat)
    requires i < |s|
    ensures s[i] in Group(fold, fold(s[i].key), s)
  {
    if i > 0 {
      InItsGroup(fold, s[1..], i - 1);
    }
  }

  lemma {:induction false} GroupInside(fold: string -> string, k: string, s: seq<Dep>, d: Dep)
    requires d in Group(fold, k, s)
    ensures d in s && fold(d.key) == k
  {
    if !(fold(s[0].key) == k && d == s[0]) {
      GroupInside(fold, k, s[1..], d);
    }
  }

  lemma SameGroupsSameElements(fold: string -> string, a: seq<Dep>, b: seq<Dep>, i: nat)
    requires SameGroups(fold, a, b) && i < |a|
    ensures a[i] in b
  {
    InItsGroup(fold, a, i);
    assert Group(fold, fold(a[i].key), a) == Group(fold, fold(a[i].key), b);
    GroupInside(fold, fold(a[i].key), b, a[i]);
  }

  lemma SmallestFirst(fold: string -> string, a: seq<Dep>, b: seq<Dep>)
    requires Sorted(fold, a) && Sorted(fold, b) && SameGroups(fold, a, b) && a != [] && b != []
    ensures Le(fold(b[0].key), fold(a[0].key))
  {
    SameGroupsSameElements(fold, a, b, 0);
    var j :| 0 <= j < |b| && b[j] == a[0];
    if j == 0 {
      LeTotal(fold(a[0].key), fold(a[0].key));
    }
  }

  // Whatever algorithm sorts, the result is the same.
  lemma {:induction false} StableSortIsUnique(fold: string -> string, a: seq<Dep>, b: seq<Dep>)
    requires Sorted(fold, a) && Sorted(fold, b) && SameGroups(fold, a, b)
    ensures a == b
  {
    if a == [] {
      if b != [] {
        SameGroupsSameElements(fold, b, a, 0);
      }
    } else if b == [] {
      SameGroupsSameElements(fold, a, b, 0);
    } else {
      SmallestFirst(fold, a, b);
      SmallestFirst(fold, b, a);
      LeTotal(fold(a[0].key), fold(b[0].key));
      var k0 := fold(a[0].key);
      assert Group(fold, k0, a) == Group(fold, k0, b);
      assert Group(fold, k0, a)[0] == a[0] && Group(fold, k0, b)[0] == b[0];
      forall k
        ensures Group(fold, k, a[1..]) == Group(fold, k, b[1..])
      {
        var head := if k == k0 then [a[0]] else [];
        assert Group(fold, k, a) == Group(fold, k, b);
        assert Group(fold, k, a) == head + Group(fold, k, a[1..]);
        assert Group(fold, k, b) == head + Group(fold, k, b[1..]);
        assert Group(fold, k, a)[|head|..] == Group(fold, k, a[1..]);
        assert Group(fold, k, b)[|head|..] == Group(fold, k, b[1..]);
      }
      StableSortIsUnique(fold, a[1..], b[1..]);
      assert a == [a[0]] + a[1..] && b == [b[0]] + b[1..];
    }
  }

  // ---------- Inlining ----------

  // What Cargo makes of a dependency: a string is short for a table with that version.
  function Meaning(v: Value): seq<Field>
    requires !v.Other?
  {
    match v
    case Str(text) => [Field("version", Text(text))]
    case InlineTable(fields) => fields
    case Table(fields) => fields
  }

  // The rewritten dependencies: those of any other type are dropped.
  function Inlined(s: seq<Dep>): seq<Dep> {
    if s == [] then []
    else (if s[0].value.Other? then [] else [Dep(s[0].key, InlineTable(Meaning(s[0].value)))]) + Inlined(s[1..])
  }

  function Rewritten(fold: string -> string, item: Item): Item {
    if item.Section? then Section(Inlined(Sort(fold, item.deps))) else item
  }

  function RewrittenDocument(fold: string -> string, d: seq<Entry>): seq<Entry> {
    seq(|d|, i requires 0 <= i < |d| =>
      if d[i].name in Sections then Entry(d[i].name, Rewritten(fold, d[i].item)) else d[i])
  }

  lemma {:induction false} InlinedAppend(s: seq<Dep>, d: Dep)
    ensures Inlined(s + [d]) == Inlined(s) + Inlined([d])
  {
    if s == [] {
      assert [] + [d] == [d];
    } else {
      assert (s + [d])[0] == s[0] && (s + [d])[1..] == s[1..] + [d];
      InlinedAppend(s[1..], d);
    }
  }

  // An entry of the result stands for an entry of the source, and the other way round.
  lemma {:induction false} InlinedElements(s: seq<Dep>, r: Dep)
    ensures r in Inlined(s) <==>
              exists d | d in s :: !d.value.Other? && r == Dep(d.key, InlineTable(Meaning(d.value)))
  {
    if s != [] {
      InlinedElements(s[1..], r);
      assert s == [s[0]] + s[1..];
    }
  }

  lemma {:induction false} InlinedSorted(fold: string -> string, s: seq<Dep>)
    requires Sorted(fold, s)
    ensures Sorted(fold, Inlined(s))
  {
    if s != [] {
      InlinedSorted(fold, s[1..]);
      var rest := Inlined(s[1..]);
      forall j | 0 <= j < |rest|
        ensures Le(fold(s[0].key), fold(rest[j].key))
      {
        InlinedElements(s[1..], rest[j]);
      }
    }
  }

  lemma {:induction false} InlinedGroup(fold: string -> string, k: string, s: seq<Dep>)
    ensures Group(fold, k, Inlined(s)) == Inlined(Group(fold, k, s))
  {
    if s != [] {
      var rest := Inlined(s[1..]);
      InlinedGroup(fold, k, s[1..]);
      if !s[0].value.Other? {
        var head := Dep(s[0].key, InlineTable(Meaning(s[0].value)));
        assert ([head] + rest)[1..] == rest;
      } else {
        assert Inlined(s) == [] + rest == rest;
      }
      if fold(s[0].key) == k {
        assert ([s[0]] + Group(fold, k, s[1..]))[1..] == Group(fold, k, s[1..]);
      } else {
        assert Group(fold, k, s) == [] + Group(fold, k, s[1..]) == Group(fold, k, s[1..]);
      }
    }
  }

  // The new table is the stable rearrangement, by folded name, of the inlined dependencies:
  // this characterises it, and nothing else does.
  lemma RewrittenIsTheStableSort(fold: string -> string, deps: seq<Dep>, r: seq<Dep>)
    ensures r == Inlined(Sort(fold, deps)) <==> Sorted(fold, r) && SameGroups(fold, r, Inlined(deps))
  {
    var t := Inlined(Sort(fold, deps));
    SortSorts(fold, deps);
    SortIsStable(fold, deps);
    InlinedSorted(fold, Sort(fold, deps));
    forall k
      ensures Group(fold, k, t) == Group(fold, k, Inlined(deps))
    {
      InlinedGroup(fold, k, Sort(fold, deps));
      InlinedGroup(fold, k, deps);
    }
    if Sorted(fold, r) && SameGroups(fold, r, Inlined(deps)) {
      StableSortIsUnique(fold, r, t);
    }
  }

  // ---------- Unique keys ----------

  lemma {:induction false} InsertUnique(fold: string -> string, d: Dep, s: seq<Dep>)
    requires UniqueKeys(s) && forall i | 0 <= i < |s| :: s[i].key != d.key
    ensures UniqueKeys(Insert(fold, d, s))
  {
    if s != [] && !Le(fold(d.key), fold(s[0].key)) {
      var rest := Insert(fold, d, s[1..]);
      InsertUnique(fold, d, s[1..]);
      InsertElements(fold, d, s[1..]);
      forall i | 0 <= i < |rest|
        ensures rest[i].key != s[0].key
      {
        assert rest[i] in multiset(rest);
        assert rest[i] == d || rest[i] in s[1..];
      }
    }
  }

  lemma SortedElements(fold: string -> string, s: seq<Dep>, d: Dep)
    ensures d in Sort(fold, s) <==> d in s
  {
    SortSorts(fold, s);
    assert d in Sort(fold, s) <==> d in multiset(Sort(fold, s));
    assert d in s <==> d in multiset(s);
  }

  lemma {:induction false} SortValid(fold: string -> string, s: seq<Dep>)
    requires ValidDeps(s)
    ensures ValidDeps(Sort(fold, s))
  {
    if s != [] {
      var rest := Sort(fold, s[1..]);
      SortValid(fold, s[1..]);
      forall i | 0 <= i < |rest|
        ensures rest[i].key != s[0].key
      {
        SortedElements(fold, s[1..], rest[i]);
      }
      InsertUnique(fold, s[0], rest);
      forall i | 0 <= i < |Sort(fold, s)|
        ensures Sort(fold, s)[i] in s
      {
        SortedElements(fold, s, Sort(fold, s)[i]);
      }
    }
  }

  lemma {:induction false} InlinedUnique(s: seq<Dep>)
    requires UniqueKeys(s)
    ensures UniqueKeys(Inlined(s))
  {
    if s != [] {
      InlinedUnique(s[1..]);
      var rest := Inlined(s[1..]);
      forall i | 0 <= i < |rest|
        ensures rest[i].key != s[0].key
      {
        InlinedElements(s[1..], rest[i]);
      }
    }
  }

  // ---------- What the rewriting keeps ----------

  datatype Option<T> = None | Some(value: T)

  function Find(deps: seq<Dep>, key: string): Option<Value> {
    if deps == [] then None
    else if deps[0].key == key then Some(deps[0].value)
    else Find(deps[1..], key)
  }

  lemma {:induction false} FindIsMembership(deps: seq<Dep>, key: string, v: Value)
    requires UniqueKeys(deps)
    ensures Find(deps, key) == Some(v) <==> Dep(key, v) in deps
  {
    if deps != [] {
      FindIsMembership(deps[1..], key, v);
      assert deps == [deps[0]] + deps[1..];
      if Dep(key, v) in deps[1..] {
        var j :| 0 <= j < |deps[1..]| && deps[1..][j] == Dep(key, v);
        assert deps[j + 1].key == key;
      }
    }
  }

  // What Cargo makes of a name, for the values it accepts.
  function MeaningOf(deps: seq<Dep>, key: string): Option<seq<Field>> {
    var v := Find(deps, key);
    if v.Some? && !v.value.Other? then Some(Meaning(v.value)) else None
  }

  // Every dependency still means the same, whatever form it had, and is an inline table now.
  lemma MeaningIsKept(fold: string -> string, deps: seq<Dep>, key: string)
    requires ValidDeps(deps)
    ensures var r := Inlined(Sort(fold, deps));
            && MeaningOf(r, key) == MeaningOf(deps, key)
            && (Find(r, key) == None || Find(r, key).value.InlineTable?)
  {
    var s := Sort(fold, deps);
    var r := Inlined(s);
    SortValid(fold, deps);
    InlinedUnique(s);
    var before, after := Find(deps, key), Find(r, key);
    if before.Some? && !before.value.Other? {
      var v := InlineTable(Meaning(before.value));
      FindIsMembership(deps, key, before.value);
      SortedElements(fold, deps, Dep(key, before.value));
      InlinedElements(s, Dep(key, v));
      FindIsMembership(r, key, v);
    }
    if after.Some? {
      FindIsMembership(r, key, after.value);
      InlinedElements(s, Dep(key, after.value));
      var d :| d in s && !d.value.Other? && Dep(key, after.value) == Dep(d.key, InlineTable(Meaning(d.value)));
      SortedElements(fold, deps, d);
      FindIsMembership(deps, key, d.value);
    }
  }

  // A dependency is lost exactly when its value is of another type.
  lemma LostExactly(fold: string -> string, deps: seq<Dep>, key: string)
    requires ValidDeps(deps)
    ensures Find(deps, key).Some? && Find(Inlined(Sort(fold, deps)), key).None?
            <==> Find(deps, key).Some? && Find(deps, key).value.Other?
  {
    MeaningIsKept(fold, deps, key);
  }

  lemma {:induction false} InlinedLength(s: seq<Dep>)
    ensures |Inlined(s)| <= |s|
    ensures |Inlined(s)| == |s| <==> forall d | d in s :: !d.value.Other?
  {
    if s != [] {
      InlinedLength(s[1..]);
      assert s == [s[0]] + s[1..];
    }
  }

  // None is lost if and only if every value is a string, an inline table or a table.
  lemma NothingLostIff(fold: string -> string, deps: seq<Dep>)
    ensures |Inlined(Sort(fold, deps))| == |deps| <==> forall d | d in deps :: !d.value.Other?
  {
    SortSorts(fold, deps);
    assert |multiset(Sort(fold, deps))| == |Sort(fold, deps)| && |multiset(deps)| == |deps|;
    InlinedLength(Sort(fold, deps));
    forall d
      ensures d in Sort(fold, deps) <==> d in deps
    {
      SortedElements(fold, deps, d);
    }
  }

  lemma {:induction false} InlinedTwice(s: seq<Dep>)
    ensures Inlined(Inlined(s)) == Inlined(s)
  {
    if s != [] {
      var rest := Inlined(s[1..]);
      InlinedTwice(s[1..]);
      if !s[0].value.Other? {
        var head := Dep(s[0].key, InlineTable(Meaning(s[0].value)));
        assert ([head] + rest)[1..] == rest;
      } else {
        assert Inlined(s) == [] + rest == rest;
      }
    }
  }

  lemma TableIsStable(fold: string -> string, deps: seq<Dep>)
    ensures var t := Inlined(Sort(fold, deps)); Inlined(Sort(fold, t)) == t
  {
    var t := Inlined(Sort(fold, deps));
    SortSorts(fold, deps);
    InlinedSorted(fold, Sort(fold, deps));
    InlinedTwice(Sort(fold, deps));
    RewrittenIsTheStableSort(fold, t, t);
  }

  // A second run of the script changes nothing.
  lemma Idempotent(fold: string -> string, d: seq<Entry>)
    ensures RewrittenDocument(fold, RewrittenDocument(fold, d)) == RewrittenDocument(fold, d)
  {
    forall i | 0 <= i < |d| && d[i].item.Section?
      ensures Rewritten(fold, Rewritten(fold, d[i].item)) == Rewritten(fold, d[i].item)
    {
      TableIsStable(fold, d[i].item.deps);
    }
  }

  // Nothing but the three sections is touched, and all names stay where they are.
  lemma OtherSectionsUntouched(fold: string -> string, d: seq<Entry>, i: nat)
    requires i < |d| && ValidDocument(d)
    ensures var r := RewrittenDocument(fold, d);
            && |r| == |d| && r[i].name == d[i].name
            && (d[i].name !in Sections || d[i].item.NotATable? ==> r[i] == d[i])
            && ValidDocument(r)
  {
    var r := RewrittenDocument(fold, d);
    forall k | 0 <= k < |r| && r[k].item.Section?
      ensures ValidDeps(r[k].item.deps)
    {
      if d[k].name in Sections {
        var s := Sort(fold, d[k].item.deps);
        SortValid(fold, d[k].item.deps);
        InlinedUnique(s);
        AllInline(s);
      }
    }
  }

  lemma {:induction false} AllInline(s: seq<Dep>)
    ensures forall i | 0 <= i < |Inlined(s)| :: Inlined(s)[i].value.InlineTable?
  {
    if s != [] {
      AllInline(s[1..]);
    }
  }

  // ---------- The three sections ----------

  // What a dependency becomes: a string a table with that version, a table an inline table.
  predicate Becomes(d: Dep, r: Dep) {
    && r.key == d.key
    && match d.value
       case Str(text) => r.value == InlineTable([Field("version", Text(text))])
       case InlineTable(_) => r.value == d.value
       case Table(fields) => r.value == InlineTable(fields)
       case Other(_) => false
  }

  // Ascending by folded name, in the order of strings.
  ghost predicate Ascending(fold: string -> string, s: seq<Dep>) {
    forall i, j | 0 <= i < j < |s| ::
      var a, b := fold(s[i].key), fold(s[j].key);
      a <= b || exists k: nat :: k < |a| && k < |b| && a[..k] == b[..k] && a[k] < b[k]
  }

  // In each of the three sections stands, for every dependency and for nothing else, what it
  // becomes, in ascending order.
  lemma SectionsAreRewritten(fold: string -> string, d: seq<Entry>, i: nat)
    requires i < |d| && d[i].item.Section? && ValidDeps(d[i].item.deps)
    requires d[i].name == "dependencies" || d[i].name == "dev-dependencies" || d[i].name == "build-dependencies"
    ensures var before, r := d[i].item.deps, RewrittenDocument(fold, d)[i];
            && r.name == d[i].name && r.item.Section? && Ascending(fold, r.item.deps)
            && (forall x :: x in r.item.deps <==> exists b | b in before :: Becomes(b, x))
            && UniqueKeys(r.item.deps)
  {
    var before := d[i].item.deps;
    assert d[i].name in Sections;
    RewrittenIsAscending(fold, before);
    forall x
      ensures x in Inlined(Sort(fold, before)) <==> exists b | b in before :: Becomes(b, x)
    {
      RewrittenElements(fold, before, x);
    }
    SortValid(fold, before);
    InlinedUnique(Sort(fold, before));
  }

  lemma RewrittenIsAscending(fold: string -> string, deps: seq<Dep>)
    ensures Ascending(fold, Inlined(Sort(fold, deps)))
  {
    var r := Inlined(Sort(fold, deps));
    RewrittenIsTheStableSort(fold, deps, r);
    forall i, j | 0 <= i < j < |r|
      ensures var a, b := fold(r[i].key), fold(r[j].key);
              a <= b || exists k: nat :: k < |a| && k < |b| && a[..k] == b[..k] && a[k] < b[k]
    {
      LeIsLexicographic(fold(r[i].key), fold(r[j].key));
    }
  }

  lemma RewrittenElements(fold: string -> string, deps: seq<Dep>, x: Dep)
    ensures x in Inlined(Sort(fold, deps)) <==> exists b | b in deps :: Becomes(b, x)
  {
    InlinedElements(Sort(fold, deps), x);
    forall b
      ensures b in Sort(fold, deps) <==> b in deps
      ensures Becomes(b, x) <==> !b.value.Other? && x == Dep(b.key, InlineTable(Meaning(b.value)))
    {
      SortedElements(fold, deps, b);
    }
  }

  // ---------- The script ----------

  // A TOML table under construction: setting a key that exists replaces its value.
  function Put(table: seq<Dep>, d: Dep): seq<Dep> {
    if table == [] then [d]
    else if table[0].key == d.key then [d] + table[1..]
    else [table[0]] + Put(table[1..], d)
  }

  lemma {:induction false} PutFresh(table: seq<Dep>, d: Dep)
    requires forall i | 0 <= i < |table| :: table[i].key != d.key
    ensures Put(table, d) == table + [d]
  {
    if table != [] {
      PutFresh(table[1..], d);
    }
  }

  function Add(fields: seq<Field>, f: Field): seq<Field> {
    if fields == [] then [f]
    else if fields[0].key == f.key then [f] + fields[1..]
    else [fields[0]] + Add(fields[1..], f)
  }

  lemma {:induction false} AddFresh(fields: seq<Field>, f: Field)
    requires forall i | 0 <= i < |fields| :: fields[i].key != f.key
    ensures Add(fields, f) == fields + [f]
  {
    if fields != [] {
      AddFresh(fields[1..], f);
    }
  }

  method InlineFields(fields: seq<Field>) returns (inline: seq<Field>)
    requires UniqueFields(fields)
    ensures inline == fields
  {
    inline := [];
    for i := 0 to |fields|
      invariant inline == fields[..i]
    {
      AddFresh(inline, fields[i]);
      inline := Add(inline, fields[i]);
    }
  }

  method NewTable(sortedItems: seq<Dep>) returns (newTable: seq<Dep>)
    requires ValidDeps(sortedItems)
    ensures newTable == Inlined(sortedItems)
  {
    newTable := [];
    for i := 0 to |sortedItems|
      invariant newTable == Inlined(sortedItems[..i])
    {
      var key, value := sortedItems[i].key, sortedItems[i].value;
      assert sortedItems[..i + 1] == sortedItems[..i] + [sortedItems[i]];
      InlinedAppend(sortedItems[..i], sortedItems[i]);
      forall j | 0 <= j < |newTable|
        ensures newTable[j].key != key
      {
        InlinedElements(sortedItems[..i], newTable[j]);
      }
      match value {
        case Str(text) =>
          PutFresh(newTable, Dep(key, InlineTable([Field("version", Text(text))])));
          newTable := Put(newTable, Dep(key, InlineTable([Field("version", Text(text))])));
        case InlineTable(_) =>
          PutFresh(newTable, Dep(key, value));
          newTable := Put(newTable, Dep(key, value));
        case Table(fields) =>
          var inline := InlineFields(fields);
          PutFresh(newTable, Dep(key, InlineTable(inline)));
          newTable := Put(newTable, Dep(key, InlineTable(inline)));
        case Other(_) =>
      }
    }
    assert sortedItems[..|sortedItems|] == sortedItems;
  }

  class TomlDocument {
    var entries: seq<Entry>

    constructor (entries: seq<Entry>)
      ensures this.entries == entries
    {
      this.entries := entries;
    }

    // The position of a name, or the length of the document.
    method IndexOf(name: string) returns (i: nat)
      ensures i <= |entries| && (i < |entries| ==> entries[i].name == name)
      ensures forall j | 0 <= j < i :: entries[j].name != name
    {
      i := 0;
      while i < |entries| && entries[i].name != name
        invariant i <= |entries| && forall j | 0 <= j < i :: entries[j].name != name
      {
        i := i + 1;
      }
    }

    method SortAndInlineDependencies(fold: string -> string)
      requires ValidDocument(entries)
      modifies this
      ensures entries == RewrittenDocument(fold, old(entries))
    {
      ghost var d := entries;
      for k := 0 to |Sections|
        invariant |entries| == |d|
        invariant forall i | 0 <= i < |d| :: entries[i]
                    == if d[i].name in Sections[..k] then Entry(d[i].name, Rewritten(fold, d[i].item)) else d[i]
      {
        var i := IndexOf(Sections[k]);
        assert Sections[..k + 1] == Sections[..k] + [Sections[k]];
        if i < |entries| && entries[i].item.Section? {
          assert Sections[k] !in Sections[..k];
          SortValid(fold, d[i].item.deps);
          var newTable := NewTable(Sort(fold, entries[i].item.deps));
          entries := entries[i := Entry(Sections[k], Section(newTable))];
        }
      }
      assert Sections[..|Sections|] == Sections;
    }
  }
}
