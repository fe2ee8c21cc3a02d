/** Per-backend exclusions applied to the files git tracks but the SDist lacks
    (`backend_ignored_patterns`). */
module Backends {
  import opened Outcomes
  import opened Toml
  import opened Foreign

  const Flit := "flit_core.buildapi"
  const Hatchling := "hatchling.build"
  const ScikitBuild := "scikit_build_core.build"
  const Pdm := "pdm.backend"
  const Poetry := "poetry.core.masonry.api"
  const Maturin := "maturin"
  /** The backend assumed when `build-system.build-backend` is absent; no branch handles it. */
  const LegacyDefault := "setuptools.build_meta.__legacy__"

  /** The backends whose branch ends in a `return`: every named one except poetry. */
  const ReturningBackends: set<string> := {Flit, Hatchling, ScikitBuild, Pdm, Maturin}

  /** The backend identifier to dispatch on: `auto` reads it from `build-system.build-backend`. */
  function Resolve(backend: string, pyproject: map<string, Value>): Result<Value> {
    if backend == "auto" then Setting(pyproject, ["build-system"], "build-backend", Str(LegacyDefault))
    else Ok(Str(backend))
  }

  /** Every path that some pattern's glob expands to. */
  function GlobUnion(patterns: seq<string>, glob: Globber): (u: set<string>)
    ensures forall p :: p in u <==> exists i :: 0 <= i < |patterns| && p in glob(patterns[i])
    decreases |patterns|
  {
    if patterns == [] then {}
    else
      var init := patterns[..|patterns| - 1];
      assert forall i :: 0 <= i < |init| ==> init[i] == patterns[i];
      GlobUnion(init, glob) + glob(patterns[|patterns| - 1])
  }

  /** The glob subtraction loop of the flit, pdm, poetry and maturin branches. */
  method SubtractGlobs(files: set<string>, patterns: seq<string>, glob: Globber) returns (remaining: set<string>)
    ensures remaining == files - GlobUnion(patterns, glob)
    ensures forall p :: p in remaining <==> p in files && forall i :: 0 <= i < |patterns| ==> p !in glob(patterns[i])
  {
    remaining := files;
    for k := 0 to |patterns|
      invariant remaining == files - GlobUnion(patterns[..k], glob)
    {
      assert patterns[..k + 1][..k] == patterns[..k];
      remaining := remaining - glob(patterns[k]);
    }
    assert patterns[..|patterns|] == patterns;
  }

  /** The order of the exclude patterns does not matter to the glob backends. */
  lemma GlobUnionOrderFree(a: seq<string>, b: seq<string>, glob: Globber)
    requires forall x :: x in a <==> x in b
    ensures GlobUnion(a, glob) == GlobUnion(b, glob)
  {
    forall p | p in GlobUnion(a, glob) ensures p in GlobUnion(b, glob) {
      var i :| 0 <= i < |a| && p in glob(a[i]);
      assert a[i] in b;
      var j :| 0 <= j < |b| && b[j] == a[i];
    }
    forall p | p in GlobUnion(b, glob) ensures p in GlobUnion(a, glob) {
      var j :| 0 <= j < |b| && p in glob(b[j]);
      assert b[j] in a;
      var i :| 0 <= i < |a| && a[i] == b[j];
    }
  }

  /** Python's `sub in s` on strings. */
  predicate IsSubstring(sub: string, s: string)
    decreases |s|
  {
    |sub| <= |s| && (sub == s[..|sub|] || IsSubstring(sub, s[1..]))
  }

  /** `"sdist" in x.get("format", ["sdist"])` for a poetry exclude record `x`. */
  function SdistFormat(record: map<string, Value>): Result<bool> {
    var format := if "format" in record then record["format"] else Arr([Str("sdist")]);
    match format
    case Arr(xs) => Ok(Str("sdist") in xs)
    case Str(s) => Ok(IsSubstring("sdist", s))
    case Table(m) => Ok("sdist" in m)
    case _ => Err(WrongType("format"))
  }

  /** The pattern a poetry exclude entry contributes: a plain string itself, a record its
      `path` when its format names the SDist; nothing otherwise. */
  function Selected(x: Value): Option<Value> {
    if x.Str? then Some(x)
    else if x.Table? && SdistFormat(x.fields) == Ok(true) && "path" in x.fields then Some(x.fields["path"])
    else None
  }

  /** An exclude entry the poetry comprehension gets through without raising. */
  predicate Admissible(x: Value) {
    || x.Str?
    || (x.Table? && SdistFormat(x.fields).Ok? && (SdistFormat(x.fields).value ==> "path" in x.fields))
  }

  /** The poetry comprehension: plain strings, plus the `path` of every record whose format
      (by default `["sdist"]`) contains "sdist", in list order. */
  function PoetryPatterns(items: seq<Value>): (r: Result<seq<Value>>)
    ensures r.Ok? <==> forall i :: 0 <= i < |items| ==> Admissible(items[i])
    ensures r.Ok? ==> forall v :: v in r.value <==> exists i :: 0 <= i < |items| && Selected(items[i]) == Some(v)
    ensures r.Err? ==> r.error.WrongType? || r.error.MissingKey?
    decreases |items|
  {
    if items == [] then Ok([])
    else
      var x := items[0];
      var head: Result<seq<Value>> :=
        if x.Str? then Ok([x])
        else if !x.Table? then Err(WrongType("exclude"))
        else match SdistFormat(x.fields)
          case Err(e) => Err(e)
          case Ok(false) => Ok([])
          case Ok(true) => if "path" in x.fields then Ok([x.fields["path"]]) else Err(MissingKey("path"));
      var h :- head;
      var t :- PoetryPatterns(items[1..]);
      assert forall i :: 1 <= i < |items| ==> items[i] == items[1..][i - 1];
      assert forall v :: v in t ==> exists i :: 1 <= i < |items| && Selected(items[i]) == Some(v) by {
        forall v | v in t ensures exists i :: 1 <= i < |items| && Selected(items[i]) == Some(v) {
          var j :| 0 <= j < |items[1..]| && Selected(items[1..][j]) == Some(v);
          assert Selected(items[j + 1]) == Some(v);
        }
      }
      Ok(h + t)
  }

  /** The glob branches: `files` minus every glob expansion of the exclude list. */
  function GlobFiltered(files: set<string>, patterns: Result<seq<string>>, glob: Globber): Result<set<string>> {
    var ps :- patterns;
    Ok(files - GlobUnion(ps, glob))
  }

  /** The gitignore-style branches: the files the exclude spec does not match. */
  function SpecFiltered(files: set<string>, patterns: Result<seq<string>>, matches: Matcher): Result<set<string>> {
    var ps :- patterns;
    Ok(set p | p in files && !matches(ps, p))
  }

  function FlitExclude(pyproject: map<string, Value>): Result<seq<string>> {
    PatternSetting(pyproject, ["tool", "flit", "sdist"], "exclude")
  }

  function HatchlingExclude(pyproject: map<string, Value>): Result<seq<string>> {
    PatternSetting(pyproject, ["tool", "hatch", "build", "targets", "sdist"], "exclude")
  }

  function ScikitBuildExclude(pyproject: map<string, Value>): Result<seq<string>> {
    PatternSetting(pyproject, ["tool", "scikit-build", "sdist"], "exclude")
  }

  function PdmExclude(pyproject: map<string, Value>): Result<seq<string>> {
    PatternSetting(pyproject, ["tool", "pdm", "build"], "excludes")
  }

  function MaturinExclude(pyproject: map<string, Value>): Result<seq<string>> {
    PatternSetting(pyproject, ["tool", "maturin"], "exclude")
  }

  /** Poetry's exclude list after the comprehension; every selected pattern must be a string
      by the time it is globbed. */
  function PoetryExclude(pyproject: map<string, Value>): Result<seq<string>> {
    var v :- Setting(pyproject, ["tool", "poetry"], "exclude", EmptyArray);
    if !v.Arr? then Err(WrongType("exclude"))
    else
      var selected :- PoetryPatterns(v.items);
      Texts(selected, "exclude")
  }

  /** What `backend_ignored_patterns` returns or raises. */
  function BackendFiltered(backend: string, pyproject: map<string, Value>, files: set<string>,
                           matches: Matcher, glob: Globber): (r: Result<set<string>>)
    ensures r.Ok? ==> r.value <= files
    ensures backend == "none" ==> r == Ok(files)
    ensures r.Err? && r.error.UnknownBackend? <==>
      && backend !in {"auto", "none"}
      && backend !in ReturningBackends
      && (backend == Poetry ==> PoetryExclude(pyproject).Ok?)
    ensures r.Err? && r.error.UnknownBackend? ==> r.error.backend == backend
  {
    if backend == "none" then Ok(files)
    else
      var id :- Resolve(backend, pyproject);
      if id == Str(Flit) then GlobFiltered(files, FlitExclude(pyproject), glob)
      else if id == Str(Hatchling) then SpecFiltered(files, HatchlingExclude(pyproject), matches)
      else if id == Str(ScikitBuild) then SpecFiltered(files, ScikitBuildExclude(pyproject), matches)
      else if id == Str(Pdm) then GlobFiltered(files, PdmExclude(pyproject), glob)
      else
        // the poetry branch has no `return` and falls through to the checks below
        var kept :- if id == Str(Poetry) then GlobFiltered(files, PoetryExclude(pyproject), glob) else Ok(files);
        if id == Str(Maturin) then GlobFiltered(kept, MaturinExclude(pyproject), glob)
        else if backend != "auto" then Err(UnknownBackend(backend))
        else Ok(kept)
  }

  /** `backend_ignored_patterns`, branch by branch, with the glob loops run as written. */
  method BackendIgnoredPatterns(backend: string, pyproject: map<string, Value>, files: set<string>,
                                matches: Matcher, glob: Globber) returns (r: Result<set<string>>)
    ensures r == BackendFiltered(backend, pyproject, files, matches, glob)
  {
    if backend == "none" {
      return Ok(files);
    }
    var resolved :- Resolve(backend, pyproject);
    var remaining := files;
    if resolved == Str(Flit) {
      var exclude :- FlitExclude(pyproject);
      remaining := SubtractGlobs(remaining, exclude, glob);
      return Ok(remaining);
    }
    if resolved == Str(Hatchling) {
      var exclude :- HatchlingExclude(pyproject);
      return Ok(set p | p in remaining && !matches(exclude, p));
    }
    if resolved == Str(ScikitBuild) {
      var exclude :- ScikitBuildExclude(pyproject);
      return Ok(set p | p in remaining && !matches(exclude, p));
    }
    if resolved == Str(Pdm) {
      var exclude :- PdmExclude(pyproject);
      remaining := SubtractGlobs(remaining, exclude, glob);
      return Ok(remaining);
    }
    if resolved == Str(Poetry) {
      var exclude :- PoetryExclude(pyproject);
      remaining := SubtractGlobs(remaining, exclude, glob);
    }
    if resolved == Str(Maturin) {
      var exclude :- MaturinExclude(pyproject);
      remaining := SubtractGlobs(remaining, exclude, glob);
      return Ok(remaining);
    }
    if backend != "auto" {
      return Err(UnknownBackend(backend));
    }
    return Ok(remaining);
  }

  /** Under `auto` with no declared build backend the legacy default is used, which no branch
      handles, so the files come back unchanged. */
  lemma AutoWithoutBuildBackend(pyproject: map<string, Value>, files: set<string>, matches: Matcher, glob: Globber)
    requires "build-system" !in pyproject
          || (pyproject["build-system"].Table? && "build-backend" !in pyproject["build-system"].fields)
    ensures Resolve("auto", pyproject) == Ok(Str(LegacyDefault))
    ensures BackendFiltered("auto", pyproject, files, matches, glob) == Ok(files)
  {
  }

  /** Under `auto`, a declared backend that no branch knows is let through silently. */
  lemma AutoUnknownPassesThrough(pyproject: map<string, Value>, files: set<string>, matches: Matcher, glob: Globber)
    requires Resolve("auto", pyproject).Ok?
    requires forall id :: id in ReturningBackends + {Poetry} ==> Resolve("auto", pyproject).value != Str(id)
    ensures BackendFiltered("auto", pyproject, files, matches, glob) == Ok(files)
  {
    assert Flit in ReturningBackends + {Poetry};
    assert Hatchling in ReturningBackends + {Poetry};
    assert ScikitBuild in ReturningBackends + {Poetry};
    assert Pdm in ReturningBackends + {Poetry};
    assert Maturin in ReturningBackends + {Poetry};
  }

  /** Naming poetry explicitly always raises: its branch falls through to the unknown-backend check. */
  lemma ExplicitPoetryRaises(pyproject: map<string, Value>, files: set<string>, matches: Matcher, glob: Globber)
    ensures BackendFiltered(Poetry, pyproject, files, matches, glob).Err?
    ensures PoetryExclude(pyproject).Ok? ==>
      BackendFiltered(Poetry, pyproject, files, matches, glob) == Err(UnknownBackend(Poetry))
  {
  }

  /** Reaching poetry through `auto` returns the poetry-filtered files. */
  lemma AutoPoetryFilters(pyproject: map<string, Value>, files: set<string>, matches: Matcher, glob: Globber)
    requires Resolve("auto", pyproject) == Ok(Str(Poetry))
    ensures BackendFiltered("auto", pyproject, files, matches, glob) == GlobFiltered(files, PoetryExclude(pyproject), glob)
  {
  }

  /** Hatchling and scikit-build keep exactly the files their exclude spec does not match. */
  lemma SpecBackendsKeepUnmatched(backend: string, pyproject: map<string, Value>, files: set<string>,
                                  matches: Matcher, glob: Globber)
    requires backend in {Hatchling, ScikitBuild}
    ensures var exclude := if backend == Hatchling then HatchlingExclude(pyproject) else ScikitBuildExclude(pyproject);
      var r := BackendFiltered(backend, pyproject, files, matches, glob);
      && (r.Ok? <==> exclude.Ok?)
      && (r.Ok? ==> forall p :: p in r.value <==> p in files && !matches(exclude.value, p))
  {
  }

  /** Flit, pdm and maturin remove exactly the files some exclude pattern globs to. */
  lemma GlobBackendsRemoveExpansions(backend: string, pyproject: map<string, Value>, files: set<string>,
                                     matches: Matcher, glob: Globber)
    requires backend in {Flit, Pdm, Maturin}
    ensures var exclude := if backend == Flit then FlitExclude(pyproject)
                           else if backend == Pdm then PdmExclude(pyproject) else MaturinExclude(pyproject);
      var r := BackendFiltered(backend, pyproject, files, matches, glob);
      && (r.Ok? <==> exclude.Ok?)
      && (r.Ok? ==> forall p :: p in r.value <==>
            p in files && forall i :: 0 <= i < |exclude.value| ==> p !in glob(exclude.value[i]))
  {
  }

  /** A glob branch gives the same files whatever order the exclude patterns come in,
      and an empty exclude list leaves the files unchanged. */
  lemma GlobFilteredOrderFree(files: set<string>, a: seq<string>, b: seq<string>, glob: Globber)
    requires forall x :: x in a <==> x in b
    ensures GlobFiltered(files, Ok(a), glob) == GlobFiltered(files, Ok(b), glob)
    ensures GlobFiltered(files, Ok([]), glob) == Ok(files)
  {
    GlobUnionOrderFree(a, b, glob);
    assert files - GlobUnion([], glob) == files;
  }

  /** An exclude table missing from the configuration leaves a glob backend's files unchanged. */
  lemma FlitWithoutExcludeKeepsAll(pyproject: map<string, Value>, files: set<string>,
                                   matches: Matcher, glob: Globber, i: nat, m: map<string, Value>)
    requires i <= 3
    requires Dig(Table(pyproject), ["tool", "flit", "sdist"][..i]) == Ok(Table(m))
    requires i < 3 ==> ["tool", "flit", "sdist"][i] !in m
    requires i == 3 ==> "exclude" !in m
    ensures BackendFiltered(Flit, pyproject, files, matches, glob) == Ok(files)
  {
    PatternSettingAbsent(pyproject, ["tool", "flit", "sdist"], "exclude", i, m);
    assert files - GlobUnion([], glob) == files;
  }

  /** A hatchling exclude path missing from the configuration gives an empty spec. */
  lemma HatchlingWithoutExclude(pyproject: map<string, Value>, files: set<string>,
                                matches: Matcher, glob: Globber, i: nat, m: map<string, Value>)
    requires i <= 5
    requires Dig(Table(pyproject), ["tool", "hatch", "build", "targets", "sdist"][..i]) == Ok(Table(m))
    requires i < 5 ==> ["tool", "hatch", "build", "targets", "sdist"][i] !in m
    requires i == 5 ==> "exclude" !in m
    ensures BackendFiltered(Hatchling, pyproject, files, matches, glob) == Ok(set p | p in files && !matches([], p))
  {
    PatternSettingAbsent(pyproject, ["tool", "hatch", "build", "targets", "sdist"], "exclude", i, m);
  }

  /** Naming poetry explicitly raises while reaching it through `auto` filters: a project
      declaring poetry with no exclude list shows the two disagree. */
  lemma ExplicitPoetryDiffersFromAuto(files: set<string>, matches: Matcher, glob: Globber)
    ensures var pyproject := map["build-system" := Table(map["build-backend" := Str(Poetry)])];
      && BackendFiltered("auto", pyproject, files, matches, glob) == Ok(files)
      && BackendFiltered(Poetry, pyproject, files, matches, glob) == Err(UnknownBackend(Poetry))
  {
    var pyproject := map["build-system" := Table(map["build-backend" := Str(Poetry)])];
    PatternSettingAbsent(pyproject, ["tool", "poetry"], "exclude", 0, pyproject);
    assert PoetryExclude(pyproject) == Ok([]);
    assert files - GlobUnion([], glob) == files;
  }

  /** `backend_ignored_patterns` with the poetry branch returning its filtered files, as the
      other named branches do. */
  function IntendedBackendFiltered(backend: string, pyproject: map<string, Value>, files: set<string>,
                                   matches: Matcher, glob: Globber): (r: Result<set<string>>)
    ensures r.Ok? ==> r.value <= files
    ensures backend != Poetry ==> r == BackendFiltered(backend, pyproject, files, matches, glob)
    ensures backend == Poetry ==> r == GlobFiltered(files, PoetryExclude(pyproject), glob)
  {
    if backend == Poetry then GlobFiltered(files, PoetryExclude(pyproject), glob)
    else BackendFiltered(backend, pyproject, files, matches, glob)
  }

  /** With the poetry branch returning, naming any recognised backend directly gives the same
      result as declaring it and asking for `auto`. */
  lemma ExplicitMatchesAuto(backend: string, pyproject: map<string, Value>, files: set<string>,
                            matches: Matcher, glob: Globber)
    requires backend in ReturningBackends + {Poetry}
    requires Resolve("auto", pyproject) == Ok(Str(backend))
    ensures IntendedBackendFiltered(backend, pyproject, files, matches, glob)
         == IntendedBackendFiltered("auto", pyproject, files, matches, glob)
  {
  }
}
