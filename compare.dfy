/** `compare`: reconcile the files in the SDist with the files git tracks and encode the verdict
    as an exit code. */
module CheckSdist {
  import opened Outcomes
  import opened Toml
  import opened Foreign

  /** The metadata file every SDist holds and no repository tracks. */
  const Metadata := "PKG-INFO"

  /** The `tool.check-sdist` settings `compare` reads. */
  datatype Settings = Settings(sdistOnly: seq<string>, gitOnly: seq<string>, defaultIgnore: bool)

  /** The two lists of unexpected paths: only in the SDist, only in git. */
  datatype Comparison = Comparison(sdistOnly: set<string>, gitOnly: set<string>)

  /** What `compare` reports: the two lists it prints and the code it returns. */
  datatype Verdict = Verdict(comparison: Comparison, code: int)

  /** The `tool.check-sdist` table; a missing `pyproject.toml` reads as an empty one. */
  function CheckSdistTable(pyproject: Option<map<string, Value>>): Result<Value> {
    match pyproject
    case None => Ok(EmptyTable)
    case Some(root) => Setting(root, ["tool"], "check-sdist", EmptyTable)
  }

  /** The settings, each defaulting when absent: no patterns, default ignores on. */
  function ReadSettings(pyproject: Option<map<string, Value>>): (r: Result<Settings>)
    ensures pyproject.None? ==> r == Ok(Settings([], [], true))
    ensures CheckSdistTable(pyproject) == Ok(EmptyTable) ==> r == Ok(Settings([], [], true))
    ensures r.Ok? <==>
      && CheckSdistTable(pyproject).Ok?
      && CheckSdistTable(pyproject).value.Table?
      && var config := CheckSdistTable(pyproject).value;
         && Strings(Get(config, "sdist-only", EmptyArray).value, "sdist-only").Ok?
         && Strings(Get(config, "git-only", EmptyArray).value, "git-only").Ok?
    ensures r.Ok? && "default-ignore" !in CheckSdistTable(pyproject).value.fields ==> r.value.defaultIgnore
    ensures r.Ok? ==>
      var config := CheckSdistTable(pyproject).value;
      r.value == Settings(Strings(Get(config, "sdist-only", EmptyArray).value, "sdist-only").value,
                          Strings(Get(config, "git-only", EmptyArray).value, "git-only").value,
                          Truthy(Get(config, "default-ignore", Bool(true)).value))
  {
    var config :- CheckSdistTable(pyproject);
    if !config.Table? then Err(WrongType("sdist-only"))
    else
      var fields := config.fields;
      var sdistOnly := if "sdist-only" in fields then fields["sdist-only"] else EmptyArray;
      var gitOnly := if "git-only" in fields then fields["git-only"] else EmptyArray;
      var defaultIgnore := if "default-ignore" in fields then fields["default-ignore"] else Bool(true);
      // with default ignores on, `git-only` must have `.extend` before any spec is built
      if Truthy(defaultIgnore) && !gitOnly.Arr? then Err(WrongType("git-only"))
      else
        var sdistPatterns :- Strings(sdistOnly, "sdist-only");
        var gitPatterns :- Strings(gitOnly, "git-only");
        Ok(Settings(sdistPatterns, gitPatterns, Truthy(defaultIgnore)))
  }

  /** Without `pyproject.toml`, or without a `tool.check-sdist` table in it, every setting
      takes its default. */
  lemma MissingTableDefaults(pyproject: Option<map<string, Value>>)
    requires || pyproject.None?
             || "tool" !in pyproject.value
             || (pyproject.value["tool"].Table? && "check-sdist" !in pyproject.value["tool"].fields)
    ensures ReadSettings(pyproject) == Ok(Settings([], [], true))
  {
  }

  /** The two filtered set differences: paths on one side only whose side's spec does not match. */
  function Reconcile(built: set<string>, tracked: set<string>, sdistPatterns: seq<string>,
                     gitPatterns: seq<string>, matches: Matcher): (c: Comparison)
    ensures c.sdistOnly <= built - {Metadata} - tracked
    ensures c.gitOnly <= tracked - (built - {Metadata})
    ensures c.sdistOnly !! c.gitOnly
    ensures Metadata !in c.sdistOnly
    ensures forall p :: p in built - {Metadata} - tracked ==> (p in c.sdistOnly <==> !matches(sdistPatterns, p))
    ensures forall p :: p in tracked - (built - {Metadata}) ==> (p in c.gitOnly <==> !matches(gitPatterns, p))
  {
    var sdist := built - {Metadata};
    Comparison(set p | p in sdist - tracked && !matches(sdistPatterns, p),
               set p | p in tracked - sdist && !matches(gitPatterns, p))
  }

  /** The exit code: 1 for files only in the SDist, plus 2 for files only in git. */
  function ExitCode(c: Comparison): (code: int)
    ensures 0 <= code <= 3
    ensures code == 0 <==> c.sdistOnly == {} && c.gitOnly == {}
    ensures code % 2 == 1 <==> c.sdistOnly != {}
    ensures code >= 2 <==> c.gitOnly != {}
  {
    if c.sdistOnly != {} || c.gitOnly != {} then
      (if c.sdistOnly != {} then 1 else 0) + 2 * (if c.gitOnly != {} then 1 else 0)
    else 0
  }

  /** An SDist holding exactly the tracked files (besides its metadata) matches, whatever the patterns. */
  lemma SameFilesMatch(built: set<string>, tracked: set<string>, sdistPatterns: seq<string>,
                       gitPatterns: seq<string>, matches: Matcher)
    requires built - {Metadata} == tracked
    ensures Reconcile(built, tracked, sdistPatterns, gitPatterns, matches) == Comparison({}, {})
    ensures ExitCode(Reconcile(built, tracked, sdistPatterns, gitPatterns, matches)) == 0
  {
    var c := Reconcile(built, tracked, sdistPatterns, gitPatterns, matches);
    assert c.sdistOnly == {};
    assert c.gitOnly == {};
  }

  /** A tracked `PKG-INFO` is reported as missing from the SDist even when the SDist has one,
      because the SDist's copy is dropped before the differences are taken. */
  lemma TrackedMetadataReported(built: set<string>, tracked: set<string>, sdistPatterns: seq<string>,
                                gitPatterns: seq<string>, matches: Matcher)
    requires Metadata in tracked
    requires !matches(gitPatterns, Metadata)
    ensures Metadata in Reconcile(built, tracked, sdistPatterns, gitPatterns, matches).gitOnly
    ensures ExitCode(Reconcile(built, tracked, sdistPatterns, gitPatterns, matches)) >= 2
  {
  }

  /** `compare`, given the SDist's files, git's files, the parsed `pyproject.toml` (None when the
      file is missing) and the lines of the bundled default-ignore list. */
  method Compare(built: set<string>, tracked: set<string>, pyproject: Option<map<string, Value>>,
                 defaultIgnoreLines: seq<string>, matches: Matcher) returns (r: Result<Verdict>)
    ensures r.Ok? <==> ReadSettings(pyproject).Ok?
    ensures r.Err? ==> r.error == ReadSettings(pyproject).error
    ensures r.Ok? ==>
      var s := ReadSettings(pyproject).value;
      var gitPatterns := if s.defaultIgnore then s.gitOnly + defaultIgnoreLines else s.gitOnly;
      && r.value.comparison == Reconcile(built, tracked, s.sdistOnly, gitPatterns, matches)
      && r.value.code == ExitCode(r.value.comparison)
    ensures r.Ok? && built - {Metadata} == tracked ==> r.value.code == 0
    ensures pyproject.None? ==> r.Ok? && r.value.comparison == Reconcile(built, tracked, [], defaultIgnoreLines, matches)
  {
    var settings :- ReadSettings(pyproject);
    var sdistPatterns := settings.sdistOnly;
    var gitPatterns := settings.gitOnly;
    if settings.defaultIgnore {
      gitPatterns := gitPatterns + defaultIgnoreLines;
    }
    var c := Reconcile(built, tracked, sdistPatterns, gitPatterns, matches);
    if built - {Metadata} == tracked {
      SameFilesMatch(built, tracked, sdistPatterns, gitPatterns, matches);
    }
    r := Ok(Verdict(c, ExitCode(c)));
    assert pyproject.None? ==> gitPatterns == defaultIgnoreLines;
  }
}
