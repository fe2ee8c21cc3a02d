/** The files an SDist holds (`sdist_files`, `_run`): the build command and the archive member
    names with their single top-level directory stripped. */
module Sdist {
  import opened Outcomes

  /** What a tar member is; only regular files and symlinks are listed. */
  datatype MemberKind = File | Symlink | Directory | Other

  /** A tar member: its name and its kind. */
  datatype Member = Member(name: string, kind: MemberKind)

  /** The build front ends `sdist_files` knows. */
  datatype Builder = Build | Flit

  /** `BUILD_SYSTEMS`: the table `sdist_files` dispatches through. */
  const BuildSystems: map<string, Builder> := map["build" := Build, "flit" := Flit]

  const NoIsolation := "--no-isolation"

  predicate Listed(m: Member) {
    m.kind == File || m.kind == Symlink
  }

  /** The position of the first `/` in `name`, if any. */
  function SlashIndex(name: string): (r: Option<nat>)
    ensures r.Some? ==> r.value < |name| && name[r.value] == '/' && '/' !in name[..r.value]
    ensures r.None? ==> '/' !in name
    decreases |name|
  {
    if name == [] then None
    else if name[0] == '/' then Some(0)
    else
      match SlashIndex(name[1..])
      case None => None
      case Some(i) =>
        assert name[..i + 1] == [name[0]] + name[1..][..i];
        Some(i + 1)
  }

  /** `name.split("/", maxsplit=1)[0]`: the text before the first `/`, or all of it. */
  function Head(name: string): string {
    match SlashIndex(name)
    case None => name
    case Some(i) => name[..i]
  }

  /** `name.split("/", maxsplit=1)[1]`, which does not exist when `name` has no `/`. */
  function Tail(name: string): Option<string> {
    match SlashIndex(name)
    case None => None
    case Some(i) => Some(name[i + 1..])
  }

  /** Splitting at the first `/` and joining again gives the name back. */
  lemma SplitJoin(name: string)
    ensures '/' !in Head(name)
    ensures Tail(name).None? <==> '/' !in name
    ensures Tail(name).Some? ==> name == Head(name) + "/" + Tail(name).value
  {
    if SlashIndex(name).Some? {
      var i := SlashIndex(name).value;
      assert name == name[..i] + [name[i]] + name[i + 1..];
    }
  }

  /** Joining a slash-free directory name and a path, then splitting, gives both back. */
  lemma JoinSplit(prefix: string, rest: string)
    requires '/' !in prefix
    ensures Head(prefix + "/" + rest) == prefix
    ensures Tail(prefix + "/" + rest) == Some(rest)
  {
    var name := prefix + "/" + rest;
    assert name[..|prefix|] == prefix;
    assert name[|prefix|] == '/';
    assert name[|prefix| + 1..] == rest;
    assert SlashIndex(name).Some?;
    assert SlashIndex(name).value == |prefix|;
  }

  /** The first path components of all members. */
  function Prefixes(members: seq<Member>): set<string> {
    set m | m in members :: Head(m.name)
  }

  /** The member list read from the archive: all members must share one top-level directory,
      which is stripped from every file and symlink. */
  function ArchiveFiles(members: seq<Member>): (r: Result<set<string>>)
    ensures r.Err? && r.error.MultiplePackages? <==> |Prefixes(members)| != 1
    ensures r.Err? && r.error.MultiplePackages? ==> r.error.prefixes == Prefixes(members)
    ensures r == Err(NoPathAfterPrefix) <==>
      |Prefixes(members)| == 1 && exists m :: m in members && Listed(m) && '/' !in m.name
    ensures r.Ok? <==> |Prefixes(members)| == 1 && forall m :: m in members && Listed(m) ==> '/' in m.name
    ensures r.Ok? ==> forall p :: p in r.value ==>
      exists m :: m in members && Listed(m) && m.name == Head(m.name) + "/" + p
  {
    var prefixes := Prefixes(members);
    if |prefixes| != 1 then Err(MultiplePackages(prefixes))
    else if exists m :: m in members && Listed(m) && Tail(m.name).None? then
      var m :| m in members && Listed(m) && Tail(m.name).None?;
      SplitJoin(m.name);
      Err(NoPathAfterPrefix)
    else
      assert forall m :: m in members && Listed(m) ==>
        '/' in m.name && m.name == Head(m.name) + "/" + Tail(m.name).value by {
        forall m | m in members && Listed(m)
          ensures '/' in m.name && m.name == Head(m.name) + "/" + Tail(m.name).value
        {
          SplitJoin(m.name);
        }
      }
      Ok(set m | m in members && Listed(m) :: Tail(m.name).value)
  }

  /** A set with one element is that element alone. */
  lemma SingletonMembers(s: set<string>, x: string, y: string)
    requires |s| == 1 && x in s && y in s
    ensures x == y
  {
    var z :| z in s;
    assert |s - {z}| == 0;
    assert s - {z} == {};
  }

  /** When the archive is accepted, its paths are exactly the file and symlink members named
      `prefix + "/" + path`, `prefix` being the one top-level directory. */
  lemma ArchivePaths(members: seq<Member>, prefix: string)
    requires ArchiveFiles(members).Ok?
    requires prefix in Prefixes(members)
    ensures forall p :: p in ArchiveFiles(members).value <==>
      exists m :: m in members && Listed(m) && m.name == prefix + "/" + p
  {
    var files := ArchiveFiles(members).value;
    forall p | p in files ensures exists m :: m in members && Listed(m) && m.name == prefix + "/" + p {
      var m :| m in members && Listed(m) && m.name == Head(m.name) + "/" + p;
      SingletonMembers(Prefixes(members), Head(m.name), prefix);
    }
    forall p, m | m in members && Listed(m) && m.name == prefix + "/" + p ensures p in files {
      var n :| n in members && Head(n.name) == prefix;
      SplitJoin(n.name);
      JoinSplit(prefix, p);
      assert Tail(m.name) == Some(p);
    }
  }

  /** Members under two different top-level directories make the archive malformed. */
  lemma TwoPackagesRejected(members: seq<Member>, a: Member, b: Member)
    requires a in members && b in members
    requires Head(a.name) != Head(b.name)
    ensures ArchiveFiles(members) == Err(MultiplePackages(Prefixes(members)))
  {
    if |Prefixes(members)| == 1 {
      SingletonMembers(Prefixes(members), Head(a.name), Head(b.name));
    }
  }

  /** An archive without members has no top-level directory and is rejected. */
  lemma EmptyArchiveRejected()
    ensures ArchiveFiles([]) == Err(MultiplePackages({}))
  {
    assert Prefixes([]) == {};
  }

  /** A directory or other non-file member under the package directory adds nothing. */
  lemma UnlistedMemberIgnored(members: seq<Member>, d: Member)
    requires !Listed(d)
    requires Head(d.name) in Prefixes(members)
    ensures ArchiveFiles(members + [d]) == ArchiveFiles(members)
  {
    var all := members + [d];
    assert forall m :: m in all <==> m in members || m == d;
    assert Prefixes(all) == Prefixes(members);
    assert (exists m :: m in all && Listed(m) && Tail(m.name).None?)
       <==> (exists m :: m in members && Listed(m) && Tail(m.name).None?);
    if !exists m :: m in members && Listed(m) && Tail(m.name).None? {
      assert (set m | m in all && Listed(m) :: Tail(m.name).value)
          == (set m | m in members && Listed(m) :: Tail(m.name).value);
    }
  }

  /** `_run`'s command handling: the command gains one trailing `--no-isolation` when the build
      is not isolated; the process run and the tarball look-up are not modelled, the archive's
      members are given. */
  method Run(isolated: bool, cmd: seq<string>, members: seq<Member>) returns (invoked: seq<string>, r: Result<set<string>>)
    ensures |invoked| == |cmd| + (if isolated then 0 else 1)
    ensures invoked[..|cmd|] == cmd
    ensures !isolated ==> invoked[|cmd|] == NoIsolation
    ensures r == ArchiveFiles(members)
  {
    invoked := cmd;
    if !isolated {
      invoked := invoked + [NoIsolation];
    }
    r := ArchiveFiles(members);
  }

  /** The command each build front end runs before isolation is decided; `python` is the running
      interpreter and `outdir` the temporary output directory. */
  function BaseCommand(builder: Builder, python: string, outdir: string): (cmd: seq<string>)
    ensures |cmd| >= 4 && cmd[0] == python && cmd[1] == "-m"
  {
    match builder
    case Build => [python, "-m", "build", "--sdist", "--outdir", outdir]
    case Flit => [python, "-m", "flit", "build"]
  }

  /** `sdist_files`: dispatch through `BuildSystems`, an unknown name being an error before any
      command runs. */
  method SdistFiles(isolated: bool, buildsystem: string, python: string, outdir: string, members: seq<Member>)
    returns (invoked: seq<string>, r: Result<set<string>>)
    ensures buildsystem !in BuildSystems <==> r == Err(UnsupportedBuildSystem(buildsystem))
    ensures buildsystem !in BuildSystems ==> invoked == []
    ensures buildsystem in BuildSystems ==>
      var base := BaseCommand(BuildSystems[buildsystem], python, outdir);
      && invoked == base + (if isolated then [] else [NoIsolation])
      && r == ArchiveFiles(members)
  {
    if buildsystem !in BuildSystems {
      return [], Err(UnsupportedBuildSystem(buildsystem));
    }
    var base := BaseCommand(BuildSystems[buildsystem], python, outdir);
    invoked, r := Run(isolated, base, members);
    assert invoked == invoked[..|base|] + invoked[|base|..];
  }

  /** The build-system names `sdist_files` accepts are exactly "build" and "flit". */
  lemma BuildSystemNames()
    ensures BuildSystems.Keys == {"build", "flit"}
  {
  }
}
