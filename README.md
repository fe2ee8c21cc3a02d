# check-sdist: set reconciliation and verdict, in Dafny

check-sdist compares two sets of files:

- the files a project's SDist (source distribution archive) contains;
- the files git tracks.

It reports the paths found on only one side. Each side can tolerate paths through gitignore-style pattern lists read from `[tool.check-sdist]` in `pyproject.toml`. The result is an exit code from 0 to 3.

This project models three pieces of it:

- **`compare`** (module `CheckSdist`, `compare.dfy`). It drops the SDist's synthetic `PKG-INFO`. It reads `sdist-only`, `git-only` and `default-ignore`, each with its default. When default ignores are on, it appends the bundled default-ignore lines to the git-side patterns. It takes the two filtered set differences and encodes the verdict as `1·(SDist-only ≠ ∅) + 2·(git-only ≠ ∅)`.
- **`backend_ignored_patterns`** (module `Backends`, `backends.dfy`). It resolves the backend: `none`, `auto` (read from `build-system.build-backend`, with the setuptools legacy default), or an explicit identifier. It digs each backend's exclude list out of the nested configuration. Hatchling and scikit-build filter through a gitignore spec. Flit, pdm, poetry and maturin subtract glob expansions in a loop. An unknown backend named explicitly raises; under `auto` it is let through. The poetry branch has no `return` and falls through, as in the code.
- **SDist member normalisation** (module `Sdist`, `sdist.dfy`). This is the `BUILD_SYSTEMS` dispatch of `sdist_files`, plus the pure part of `_run`:
  - `--no-isolation` is appended to the command when the build is not isolated;
  - all member names must share exactly one first component;
  - the names of file and symlink members are returned with that component and its `/` stripped.

Shared pieces:

- `Outcomes` holds the `Result`/`Option` types and one error constructor per exception the code raises.
- `Toml` holds the parsed configuration tree and the `.get(key, default)` chains.
- `Foreign` holds the two foreign functions. These are the gitignore matcher and `Path().glob`. The model takes both as total functions passed as parameters, so every property holds whatever results they return; the model does not cover them raising.

Where other descriptions of the tool differ from the code, the model follows the code:

- `default-ignore` only extends the git-side list; it adds no `*.dist-info` pattern to the SDist side;
- `compare` never applies backend exclusions;
- the pdm identifier tested is `pdm.backend`;
- no `mode` or `recurse-submodules` setting is read.

## Model

| member | source | states |
|---|---|---|
| CheckSdist.Compare | src/check_sdist/__main__.py:16-68 | An error exactly when the settings cannot be read. Otherwise the verdict is the reconciliation with the user's `sdist-only` list on the SDist side, and on the git side the user's `git-only` list followed by the default-ignore lines when default ignores are on. The code is the exit code of that reconciliation, and it is 0 whenever the SDist minus `PKG-INFO` equals the tracked set. Without `pyproject.toml`, the git side uses the default-ignore lines alone. |
| CheckSdist.ReadSettings | src/check_sdist/__main__.py:31-43 | A missing file or a missing `tool.check-sdist` table gives no patterns and default ignores on. Reading succeeds exactly when the table is a table and both lists are lists of strings. On success the settings are the strings of the user's `sdist-only` and `git-only` lists, in order (empty when absent), and the truthiness of `default-ignore` (on when absent). |
| CheckSdist.MissingTableDefaults | src/check_sdist/__main__.py:31-39 | No `pyproject.toml`, no `tool` table, or no `check-sdist` table all give the all-default settings. |
| CheckSdist.Reconcile | src/check_sdist/__main__.py:48-49 | SDist-only ⊆ (SDist − PKG-INFO) − git and git-only ⊆ git − (SDist − PKG-INFO). The two are disjoint and `PKG-INFO` is never SDist-only. A path on one side only is kept exactly when its side's spec does not match it. |
| CheckSdist.ExitCode | src/check_sdist/__main__.py:56-68 | The code lies in 0..3. It is 0 iff both sets are empty, odd iff the SDist-only set is non-empty, and at least 2 iff the git-only set is non-empty. |
| CheckSdist.SameFilesMatch | src/check_sdist/__main__.py:28-68 | If the SDist minus `PKG-INFO` equals the tracked set, both sets are empty and the code is 0, whatever the patterns. |
| CheckSdist.TrackedMetadataReported | src/check_sdist/__main__.py:28-49 | A tracked `PKG-INFO` that the git spec does not match is reported as git-only even when the SDist has one, and the code is then at least 2. |
| Backends.BackendFiltered | src/check_sdist/backends.py:19-90 | The result is a subset of the input files. `none` returns the files unchanged. An `UnknownBackend` error occurs exactly when the backend is not `auto`, not `none`, and not one of the five returning backends (for poetry: once its exclude list was read without error). The error carries the requested name. |
| Backends.BackendIgnoredPatterns | src/check_sdist/backends.py:19-90 | The branch-by-branch method, with the glob loops run as written, returns exactly what `BackendFiltered` specifies. |
| Backends.SubtractGlobs | src/check_sdist/backends.py:37-40 | The loop leaves the input files minus the union of every pattern's glob expansion: a file stays iff no pattern globs to it. |
| Backends.GlobUnion | src/check_sdist/backends.py:68-71 | A path is in the union iff some pattern in the list globs to it. |
| Backends.GlobUnionOrderFree | src/check_sdist/backends.py:78-80 | Two pattern lists with the same elements, in any order or multiplicity, have the same glob union. |
| Backends.GlobFilteredOrderFree | src/check_sdist/backends.py:83-86 | A glob branch's result does not depend on the order of its patterns. An empty exclude list leaves the files unchanged. |
| Backends.PoetryPatterns | src/check_sdist/backends.py:73-77 | The comprehension succeeds iff each entry is a string, or a record whose `format` can be searched and which has a `path` when that format names `sdist`. Its patterns are exactly the plain strings plus the `path` of each record whose `format` (default `["sdist"]`) contains `"sdist"`. Its errors are type or missing-key errors. |
| Backends.AutoWithoutBuildBackend | src/check_sdist/backends.py:22-28 | Under `auto` with no `build-backend`, the resolved identifier is `setuptools.build_meta.__legacy__` and the files come back unchanged. |
| Backends.AutoUnknownPassesThrough | src/check_sdist/backends.py:87-90 | Under `auto`, a declared backend matching no branch returns the files unchanged. |
| Backends.ExplicitPoetryRaises | src/check_sdist/backends.py:72-89 | Naming `poetry.core.masonry.api` explicitly always raises. Once its exclude list reads without error, that error is `UnknownBackend`. |
| Backends.AutoPoetryFilters | src/check_sdist/backends.py:72-90 | When `auto` resolves to poetry, the result is the files minus the glob expansions of poetry's patterns. |
| Backends.SpecBackendsKeepUnmatched | src/check_sdist/backends.py:41-60 | Hatchling and scikit-build succeed iff their exclude list reads as strings. They then keep exactly the files the exclude spec does not match. |
| Backends.GlobBackendsRemoveExpansions | src/check_sdist/backends.py:30-86 | Flit, pdm and maturin succeed iff their exclude list reads as strings. They then keep exactly the files that no exclude pattern globs to. |
| Backends.FlitWithoutExcludeKeepsAll | src/check_sdist/backends.py:30-40 | If any table on the `tool.flit.sdist.exclude` path is missing, flit returns the files unchanged. |
| Backends.HatchlingWithoutExclude | src/check_sdist/backends.py:41-51 | If any table on the `tool.hatch.build.targets.sdist.exclude` path is missing, hatchling filters with an empty spec. |
| Backends.ExplicitPoetryDiffersFromAuto | src/check_sdist/backends.py:72-90 | For a project declaring poetry with no exclude list, `auto` returns the files while naming poetry raises `UnknownBackend`. |
| Backends.IntendedBackendFiltered | src/check_sdist/backends.py:13-16 | With the poetry branch returning, the result is a subset of the files. Poetry yields its glob-filtered files, and every other backend behaves as written. |
| Backends.ExplicitMatchesAuto | src/check_sdist/backends.py:13-16 | With the poetry branch returning, naming any recognised backend gives the same result as declaring it and using `auto`. |
| Toml.Dig | src/check_sdist/backends.py:31-35 | A chain of `.get(key, {})` look-ups fails only with a wrong-type error. Looking up a key in a value that is not a table raises that error, naming the key. |
| Toml.DigHitsNonTable | src/check_sdist/backends.py:31-35 | A chain that reaches a non-table part-way and still has keys to look up raises at the next key, as `AttributeError` does for `tool = "x"` or `build-system = 1`. |
| Toml.DigEmpty | src/check_sdist/backends.py:62-67 | Looking up any key path in an empty table yields the empty table. |
| Toml.DigAppend | src/check_sdist/backends.py:45-51 | Looking up along `a + b` is looking up along `a`, then along `b` from the table reached. |
| Toml.SettingAbsent | src/check_sdist/backends.py:52-58 | If any table on the way is missing, or the final key is, the setting takes its default. |
| Toml.PatternSettingAbsent | src/check_sdist/backends.py:82 | A pattern list whose path is absent is empty. |
| Toml.Texts | src/check_sdist/__main__.py:45-46 | A list converts iff every element is a string. The result has the same length and the strings in order. Otherwise the error is a wrong-type error. |
| Toml.Strings | src/check_sdist/__main__.py:37-38 | A value converts iff it is an array of strings. The result has the same length and the strings in order. |
| Sdist.SdistFiles | src/check_sdist/sdist.py:11-19 | A build-system name outside `BUILD_SYSTEMS` gives `UnsupportedBuildSystem` and runs no command. Otherwise the command run is that builder's base command plus `--no-isolation` when not isolated, and the files are the archive's normalised files. |
| Sdist.BuildSystemNames | src/check_sdist/sdist.py:56-59 | The names `sdist_files` accepts are exactly `build` and `flit`. |
| Sdist.Run | src/check_sdist/sdist.py:36-53 | The command run is the given command, plus exactly one trailing `--no-isolation` iff the build is not isolated. The files are the normalised archive files. |
| Sdist.SlashIndex | src/check_sdist/sdist.py:45 | Finds the first `/` of a name, or says it has none. |
| Sdist.SplitJoin | src/check_sdist/sdist.py:45-50 | The first component has no `/`. The rest is missing iff the name has no `/`. Otherwise component + `/` + rest is the name. |
| Sdist.JoinSplit | src/check_sdist/sdist.py:49-53 | Splitting `prefix + "/" + rest` with a slash-free prefix gives back `prefix` and `rest`. |
| Sdist.ArchiveFiles | src/check_sdist/sdist.py:45-53 | `MultiplePackages` (with the prefix set) occurs iff the members' first components are not exactly one. The archive is accepted iff there is exactly one first component and every file and symlink member's name contains `/`. A file or symlink member with no `/` is an error, not a silent skip. Every returned path comes from a file or symlink member named component + `/` + path. |
| Sdist.ArchivePaths | src/check_sdist/sdist.py:45-53 | On success, with `prefix` the one top-level directory, a path is returned iff some file or symlink member is named `prefix + "/" + path`. |
| Sdist.TwoPackagesRejected | src/check_sdist/sdist.py:45-48 | Members under two different top-level directories make the archive malformed. |
| Sdist.EmptyArchiveRejected | src/check_sdist/sdist.py:45-48 | An archive with no members is rejected: it has zero prefixes. |
| Sdist.UnlistedMemberIgnored | src/check_sdist/sdist.py:52 | Adding a directory or other non-file member under the package directory changes nothing. |

## Left out

- Running `git ls-files` and the build front ends (`subprocess.run`) is not modelled. The tracked set, the SDist's file set and the archive's member list are inputs.
- The tarball look-up `(outpath,) = Path(outdir).glob("*.tar.gz")` and opening the tarfile are archive I/O. The members come as a sequence of name and kind. Flit's `outdir` (`source_dir/dist`) is used only by that look-up.
- Parsing `pyproject.toml` and reading `default-ignore.txt` are file I/O. The parsed tree and the file's lines are inputs. TOML floats and dates are not modelled.
- Gitignore matching (`pathspec.GitIgnoreSpec`) and `Path().glob` are foreign code and the filesystem. They are parameters whose results are unconstrained, but they are taken to be total: the model never raises from them. Flit's `as_posix()` and the other branches' `str()` give the same strings on POSIX, so both are one `Globber`.
- Printing (the verbose listing and the two sorted lists), `argparse` and `main` are console UI. `Compare` returns the two sets it would print, together with the code.
- `inject.py`, `schema.py`, `resources`, the schema generator and the nox sessions are self-test fixtures and tooling.
- `compare` as written calls `sdist_files(source_dir, isolated)` with two arguments against a three-parameter signature (sdist.py line 11), so every call of `compare` raises `TypeError` at `__main__.py` line 28, before any configuration is read. `CheckSdist.Compare` models the function as if that call had returned the SDist's files, which are an input. `compare` also never calls `backend_ignored_patterns`, and the model does not wire the two together.
- Backends.BackendFiltered, CheckSdist.Compare: the two foreign calls (`Foreign.Globber`, `Foreign.Matcher`) are taken as never failing. Python lets their exceptions through: `Path().glob("")` raises `ValueError` and an absolute pattern raises `NotImplementedError` (backends.py lines 38, 69, 79 and 84), so an exclude list such as `tool.pdm.build.excludes = [""]` raises in Python where `BackendFiltered` returns `Ok`. Likewise a pattern that `GitIgnoreSpec.from_lines` refuses raises in `compare` but not in the model.
- Toml.Strings: an ill-typed configuration value becomes one `WrongType` error. This covers a string or table where a list is expected, a non-string pattern, and `.get` on a non-table. Python is not that strict everywhere:
  - at the gitignore sites (`sdist-only`, `git-only` with `default-ignore` off, and the hatchling and scikit-build excludes), `GitIgnoreSpec.from_lines` iterates a table's keys as patterns and skips falsy entries, so Python accepts `sdist-only = {a = 1}` or `sdist-only = [false]` where the model reports `WrongType`;
  - elsewhere Python raises `AttributeError` (`.get` or `.extend` on the wrong type) or `TypeError` (a non-string pattern), and in the glob loops it would iterate a string's characters or a table's keys as patterns.
- Error messages keep only their variable part: the backend name, the build-system name or the prefix set.
- Backends.BackendIgnoredPatterns: a non-string exclude pattern is rejected before the loop starts rather than at its own iteration. Earlier iterations only compute a set that is then discarded, so the outcome is the same.

## Findings

| source | as written | input that shows it | evidently intended | confidence | as-written member | corrected member |
|---|---|---|---|---|---|---|
| src/check_sdist/backends.py:72-90 | The poetry branch has no `return`. Naming `poetry.core.masonry.api` explicitly falls through to the unknown-backend check and raises `ValueError`, while `auto` with poetry declared returns the filtered files. | backend `poetry.core.masonry.api`, `pyproject` = `{build-system: {build-backend: poetry.core.masonry.api}}` | The docstring says any recognised backend can be named directly, so naming poetry should return its filtered files. | not executed | Backends.ExplicitPoetryDiffersFromAuto | Backends.ExplicitMatchesAuto |
