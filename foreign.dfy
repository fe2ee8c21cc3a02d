/** The two foreign functions check-sdist relies on, taken as parameters so that every property
    proved holds for any result they return; both are taken to be total, never raising. */
module Foreign {
  /** `GitIgnoreSpec.from_lines(patterns).match_file(path)`: whether a gitignore-style pattern
      list excludes a path (last matching pattern wins, `!` re-includes). */
  type Matcher = (seq<string>, string) -> bool

  /** `Path().glob(pattern)`, as path strings: the files on disk under the working directory
      that a glob pattern expands to. */
  type Globber = string -> set<string>
}
