/** The output directory and what `cleanup_old_files` does to it. The
    directory is a map from entry name to file contents; the cleanup pass
    deletes the entries `glob("*.html")` lists, except those whose deletion
    raises. */
module Workspace {
  import opened Text
  import opened Naming

  type Directory = map<string, string>

  /** `fnmatch` compares names after `os.path.normcase`, which lower-cases on
      Windows and changes nothing on POSIX. */
  function NormCase(f: PathFlavor, name: string): string {
    match f
    case Posix => name
    case Windows => Lower(name)
  }

  /** Whether the `*.html` glob in the directory lists an entry: `*` does not match a
      leading dot, so hidden names are never listed. */
  predicate MatchesHtmlGlob(f: PathFlavor, name: string) {
    name != [] && name[0] != '.' && EndsWith(NormCase(f, name), HtmlSuffix)
  }

  /** The entries the glob lists. */
  function HtmlEntries(f: PathFlavor, d: Directory): set<string> {
    set n | n in d && MatchesHtmlGlob(f, n)
  }

  /** The directory once the entries in `done` have been unlinked, apart from
      those in `undeletable`, whose `os.unlink` raises. */
  function Removed(d: Directory, done: set<string>, undeletable: set<string>): Directory {
    map n | n in d && (n !in done || n in undeletable) :: d[n]
  }

  /** Unlinking one more entry removes it unless its deletion fails. */
  lemma RemovedStep(d: Directory, done: set<string>, undeletable: set<string>, n: string)
    ensures n !in undeletable ==> Removed(d, done + {n}, undeletable) == Removed(d, done, undeletable) - {n}
    ensures n in undeletable ==> Removed(d, done + {n}, undeletable) == Removed(d, done, undeletable)
  {
  }

  /** The directory after the whole cleanup pass. */
  function AfterCleanup(f: PathFlavor, d: Directory, undeletable: set<string>): Directory {
    Removed(d, HtmlEntries(f, d), undeletable)
  }

  /** Cleanup only removes entries and never changes a file's contents. */
  lemma CleanupOnlyRemoves(f: PathFlavor, d: Directory, undeletable: set<string>)
    ensures AfterCleanup(f, d, undeletable).Keys <= d.Keys
    ensures forall n :: n in AfterCleanup(f, d, undeletable) ==> AfterCleanup(f, d, undeletable)[n] == d[n]
  {
  }

  /** An entry survives the cleanup exactly when the glob does not list it or
      its deletion failed. */
  lemma CleanupSurvivors(f: PathFlavor, d: Directory, undeletable: set<string>, n: string)
    requires n in d
    ensures n in AfterCleanup(f, d, undeletable) <==> !MatchesHtmlGlob(f, n) || n in undeletable
  {
  }

  /** When every deletion succeeds no listed entry is left. */
  lemma CleanupLeavesNoHtml(f: PathFlavor, d: Directory)
    ensures HtmlEntries(f, AfterCleanup(f, d, {})) == {}
  {
  }

  /** The listed entries left after cleanup are those whose deletion
      failed. */
  lemma CleanupHtmlSurvivors(f: PathFlavor, d: Directory, undeletable: set<string>)
    ensures HtmlEntries(f, AfterCleanup(f, d, undeletable)) == HtmlEntries(f, d) * undeletable
  {
  }

  /** Writing an entry the glob lists adds it to the listing and changes
      nothing else in it. */
  lemma HtmlEntriesAfterWrite(f: PathFlavor, d: Directory, name: string, contents: string)
    requires MatchesHtmlGlob(f, name)
    ensures HtmlEntries(f, d[name := contents]) == HtmlEntries(f, d) + {name}
  {
  }

  /** A second cleanup pass finds nothing more to remove. */
  lemma CleanupIdempotent(f: PathFlavor, d: Directory, undeletable: set<string>)
    ensures AfterCleanup(f, AfterCleanup(f, d, undeletable), undeletable) == AfterCleanup(f, d, undeletable)
  {
    var once := AfterCleanup(f, d, undeletable);
    var twice := AfterCleanup(f, once, undeletable);
    assert twice.Keys == once.Keys;
  }

  /** The rendered document's name is one the glob lists, on either path
      convention, so the next run's cleanup deletes it. */
  lemma OutputFileIsListed(f: PathFlavor, t: LocalTime)
    ensures MatchesHtmlGlob(f, FileName(t))
  {
    var n := FileName(t);
    FileNameCharacters(t);
    if f == Windows {
      assert IsLowerCase(HtmlSuffix);
      LowerKeepsSuffix(n, HtmlSuffix);
    }
  }

  /** The previous run's document is gone after the next cleanup unless its
      deletion fails. */
  lemma PreviousOutputPurged(f: PathFlavor, d: Directory, undeletable: set<string>, t: LocalTime)
    requires FileName(t) !in undeletable
    ensures FileName(t) !in AfterCleanup(f, d, undeletable)
  {
    OutputFileIsListed(f, t);
  }
}
