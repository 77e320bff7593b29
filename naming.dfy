/** Paths and names of the rendered document: `os.path.join`, the
    `analysis_YYYYMMDD_HHMMSS.html` file name built from the local time, and
    the `file:///` URL handed to the browser. */
module Naming {
  import opened Wrappers
  import opened Text

  /** The two path conventions `os.path` follows: POSIX (separator `/`) and
      Windows (separator `\`, with `/` accepted as well). */
  datatype PathFlavor = Posix | Windows

  /** `sys.platform` starts with "win" exactly on Windows builds of Python,
      where `os.sep` is a backslash. */
  function FlavorOf(platform: string): PathFlavor {
    if StartsWith(platform, "win") then Windows else Posix
  }

  /** `os.sep`. */
  function Sep(f: PathFlavor): char {
    match f
    case Posix => '/'
    case Windows => '\\'
  }

  predicate IsSep(f: PathFlavor, c: char) {
    c == '/' || (f == Windows && c == '\\')
  }

  /** `os.path.join(dir, name)` for a relative `name` without a drive: a
      separator is inserted unless `dir` is empty or already ends in one. */
  function Join(f: PathFlavor, dir: string, name: string): string {
    if dir == [] || IsSep(f, dir[|dir| - 1]) then dir + name else dir + [Sep(f)] + name
  }

  /** The joined path starts with the directory and ends with the name, with
      exactly one separator added when the directory does not end in one. */
  lemma JoinShape(f: PathFlavor, dir: string, name: string)
    ensures StartsWith(Join(f, dir, name), dir) && EndsWith(Join(f, dir, name), name)
    ensures dir != [] && !IsSep(f, dir[|dir| - 1]) ==>
              Join(f, dir, name) == dir + [Sep(f)] + name && IsSep(f, Sep(f))
    ensures dir == [] || IsSep(f, dir[|dir| - 1]) ==> |Join(f, dir, name)| == |dir| + |name|
  {
    var p := Join(f, dir, name);
    assert p[..|dir|] == dir;
    assert p[|p| - |name|..] == name;
  }

  const OutputDirName: string := "screenshot_analysis"

  /** The fixed workspace under the user's home directory. */
  function OutputDir(f: PathFlavor, home: string): string {
    Join(f, home, OutputDirName)
  }

  // ------------------------------------------------------------ time stamps

  /** The calendar fields `time.strftime` reads from the local time. */
  datatype LocalTime = LocalTime(year: nat, month: nat, day: nat, hour: nat, minute: nat, second: nat)

  /** The ranges of `time.struct_time` (a second may be 60 or 61 around a leap
      second), with a four-digit year. */
  predicate ValidTime(t: LocalTime) {
    1000 <= t.year <= 9999 && 1 <= t.month <= 12 && 1 <= t.day <= 31 &&
    t.hour <= 23 && t.minute <= 59 && t.second <= 61
  }

  /** `time.strftime("%Y%m%d_%H%M%S")`. */
  function Timestamp(t: LocalTime): string {
    ZeroPad(t.year, 4) + ZeroPad(t.month, 2) + ZeroPad(t.day, 2) + "_" +
    ZeroPad(t.hour, 2) + ZeroPad(t.minute, 2) + ZeroPad(t.second, 2)
  }

  /** Reads a time stamp back: fifteen characters, digits around a `_` at
      position 8. */
  function ParseTimestamp(s: string): (r: Option<LocalTime>)
    ensures r.Some? ==> |s| == 15 && s[8] == '_'
  {
    if |s| == 15 && s[8] == '_' && AllDigits(s[..8]) && AllDigits(s[9..]) then
      assert AllDigits(s[0..4]) && AllDigits(s[4..6]) && AllDigits(s[6..8]);
      assert AllDigits(s[9..11]) && AllDigits(s[11..13]) && AllDigits(s[13..15]);
      Some(LocalTime(Value(s[0..4]), Value(s[4..6]), Value(s[6..8]),
                     Value(s[9..11]), Value(s[11..13]), Value(s[13..15])))
    else None
  }

  /** Every valid time gives a fifteen-character stamp `YYYYMMDD_HHMMSS` of
      digits around one underscore, from which the time can be read back. */
  lemma TimestampRoundTrip(t: LocalTime)
    requires ValidTime(t)
    ensures |Timestamp(t)| == 15 && Timestamp(t)[8] == '_'
    ensures ParseTimestamp(Timestamp(t)) == Some(t)
  {
    assert Pow10(4) == 10000 && Pow10(2) == 100;
    ZeroPadRoundTrip(t.year, 4);
    ZeroPadRoundTrip(t.month, 2);
    ZeroPadRoundTrip(t.day, 2);
    ZeroPadRoundTrip(t.hour, 2);
    ZeroPadRoundTrip(t.minute, 2);
    ZeroPadRoundTrip(t.second, 2);
    StampPieces(ZeroPad(t.year, 4), ZeroPad(t.month, 2), ZeroPad(t.day, 2),
                ZeroPad(t.hour, 2), ZeroPad(t.minute, 2), ZeroPad(t.second, 2));
  }

  /** Where each field sits in a stamp: the slices the parser reads are the
      fields that were joined, and both halves are digits. */
  lemma StampPieces(y: string, mo: string, d: string, h: string, mi: string, s: string)
    requires |y| == 4 && |mo| == 2 && |d| == 2 && |h| == 2 && |mi| == 2 && |s| == 2
    requires AllDigits(y) && AllDigits(mo) && AllDigits(d) && AllDigits(h) && AllDigits(mi) && AllDigits(s)
    ensures var stamp := y + mo + d + "_" + h + mi + s;
            |stamp| == 15 && stamp[8] == '_' && AllDigits(stamp[..8]) && AllDigits(stamp[9..]) &&
            stamp[0..4] == y && stamp[4..6] == mo && stamp[6..8] == d &&
            stamp[9..11] == h && stamp[11..13] == mi && stamp[13..15] == s
  {
    var stamp := y + mo + d + "_" + h + mi + s;
    assert stamp[..8] == y + mo + d;
    assert stamp[9..] == h + mi + s;
  }

  /** Two runs at different seconds never produce the same stamp. */
  lemma TimestampInjective(t1: LocalTime, t2: LocalTime)
    requires ValidTime(t1) && ValidTime(t2)
    requires Timestamp(t1) == Timestamp(t2)
    ensures t1 == t2
  {
    TimestampRoundTrip(t1);
    TimestampRoundTrip(t2);
  }

  // ------------------------------------------------------------ file names

  const FilePrefix: string := "analysis_"
  const HtmlSuffix: string := ".html"

  /** `f'analysis_{timestamp}.html'`. */
  function FileName(t: LocalTime): string {
    FilePrefix + Timestamp(t) + HtmlSuffix
  }

  /** Reads the time back out of an output file name. */
  function ParseFileName(name: string): (r: Option<LocalTime>)
    ensures r.Some? ==> StartsWith(name, FilePrefix) && EndsWith(name, HtmlSuffix)
  {
    if |name| >= |FilePrefix| + |HtmlSuffix| && StartsWith(name, FilePrefix) && EndsWith(name, HtmlSuffix)
    then ParseTimestamp(name[|FilePrefix|..|name| - |HtmlSuffix|])
    else None
  }

  /** The output name is `analysis_` + stamp + `.html`, 29 characters long,
      and it determines the time it was made at. */
  lemma FileNameRoundTrip(t: LocalTime)
    requires ValidTime(t)
    ensures |FileName(t)| == 29
    ensures StartsWith(FileName(t), FilePrefix) && EndsWith(FileName(t), HtmlSuffix)
    ensures ParseFileName(FileName(t)) == Some(t)
  {
    TimestampRoundTrip(t);
    var n := FileName(t);
    assert n[|FilePrefix|..|n| - |HtmlSuffix|] == Timestamp(t);
  }

  /** The fixed parts of the name have no upper-case letter. */
  lemma FixedPartsLowerCase()
    ensures IsLowerCase(FilePrefix) && IsLowerCase("_") && IsLowerCase(HtmlSuffix)
  {
    assert FilePrefix == ['a', 'n', 'a', 'l', 'y', 's', 'i', 's', '_'];
    assert HtmlSuffix == ['.', 'h', 't', 'm', 'l'];
  }

  /** The name is made of lower-case letters, digits and `_`, `.`. */
  lemma FileNameCharacters(t: LocalTime)
    ensures IsLowerCase(FileName(t))
    ensures FileName(t)[0] == 'a'
  {
    var stamp := Timestamp(t);
    var date := ZeroPad(t.year, 4) + ZeroPad(t.month, 2) + ZeroPad(t.day, 2);
    var time := ZeroPad(t.hour, 2) + ZeroPad(t.minute, 2) + ZeroPad(t.second, 2);
    assert stamp == date + "_" + time;
    DigitsAreLowerCase(date);
    DigitsAreLowerCase(time);
    FixedPartsLowerCase();
    LowerCaseConcat(FilePrefix, date);
    LowerCaseConcat(FilePrefix + date, "_");
    LowerCaseConcat(FilePrefix + date + "_", time);
    LowerCaseConcat(FilePrefix + date + "_" + time, HtmlSuffix);
    assert FileName(t) == FilePrefix + date + "_" + time + HtmlSuffix;
  }

  // ------------------------------------------------------------------ URL

  const UrlPrefix: string := "file:///"

  /** `f'file:///{path.replace(os.sep, "/")}'`. */
  function FileUrl(f: PathFlavor, path: string): (url: string)
    ensures StartsWith(url, UrlPrefix) && |url| == |UrlPrefix| + |path|
    ensures forall i :: 0 <= i < |path| ==>
              url[|UrlPrefix| + i] == (if path[i] == Sep(f) then '/' else path[i])
  {
    UrlPrefix + Replace(path, Sep(f), '/')
  }

  /** On Windows no backslash survives in the URL, and the path can be read
      back from it when it had no forward slashes of its own. */
  lemma WindowsUrl(path: string)
    ensures '\\' !in FileUrl(Windows, path)[|UrlPrefix|..]
    ensures '/' !in path ==> Replace(FileUrl(Windows, path)[|UrlPrefix|..], '/', '\\') == path
  {
    var url := FileUrl(Windows, path);
    assert url[|UrlPrefix|..] == Replace(path, '\\', '/');
    ReplaceRemoves(path, '\\', '/');
    if '/' !in path {
      ReplaceRoundTrip(path, '\\', '/');
    }
  }

  /** On POSIX the separator already is `/`, so the URL is the prefix followed
      by the path itself: an absolute path gives four slashes after `file:`. */
  lemma PosixUrl(path: string)
    ensures FileUrl(Posix, path) == UrlPrefix + path
    ensures StartsWith(path, "/") ==> StartsWith(FileUrl(Posix, path), "file:////")
  {
    var url := FileUrl(Posix, path);
    assert url[|UrlPrefix|..] == Replace(path, '/', '/');
    assert Replace(path, '/', '/') == path;
  }
}
