/** The `ScreenshotToText` object: its constructor creates the workspace,
    runs the cleanup pass and then processes the clipboard once. The output
    directory's contents and the sequence of observable effects (printed
    lines, the model call, the file write, browser launches) are fields that
    the methods update; pure functions below say what each step leaves
    behind, and lemmas state the pipeline's promises about them. */
module App {
  import opened Wrappers
  import opened Text
  import opened PyValue
  import opened Naming
  import opened Workspace
  import opened Browser
  import opened Render
  import opened Inference

  /** One observable effect of a run, in the order it happens. */
  datatype Event =
    | Deleted(path: string)       // "Deleted old file: <path>"
    | DeleteFailed(path: string)  // "Error deleting <path>: <error>"
    | ModelCalled(request: Request)
    | Said(text: string)          // a printed result line
    | Wrote(path: string)         // the document written, "Created new file: <path>"
    | Opened(launch: Launch)      // a browser launch attempted
    | BrowserError                // "Error opening browser: <error>"
    | Crashed(error: PyError)     // an exception leaves the program

  const NoScreenshotMessage: string := "No screenshot found in clipboard. " + "Please copy an image first."
  const ParseErrorPrefix: string := "Error parsing response: "

  /** The parts of the world a run depends on and cannot see: the clipboard,
      the PNG encoder, the markdown converter, the local time, which paths
      exist, whether the preferred browser launch raises, and which entries
      cannot be unlinked. */
  datatype Env = Env(
    clipboard: Clipboard,
    encode: PngEncoder,
    convert: Converter,
    now: LocalTime,
    pathExists: string -> bool,
    launchRaises: bool,
    undeletable: set<string>)

  // ------------------------------------------------------------- cleanup

  /** The line printed for one listed entry. */
  function CleanupEvent(f: PathFlavor, dir: string, name: string, undeletable: set<string>): Event {
    if name in undeletable then DeleteFailed(Join(f, dir, name)) else Deleted(Join(f, dir, name))
  }

  /** The lines printed for the listed entries, in listing order. */
  function CleanupEvents(f: PathFlavor, dir: string, order: seq<string>, undeletable: set<string>): seq<Event> {
    if order == [] then []
    else CleanupEvents(f, dir, order[..|order| - 1], undeletable) + [CleanupEvent(f, dir, order[|order| - 1], undeletable)]
  }

  lemma CleanupEventsAppend(f: PathFlavor, dir: string, order: seq<string>, n: string, undeletable: set<string>)
    ensures CleanupEvents(f, dir, order + [n], undeletable) ==
            CleanupEvents(f, dir, order, undeletable) + [CleanupEvent(f, dir, n, undeletable)]
  {
    assert (order + [n])[..|order|] == order;
  }

  lemma AppendAssociative<T>(a: seq<T>, b: seq<T>, c: seq<T>)
    ensures (a + b) + c == a + (b + c)
  {
  }

  lemma EmptyAppend<T>(s: seq<T>)
    ensures [] + s == s
  {
  }

  ghost function Members(s: seq<string>): set<string> {
    set n | n in s
  }

  /** `order` lists every element of `s` exactly once. */
  ghost predicate IsEnumeration(order: seq<string>, s: set<string>) {
    (forall n :: n in order <==> n in s) &&
    (forall i, j :: 0 <= i < j < |order| ==> order[i] != order[j])
  }

  /** The cleanup log has one line per listed entry, in listing order, saying
      whether its deletion succeeded. */
  lemma {:induction false} CleanupLog(f: PathFlavor, dir: string, order: seq<string>, undeletable: set<string>)
    ensures |CleanupEvents(f, dir, order, undeletable)| == |order|
    ensures forall i :: 0 <= i < |order| ==>
              CleanupEvents(f, dir, order, undeletable)[i] == CleanupEvent(f, dir, order[i], undeletable)
  {
    if order != [] {
      CleanupLog(f, dir, order[..|order| - 1], undeletable);
    }
  }

  /** Every listed entry is attempted, whether or not others failed: the log
      names each one, as deleted exactly when it could be. */
  lemma EveryListedEntryAttempted(f: PathFlavor, dir: string, d: Directory, order: seq<string>, undeletable: set<string>, n: string)
    requires IsEnumeration(order, HtmlEntries(f, d))
    requires n in HtmlEntries(f, d)
    ensures |CleanupEvents(f, dir, order, undeletable)| == |order|
    ensures exists i :: 0 <= i < |order| && CleanupEvents(f, dir, order, undeletable)[i] ==
              (if n in undeletable then DeleteFailed(Join(f, dir, n)) else Deleted(Join(f, dir, n)))
  {
    CleanupLog(f, dir, order, undeletable);
    var i :| 0 <= i < |order| && order[i] == n;
    assert CleanupEvents(f, dir, order, undeletable)[i] == CleanupEvent(f, dir, n, undeletable);
  }

  /** `glob.glob`: the listed entries, each once, in an order the directory
      chooses. */
  method Glob(f: PathFlavor, d: Directory) returns (names: seq<string>)
    ensures IsEnumeration(names, HtmlEntries(f, d))
  {
    var pending := HtmlEntries(f, d);
    names := [];
    while pending != {}
      invariant pending <= HtmlEntries(f, d)
      invariant forall n :: n in names <==> n in HtmlEntries(f, d) && n !in pending
      invariant forall i, j :: 0 <= i < j < |names| ==> names[i] != names[j]
      decreases |pending|
    {
      var n :| n in pending;
      names := names + [n];
      pending := pending - {n};
    }
  }

  // ------------------------------------------------------ open_in_browser

  /** The launch attempts: the preferred one and, when it raises, the error
      line and the default handler. */
  function LaunchEvents(platform: string, pathExists: string -> bool, raises: bool, url: string): seq<Event> {
    [Opened(PreferredLaunch(platform, pathExists, url))] +
    (if raises then [BrowserError, Opened(DefaultHandler(url))] else [])
  }

  /** What `open_in_browser` prints and launches: the written path, then
      the launch attempts for its URL. */
  function OpenEvents(platform: string, dir: string, env: Env): seq<Event> {
    var f := FlavorOf(platform);
    var path := Join(f, dir, FileName(env.now));
    [Wrote(path)] + LaunchEvents(platform, env.pathExists, env.launchRaises, FileUrl(f, path))
  }

  /** The directory once `open_in_browser` has written the document under
      its time-stamped name. */
  function OpenFiles(env: Env, markdown: string, files: Directory): Directory {
    files[FileName(env.now) := CreateHtml(env.convert, markdown)]
  }

  // --------------------------------------------------- process_screenshot

  /** The model call, when the clipboard is used and its image encodes. */
  function CallEvents(clip: Clipboard, encode: PngEncoder): seq<Event> {
    var request := EncodeRequest(clip, Prompt, encode);
    if Truthy(clip) && request.Success? then [ModelCalled(request.value)] else []
  }

  /** What `process_screenshot` prints or does once the outcome is known. */
  function RespondEvents(platform: string, dir: string, env: Env, outcome: Outcome): seq<Event> {
    match outcome
    case NoImage => [Said(NoScreenshotMessage)]
    case ServiceError(text) => [Said(text)]
    case ParseError(e) => [Said(ParseErrorPrefix + Describe(e))]
    case Uncaught(e) => [Crashed(e)]
    case Answer(_) => OpenEvents(platform, dir, env)
  }

  /** The effects of `process_screenshot`, in order. */
  function ProcessEvents(platform: string, dir: string, converse: Converse, env: Env): seq<Event> {
    CallEvents(env.clipboard, env.encode) +
    RespondEvents(platform, dir, env, ProcessOutcome(env.clipboard, env.encode, converse))
  }

  /** The directory `process_screenshot` leaves: changed only by the write
      of an answer. */
  function ProcessFiles(converse: Converse, env: Env, files: Directory): Directory {
    match ProcessOutcome(env.clipboard, env.encode, converse)
    case Answer(markdown) => OpenFiles(env, markdown, files)
    case _ => files
  }

  /** `process_screenshot` once the clipboard holds something. */
  lemma ProcessWhenTruthy(platform: string, dir: string, converse: Converse, env: Env, files: Directory)
    requires Truthy(env.clipboard)
    ensures var outcome := Classify(GenerateConversation(env.clipboard, Prompt, env.encode, converse));
            && ProcessEvents(platform, dir, converse, env) ==
                 CallEvents(env.clipboard, env.encode) + RespondEvents(platform, dir, env, outcome)
            && ProcessFiles(converse, env, files) ==
                 (if outcome.Answer? then OpenFiles(env, outcome.markdown, files) else files)
  {
  }

  /** The directory before the run: as found, or freshly created. */
  function Initial(existing: Option<Directory>): Directory {
    if existing.Some? then existing.value else map[]
  }

  /** The directory a whole run leaves behind. */
  function RunFiles(platform: string, converse: Converse, env: Env, d: Directory): Directory {
    ProcessFiles(converse, env, AfterCleanup(FlavorOf(platform), d, env.undeletable))
  }

  class ScreenshotToText {
    const bedrockClient: Converse
    const modelId: string
    const platform: string
    const outputDir: string
    /** The output directory's contents. */
    var files: Directory
    /** Everything the run has done so far, in order. */
    var trace: seq<Event>
    /** The order in which the cleanup pass listed the old documents. */
    ghost var globOrder: seq<string>

    /** `__init__`: set up the client and the workspace, clean it, process
        the clipboard. `existing` is the directory as found (`None` when it
        does not exist yet). */
    constructor (platform: string, home: string, existing: Option<Directory>, client: Converse, env: Env)
      ensures this.platform == platform && bedrockClient == client && modelId == ModelId
      ensures outputDir == OutputDir(FlavorOf(platform), home)
      ensures IsEnumeration(globOrder, HtmlEntries(FlavorOf(platform), Initial(existing)))
      ensures files == RunFiles(platform, client, env, Initial(existing))
      ensures trace == CleanupEvents(FlavorOf(platform), outputDir, globOrder, env.undeletable) +
                       ProcessEvents(platform, outputDir, client, env)
    {
      bedrockClient := client;
      modelId := ModelId;
      this.platform := platform;
      outputDir := OutputDir(FlavorOf(platform), home);
      files := Initial(existing);
      trace := [];
      new;
      var listed := CleanupOldFiles(env.undeletable);
      globOrder := listed;
      EmptyAppend(CleanupEvents(FlavorOf(platform), outputDir, listed, env.undeletable));
      ProcessScreenshot(env);
    }

    /** `cleanup_old_files`: unlink every entry the glob lists; a failure is
        logged and the loop goes on with the next entry. */
    method CleanupOldFiles(undeletable: set<string>) returns (oldFiles: seq<string>)
      modifies this`files, this`trace
      ensures IsEnumeration(oldFiles, HtmlEntries(FlavorOf(platform), old(files)))
      ensures files == AfterCleanup(FlavorOf(platform), old(files), undeletable)
      ensures trace == old(trace) + CleanupEvents(FlavorOf(platform), outputDir, oldFiles, undeletable)
    {
      var f := FlavorOf(platform);
      oldFiles := Glob(f, files);
      ghost var start, log0 := files, trace;
      for i := 0 to |oldFiles|
        invariant files == Removed(start, Members(oldFiles[..i]), undeletable)
        invariant trace == log0 + CleanupEvents(f, outputDir, oldFiles[..i], undeletable)
      {
        var n := oldFiles[i];
        var path := Join(f, outputDir, n);
        RemovedStep(start, Members(oldFiles[..i]), undeletable, n);
        assert oldFiles[..i + 1] == oldFiles[..i] + [n];
        assert Members(oldFiles[..i + 1]) == Members(oldFiles[..i]) + {n};
        CleanupEventsAppend(f, outputDir, oldFiles[..i], n, undeletable);
        AppendAssociative(log0, CleanupEvents(f, outputDir, oldFiles[..i], undeletable), [CleanupEvent(f, outputDir, n, undeletable)]);
        if n in undeletable {
          trace := trace + [DeleteFailed(path)];
        } else {
          files := files - {n};
          trace := trace + [Deleted(path)];
        }
      }
      assert oldFiles[..|oldFiles|] == oldFiles;
      assert Members(oldFiles) == HtmlEntries(f, start);
    }

    /** `open_in_browser`. */
    method OpenInBrowser(markdown: string, env: Env)
      modifies this`files, this`trace
      ensures files == OpenFiles(env, markdown, old(files))
      ensures trace == old(trace) + OpenEvents(platform, outputDir, env)
    {
      var f := FlavorOf(platform);
      var html := CreateHtml(env.convert, markdown);
      var name := FileName(env.now);
      var path := Join(f, outputDir, name);
      var written := files[name := html];
      var url := FileUrl(f, path);
      var first := PreferredLaunch(platform, env.pathExists, url);
      var fallback := [];
      if env.launchRaises {
        fallback := [BrowserError, Opened(DefaultHandler(url))];
      }
      files, trace := written, trace + ([Wrote(path)] + ([Opened(first)] + fallback));
    }

    /** `process_screenshot`. */
    method ProcessScreenshot(env: Env)
      modifies this`files, this`trace
      ensures files == ProcessFiles(bedrockClient, env, old(files))
      ensures trace == old(trace) + ProcessEvents(platform, outputDir, bedrockClient, env)
    {
      if !Truthy(env.clipboard) {
        trace := trace + [Said(NoScreenshotMessage)];
        return;
      }
      var request := EncodeRequest(env.clipboard, Prompt, env.encode);
      var called := if request.Success? then [ModelCalled(request.value)] else [];
      var response := GenerateConversation(env.clipboard, Prompt, env.encode, bedrockClient);
      var outcome := Classify(response);
      ProcessWhenTruthy(platform, outputDir, bedrockClient, env, files);
      match outcome
      case ServiceError(text) =>
        trace := trace + (called + [Said(text)]);
      case ParseError(e) =>
        trace := trace + (called + [Said(ParseErrorPrefix + Describe(e))]);
      case Uncaught(e) =>
        trace := trace + (called + [Crashed(e)]);
      case Answer(markdown) =>
        ghost var before := trace;
        trace := trace + called;
        OpenInBrowser(markdown, env);
        AppendAssociative(before, called, OpenEvents(platform, outputDir, env));
    }
  }
}
