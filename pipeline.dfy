/** What a whole run promises: cleanup first, then at most one model call,
    and a file write and browser launch only when the response carried a
    text. Stated on the functions that the `ScreenshotToText` methods are
    proved against. */
module Pipeline {
  import opened Wrappers
  import opened Text
  import opened PyValue
  import opened Naming
  import opened Workspace
  import opened Browser
  import opened Render
  import opened Inference
  import opened App

  /** The events only the cleanup pass produces. */
  predicate IsCleanupEvent(e: Event) {
    e.Deleted? || e.DeleteFailed?
  }

  /** The browser launches among a run's events, in order. */
  function Launches(events: seq<Event>): seq<Launch> {
    if events == [] then []
    else (if events[0].Opened? then [events[0].launch] else []) + Launches(events[1..])
  }

  lemma {:induction false} LaunchesAppend(a: seq<Event>, b: seq<Event>)
    ensures Launches(a + b) == Launches(a) + Launches(b)
  {
    if a != [] {
      assert (a + b)[1..] == a[1..] + b;
      LaunchesAppend(a[1..], b);
    } else {
      assert a + b == b;
    }
  }

  lemma {:induction false} NoLaunches(events: seq<Event>)
    requires forall i :: 0 <= i < |events| ==> !events[i].Opened?
    ensures Launches(events) == []
  {
    if events != [] {
      assert forall i :: 0 <= i < |events[1..]| ==> events[1..][i] == events[i + 1];
      NoLaunches(events[1..]);
    }
  }

  /** The launches `open_in_browser` makes are the strategy's attempts, and
      the error line appears exactly when the preferred launch raised. */
  lemma LaunchEventsFollowStrategy(platform: string, pathExists: string -> bool, raises: bool, url: string)
    ensures Launches(LaunchEvents(platform, pathExists, raises, url)) == Attempts(platform, pathExists, raises, url)
    ensures BrowserError in LaunchEvents(platform, pathExists, raises, url) <==> raises
    ensures forall i :: 0 <= i < |LaunchEvents(platform, pathExists, raises, url)| ==>
              LaunchEvents(platform, pathExists, raises, url)[i].Opened? ||
              LaunchEvents(platform, pathExists, raises, url)[i] == BrowserError
  {
    var first := PreferredLaunch(platform, pathExists, url);
    var es := LaunchEvents(platform, pathExists, raises, url);
    if raises {
      assert es == [Opened(first), BrowserError, Opened(DefaultHandler(url))];
      assert es[1..] == [BrowserError, Opened(DefaultHandler(url))];
      assert es[1..][1..] == [Opened(DefaultHandler(url))];
      assert es[1..][1..][1..] == [];
      assert Launches(es[1..][1..]) == [DefaultHandler(url)];
      assert Launches(es[1..]) == [DefaultHandler(url)];
    } else {
      assert es == [Opened(first)];
      assert es[1..] == [];
    }
  }

  // ------------------------------------------------------ one outcome each

  /** The printed lines of the three non-answer outcomes can never be
      confused: the transport error, the parse error and the empty-clipboard
      message differ in their first characters. */
  lemma TerminalMessagesDistinct(serviceText: string, e: PyError)
    requires StartsWith(serviceText, ErrorPrefix)
    ensures serviceText != ParseErrorPrefix + Describe(e)
    ensures serviceText != NoScreenshotMessage
    ensures ParseErrorPrefix + Describe(e) != NoScreenshotMessage
  {
    assert serviceText[..|ErrorPrefix|] == ErrorPrefix;
    assert serviceText[0] == 'E' && serviceText[7] == 'r';
    assert (ParseErrorPrefix + Describe(e))[0] == 'E' && (ParseErrorPrefix + Describe(e))[7] == 'a';
    assert NoScreenshotMessage[0] == 'N';
  }

  /** An empty clipboard (nothing, or an empty list of file names) prints
      the one message and neither calls the model nor writes a file. */
  lemma NoImageNoEffects(platform: string, dir: string, converse: Converse, env: Env, files: Directory)
    requires !Truthy(env.clipboard)
    ensures ProcessEvents(platform, dir, converse, env) == [Said(NoScreenshotMessage)]
    ensures ProcessFiles(converse, env, files) == files
  {
    assert CallEvents(env.clipboard, env.encode) == [];
    EmptyAppend([Said(NoScreenshotMessage)]);
  }

  /** `open_in_browser` first writes the document under its time-stamped
      path, then only launches the browser (with the error line between two
      launches when the first raised), every launch opening that path's URL. */
  lemma OpenEventsEffects(platform: string, dir: string, env: Env)
    ensures var f := FlavorOf(platform);
            var path := Join(f, dir, FileName(env.now));
            var es := OpenEvents(platform, dir, env);
            && es[0] == Wrote(path)
            && (forall i :: 1 <= i < |es| ==> es[i].Opened? || es[i] == BrowserError)
            && Launches(es) == Attempts(platform, env.pathExists, env.launchRaises, FileUrl(f, path))
  {
    var f := FlavorOf(platform);
    var path := Join(f, dir, FileName(env.now));
    var url := FileUrl(f, path);
    var launch := LaunchEvents(platform, env.pathExists, env.launchRaises, url);
    var es := OpenEvents(platform, dir, env);
    assert es == [Wrote(path)] + launch;
    assert es[1..] == launch;
    assert Launches(es) == Launches(launch);
    LaunchEventsFollowStrategy(platform, env.pathExists, env.launchRaises, url);
    forall i | 1 <= i < |es| ensures es[i].Opened? || es[i] == BrowserError {
      assert es[i] == launch[i - 1];
    }
  }

  /** What `process_screenshot` does after the outcome is known: no
      deletion and no model call; without an answer one printed line or the
      exception, with one the writing and opening of `open_in_browser`. */
  lemma RespondEventsKinds(platform: string, dir: string, env: Env, outcome: Outcome)
    ensures forall i :: 0 <= i < |RespondEvents(platform, dir, env, outcome)| ==>
              !IsCleanupEvent(RespondEvents(platform, dir, env, outcome)[i]) &&
              !RespondEvents(platform, dir, env, outcome)[i].ModelCalled?
    ensures !outcome.Answer? ==>
              |RespondEvents(platform, dir, env, outcome)| == 1 &&
              (RespondEvents(platform, dir, env, outcome)[0].Said? || RespondEvents(platform, dir, env, outcome)[0].Crashed?)
    ensures outcome.Answer? ==> RespondEvents(platform, dir, env, outcome) == OpenEvents(platform, dir, env)
  {
    if outcome.Answer? {
      OpenEventsEffects(platform, dir, env);
    }
  }

  /** The directory changes only when the response carried a text, and then
      by the one document written under the time-stamped name. */
  lemma FilesChangeOnlyOnAnswer(converse: Converse, env: Env, files: Directory)
    ensures var o := ProcessOutcome(env.clipboard, env.encode, converse);
            && (!o.Answer? ==> ProcessFiles(converse, env, files) == files)
            && (o.Answer? ==> ProcessFiles(converse, env, files) == OpenFiles(env, o.markdown, files))
  {
  }

  /** The model is called at most once, as the first effect, and only
      when the clipboard holds an image that encodes; then with exactly the
      request built from it. */
  lemma ModelCalledAtMostOnce(platform: string, dir: string, converse: Converse, env: Env)
    ensures var es := ProcessEvents(platform, dir, converse, env);
            var r := EncodeRequest(env.clipboard, Prompt, env.encode);
            && (forall i :: 0 <= i < |es| && es[i].ModelCalled? ==>
                  i == 0 && Truthy(env.clipboard) && r.Success? && es[i] == ModelCalled(r.value))
            && (Truthy(env.clipboard) && r.Success? ==> |es| > 0 && es[0] == ModelCalled(r.value))
  {
    var es := ProcessEvents(platform, dir, converse, env);
    var call := CallEvents(env.clipboard, env.encode);
    var rest := RespondEvents(platform, dir, env, ProcessOutcome(env.clipboard, env.encode, converse));
    RespondEventsKinds(platform, dir, env, ProcessOutcome(env.clipboard, env.encode, converse));
    assert es == call + rest;
  }

  /** A document is written exactly when the response carried a text, and
      once: right after the model call, under the time-stamped path. */
  lemma WriteOnlyOnAnswer(platform: string, dir: string, converse: Converse, env: Env)
    ensures var es := ProcessEvents(platform, dir, converse, env);
            && (ProcessOutcome(env.clipboard, env.encode, converse).Answer? <==>
                  exists i :: 0 <= i < |es| && es[i].Wrote?)
            && (forall i :: 0 <= i < |es| && es[i].Wrote? ==>
                  i == |CallEvents(env.clipboard, env.encode)| &&
                  es[i] == Wrote(Join(FlavorOf(platform), dir, FileName(env.now))))
  {
    var es := ProcessEvents(platform, dir, converse, env);
    var o := ProcessOutcome(env.clipboard, env.encode, converse);
    var call := CallEvents(env.clipboard, env.encode);
    var rest := RespondEvents(platform, dir, env, o);
    assert es == call + rest;
    RespondEventsKinds(platform, dir, env, o);
    if o.Answer? {
      OpenEventsEffects(platform, dir, env);
      assert es[|call|] == rest[0];
    }
    forall i | 0 <= i < |es| && es[i].Wrote?
      ensures i == |call| && es[i] == Wrote(Join(FlavorOf(platform), dir, FileName(env.now)))
    {
      assert es[i] == rest[i - |call|];
    }
  }

  /** The browser is opened only after an answer was written. */
  lemma OpenOnlyAfterWrite(platform: string, dir: string, converse: Converse, env: Env)
    ensures var es := ProcessEvents(platform, dir, converse, env);
            forall j :: 0 <= j < |es| && es[j].Opened? ==>
              ProcessOutcome(env.clipboard, env.encode, converse).Answer? &&
              j > |CallEvents(env.clipboard, env.encode)|
  {
    var es := ProcessEvents(platform, dir, converse, env);
    var o := ProcessOutcome(env.clipboard, env.encode, converse);
    var call := CallEvents(env.clipboard, env.encode);
    var rest := RespondEvents(platform, dir, env, o);
    assert es == call + rest;
    RespondEventsKinds(platform, dir, env, o);
    if o.Answer? {
      OpenEventsEffects(platform, dir, env);
    }
    forall j | 0 <= j < |es| && es[j].Opened? ensures o.Answer? && j > |call| {
      assert es[j] == rest[j - |call|];
    }
  }

  /** The launches of a run are the browser strategy's attempts for the
      written document's URL, and there are none without an answer. */
  lemma RunLaunches(platform: string, dir: string, converse: Converse, env: Env)
    ensures var f := FlavorOf(platform);
            Launches(ProcessEvents(platform, dir, converse, env)) ==
              (if ProcessOutcome(env.clipboard, env.encode, converse).Answer?
               then Attempts(platform, env.pathExists, env.launchRaises, FileUrl(f, Join(f, dir, FileName(env.now))))
               else [])
  {
    var o := ProcessOutcome(env.clipboard, env.encode, converse);
    var call := CallEvents(env.clipboard, env.encode);
    var rest := RespondEvents(platform, dir, env, o);
    NoLaunches(call);
    LaunchesAppend(call, rest);
    RespondEventsKinds(platform, dir, env, o);
    if o.Answer? {
      OpenEventsEffects(platform, dir, env);
    } else {
      NoLaunches(rest);
    }
  }

  /** `process_screenshot` deletes nothing. */
  lemma ProcessDeletesNothing(platform: string, dir: string, converse: Converse, env: Env)
    ensures forall i :: 0 <= i < |ProcessEvents(platform, dir, converse, env)| ==>
              !IsCleanupEvent(ProcessEvents(platform, dir, converse, env)[i])
  {
    var es := ProcessEvents(platform, dir, converse, env);
    var call := CallEvents(env.clipboard, env.encode);
    var rest := RespondEvents(platform, dir, env, ProcessOutcome(env.clipboard, env.encode, converse));
    RespondEventsKinds(platform, dir, env, ProcessOutcome(env.clipboard, env.encode, converse));
    assert es == call + rest;
    forall i | 0 <= i < |es| ensures !IsCleanupEvent(es[i]) {
      if i >= |call| { assert es[i] == rest[i - |call|]; }
    }
  }

  /** The whole run's log: every deletion line comes first, one per listed
      entry, whatever happens with the clipboard afterwards. */
  lemma CleanupComesFirst(platform: string, dir: string, converse: Converse, env: Env, order: seq<string>)
    ensures var log := CleanupEvents(FlavorOf(platform), dir, order, env.undeletable) +
                       ProcessEvents(platform, dir, converse, env);
            forall i :: 0 <= i < |log| ==> (IsCleanupEvent(log[i]) <==> i < |order|)
  {
    var cleanup := CleanupEvents(FlavorOf(platform), dir, order, env.undeletable);
    var es := ProcessEvents(platform, dir, converse, env);
    CleanupLog(FlavorOf(platform), dir, order, env.undeletable);
    ProcessDeletesNothing(platform, dir, converse, env);
    var log := cleanup + es;
    forall i | 0 <= i < |log| ensures IsCleanupEvent(log[i]) <==> i < |order| {
      if i < |order| { assert log[i] == cleanup[i]; } else { assert log[i] == es[i - |order|]; }
    }
  }

  /** A transport failure (an image that does not encode, a failed service
      call, or a list of file names on the clipboard) is exactly what prints
      the "Error processing image: ..." text, and it prints nothing else. */
  lemma TransportErrorPrinted(platform: string, dir: string, converse: Converse, env: Env)
    ensures var o := ProcessOutcome(env.clipboard, env.encode, converse);
            var r := EncodeRequest(env.clipboard, Prompt, env.encode);
            && (o.ServiceError? <==> Truthy(env.clipboard) && !(r.Success? && converse(r.value).Success?))
            && (o.ServiceError? ==>
                  StartsWith(o.text, ErrorPrefix) &&
                  ProcessEvents(platform, dir, converse, env) == CallEvents(env.clipboard, env.encode) + [Said(o.text)])
  {
    if Truthy(env.clipboard) {
      ServiceErrorExactlyForStrings(GenerateConversation(env.clipboard, Prompt, env.encode, converse));
    }
  }

  /** A parse error comes only after the model answered, and prints the
      "Error parsing response: ..." line naming the missing key or index. */
  lemma ParseErrorPrinted(platform: string, dir: string, converse: Converse, env: Env)
    requires ProcessOutcome(env.clipboard, env.encode, converse).ParseError?
    ensures var e := ProcessOutcome(env.clipboard, env.encode, converse).error;
            var r := EncodeRequest(env.clipboard, Prompt, env.encode);
            && (e.KeyError? || e.IndexError?)
            && r.Success? && converse(r.value).Success?
            && ProcessEvents(platform, dir, converse, env) ==
                 [ModelCalled(r.value), Said(ParseErrorPrefix + Describe(e))]
  {
    ServiceErrorExactlyForStrings(GenerateConversation(env.clipboard, Prompt, env.encode, converse));
  }

  // ------------------------------------------------------------ whole runs

  /** After a run the glob lists the old documents that could not be
      deleted and, when the response carried a text, the new one. */
  lemma HtmlFilesAfterRun(platform: string, converse: Converse, env: Env, d: Directory)
    ensures var f := FlavorOf(platform);
            HtmlEntries(f, RunFiles(platform, converse, env, d)) ==
              HtmlEntries(f, d) * env.undeletable +
              (if ProcessOutcome(env.clipboard, env.encode, converse).Answer? then {FileName(env.now)} else {})
  {
    var f := FlavorOf(platform);
    var cleaned := AfterCleanup(f, d, env.undeletable);
    CleanupHtmlSurvivors(f, d, env.undeletable);
    FilesChangeOnlyOnAnswer(converse, env, cleaned);
    var o := ProcessOutcome(env.clipboard, env.encode, converse);
    if o.Answer? {
      OutputFileIsListed(f, env.now);
      HtmlEntriesAfterWrite(f, cleaned, FileName(env.now), CreateHtml(env.convert, o.markdown));
    }
  }

  /** When every deletion succeeds, a run that rendered an answer leaves
      exactly one document: its own. */
  lemma OneHtmlAfterSuccess(platform: string, converse: Converse, env: Env, d: Directory)
    requires ProcessOutcome(env.clipboard, env.encode, converse).Answer?
    requires HtmlEntries(FlavorOf(platform), d) * env.undeletable == {}
    ensures HtmlEntries(FlavorOf(platform), RunFiles(platform, converse, env, d)) == {FileName(env.now)}
  {
    HtmlFilesAfterRun(platform, converse, env, d);
  }

  /** Entries the glob does not list survive a run with their contents. */
  lemma OtherEntriesKept(platform: string, converse: Converse, env: Env, d: Directory, n: string)
    requires n in d && !MatchesHtmlGlob(FlavorOf(platform), n)
    ensures n in RunFiles(platform, converse, env, d)
    ensures RunFiles(platform, converse, env, d)[n] == d[n]
  {
    var f := FlavorOf(platform);
    var cleaned := AfterCleanup(f, d, env.undeletable);
    CleanupSurvivors(f, d, env.undeletable, n);
    CleanupOnlyRemoves(f, d, env.undeletable);
    OutputFileIsListed(f, env.now);
    assert n != FileName(env.now);
    FilesChangeOnlyOnAnswer(converse, env, cleaned);
  }

  /** Two valid local times name two different documents. */
  lemma FileNameInjective(t1: LocalTime, t2: LocalTime)
    requires ValidTime(t1) && ValidTime(t2) && t1 != t2
    ensures FileName(t1) != FileName(t2)
  {
    FileNameRoundTrip(t1);
    FileNameRoundTrip(t2);
  }

  /** The document one run writes is removed by the next run, made at
      another second, unless its deletion fails then. */
  lemma SecondRunPurgesFirst(platform: string, c1: Converse, env1: Env, c2: Converse, env2: Env, d: Directory)
    requires ProcessOutcome(env1.clipboard, env1.encode, c1).Answer?
    requires ValidTime(env1.now) && ValidTime(env2.now) && env1.now != env2.now
    requires FileName(env1.now) !in env2.undeletable
    ensures FileName(env1.now) in RunFiles(platform, c1, env1, d)
    ensures FileName(env1.now) !in RunFiles(platform, c2, env2, RunFiles(platform, c1, env1, d))
  {
    var f := FlavorOf(platform);
    var first := RunFiles(platform, c1, env1, d);
    FilesChangeOnlyOnAnswer(c1, env1, AfterCleanup(f, d, env1.undeletable));
    var cleaned := AfterCleanup(f, first, env2.undeletable);
    PreviousOutputPurged(f, first, env2.undeletable, env1.now);
    FilesChangeOnlyOnAnswer(c2, env2, cleaned);
    FileNameInjective(env1.now, env2.now);
  }
}
