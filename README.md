# Screenshot-to-Text, modelled in Dafny

Screenshot-to-Text is a one-file Python program (`app.py`). When started, it
creates a `ScreenshotToText` object. The constructor does four things:

- it sets up an Amazon Bedrock client for the model `amazon.nova-lite-v1:0`;
- it makes sure `~/screenshot_analysis` exists;
- it deletes every `*.html` document left there by earlier runs;
- it processes the clipboard.

When the clipboard holds an image, the program encodes it as PNG and sends it
to the model with a fixed prompt. It then reads the markdown answer at
`output.message.content[0].text` and wraps it in a fixed HTML template with an
embedded style sheet. The document is written as `analysis_YYYYMMDD_HHMMSS.html`
and opened in the browser through a `file:///` URL. On Windows and Linux the
browser is Chrome when its binary exists; on macOS it is `open -a`. Otherwise,
or when that launch raises, the default handler opens it. Every other outcome
but one prints one line:

- an empty clipboard;
- a failed encoding or service call, which prints "Error processing image: ...";
- a response without the text, which prints "Error parsing response: ...".

The remaining outcome prints nothing. It happens in three cases:

- a value on the response path is not a dict where a key is asked for (a
  response of `{"output": []}`, for example);
- a value is neither a dict nor a list, string or bytes where index 0 is asked
  for;
- the text found there is not a string.

The resulting `TypeError` is not caught by `except (KeyError, IndexError)`, so
the program stops with a traceback. The model logs this as `Crashed`.

The model keeps the program's structure:

- `App.ScreenshotToText` is a class. Its fields are the output directory's
  contents (`files`, a map from entry name to text) and the run's observable
  effects in order (`trace`): printed lines, the model call, the write and
  the browser launches.
- Its constructor and its methods `CleanupOldFiles`, `OpenInBrowser` and
  `ProcessScreenshot` update those fields. Each is proved against a function
  that says what the step leaves behind: `AfterCleanup` and `CleanupEvents`;
  `OpenFiles` and `OpenEvents`; `ProcessFiles` and `ProcessEvents`.
- The pure parts are functions:
  - `Naming` holds path joining, time stamps, file names and the URL.
  - `Browser` holds the choice of browser.
  - `Render` holds the HTML template.
  - `Inference` holds the request built for the model and the
    classification of the response.
  - `PyValue` holds Python's subscript semantics on JSON-like values.
- `Pipeline` states what a whole run promises, as lemmas over those functions.

The outside world is a set of parameters (`App.Env`):

- the clipboard value;
- the PNG encoder;
- the markdown converter;
- the local time;
- `os.path.exists`;
- whether the preferred browser launch raises;
- the set of entries whose `os.unlink` raises.

The Bedrock `converse` call is a function from request to response or error
text. The platform string (`sys.platform`) decides the path convention.

## Model

| member | source | states |
|---|---|---|
| App.ScreenshotToText.constructor | app.py:12-22 | Client and model identifier are stored, the output directory is the home directory joined with `screenshot_analysis`, cleanup runs first and `process_screenshot` second: the directory is the cleaned one after processing, and the log is the cleanup lines in glob order followed by the processing effects |
| App.ScreenshotToText.CleanupOldFiles | app.py:24-38 | Returns the glob listing (each listed entry once); afterwards the directory is the old one minus every listed entry whose deletion succeeded, and the log gained one line per entry in listing order |
| App.Glob | app.py:28-29 | The result lists every entry the `*.html` pattern matches exactly once |
| App.CleanupLog | app.py:31-36 | One log line per listed entry, line i being deleted or failed for entry i |
| App.EveryListedEntryAttempted | app.py:31-36 | A failed deletion does not stop the loop: every listed entry has a line saying whether it was deleted |
| App.ScreenshotToText.OpenInBrowser | app.py:155-195 | The document is written under the time-stamped name, then written path and launch attempts are appended to the log |
| App.ScreenshotToText.ProcessScreenshot | app.py:220-243 | The directory and log change exactly as the outcome of classifying the clipboard and response dictates |
| Workspace.RemovedStep | app.py:31-36 | Unlinking one more entry removes exactly it, or nothing when its deletion raises |
| Workspace.CleanupOnlyRemoves | app.py:28-36 | Cleanup never adds an entry or changes a file's contents |
| Workspace.CleanupSurvivors | app.py:28-36 | An entry survives cleanup exactly when the glob does not list it or its deletion failed |
| Workspace.CleanupLeavesNoHtml | app.py:28-36 | With every deletion succeeding no listed entry remains |
| Workspace.CleanupHtmlSurvivors | app.py:28-36 | The listed entries after cleanup are those whose deletion failed |
| Workspace.CleanupIdempotent | app.py:28-36 | A second cleanup pass changes nothing |
| Workspace.HtmlEntriesAfterWrite | app.py:164-166 | Writing a listed name adds exactly that name to the listing |
| Workspace.OutputFileIsListed | app.py:162 | The output name matches `*.html` on both path conventions (case-insensitively on Windows) |
| Workspace.PreviousOutputPurged | app.py:28-36 | A run's document is gone after the next cleanup unless its deletion fails |
| Naming.JoinShape | app.py:162 | The joined path starts with the directory and ends with the name, with one separator added only when the directory does not already end in one |
| Text.ZeroPadRoundTrip | app.py:161 | A field below 10^width is printed in exactly width digits that read back as the field |
| Naming.TimestampRoundTrip | app.py:161 | `%Y%m%d_%H%M%S` of a valid time is 15 characters with `_` at position 8 and parses back to the same time |
| Naming.TimestampInjective | app.py:161 | Different valid times give different stamps |
| Naming.FileNameRoundTrip | app.py:162 | The name is `analysis_` + stamp + `.html`, 29 characters, and the time can be read back from it |
| Naming.FileNameCharacters | app.py:162 | The name has no upper-case letter and starts with `a`, so the glob lists it and it is not hidden |
| Text.Replace | app.py:171 | Same length, and every occurrence of the one character replaced, all others kept |
| Text.ReplaceRemoves | app.py:171 | No separator survives the replacement |
| Text.ReplaceRoundTrip | app.py:171 | The replacement is undone when the target character did not occur |
| Naming.FileUrl | app.py:171 | The URL is `file:///` followed by the path with every `os.sep` replaced by `/`, character for character |
| Naming.WindowsUrl | app.py:171 | On Windows no backslash is left and the path is recoverable when it had no forward slash |
| Naming.PosixUrl | app.py:171 | On POSIX the URL is the prefix and the path itself; an absolute path gives `file:////` |
| Browser.ChromePath | app.py:174-180 | The Chrome path is empty exactly on platforms that start with none of `win`, `darwin`, `linux` |
| Browser.MacUsesOpenCommand | app.py:183-184 | On macOS the `open -a` command opens the URL and no path is checked |
| Browser.ChromeOnlyWhenPresent | app.py:185-188 | On Windows and Linux Chrome is registered exactly when its fixed binary exists, else the default handler is used |
| Browser.OtherPlatformsUseDefault | app.py:189-190 | Any other platform uses the default handler |
| Browser.FallbackOnFailure | app.py:192-195 | One launch, or two when the first raises, the second being the default handler; all open the same URL |
| Pipeline.LaunchEventsFollowStrategy | app.py:182-195 | The launches `open_in_browser` logs are the strategy's attempts, and the error line appears exactly when the first launch raised |
| Render.FragmentRecovered | app.py:138-153 | The converted fragment is exactly what sits between the fixed head (with the style sheet) and the fixed closing lines |
| Render.DocumentDeterminesFragment | app.py:138-153 | Two documents are equal exactly when their converted fragments are: the template does not depend on the input |
| Inference.EncodeRequest | app.py:199-214 | A request exists only for an image clipboard value |
| Inference.RequestShape | app.py:204-214 | Read through Python subscripts, the request sent names the model and holds one message: role `user`, content part 0 the `png` image with the encoded bytes, part 1 the prompt, and no part 2 |
| Inference.MessageShape | app.py:204-210 | The message comes from the user, and its content list holds the image block, the text block and nothing more |
| Inference.ImageComesFirst | app.py:207 | The first part is the image: format `png`, the encoded bytes, no text |
| Inference.TextComesSecond | app.py:208 | The second part is the prompt text |
| Inference.GenerateConversation | app.py:197-218 | The result is a dict exactly when encoding and the service call succeed, and that dict is the service's own reply to the request built; otherwise it is a string starting "Error processing image: " |
| Inference.AnswerIsReplyText | app.py:212-237 | There is a text to render exactly when the clipboard is used, the image encodes, the call succeeds and the service's reply holds that text at `output.message.content[0].text` |
| Inference.TransportFailures | app.py:199-218 | A list on the clipboard, a failed encoding or a failed call each yield the error string with the matching cause |
| PyValue.Normalize | app.py:236 | An index into a sequence of length n is accepted exactly when -n <= i < n, and then it denotes position i mod n, so negative indices count from the end |
| PyValue.Lookup | app.py:236 | A chain of subscripts, stopping at the first exception; characterised by `PyValue.LookupAppend` and, for the response path, `Inference.AnswerExactlyWhenWellFormed` |
| PyValue.Subscript | app.py:236 | `KeyError` only from a dict and with the key asked for; `IndexError` only from a sequence; `TypeError` exactly for unsubscriptable values |
| PyValue.LookupAppend | app.py:236 | A subscript chain can be evaluated in two stages |
| Inference.Classify | app.py:234-241 | Never the empty-clipboard outcome; a caught parse error is a `KeyError` or `IndexError`, an uncaught one a `TypeError` |
| Inference.AnswerExactlyWhenWellFormed | app.py:236 | The text is the outcome exactly when the response is nested dicts down to a non-empty content list whose first dict holds that string under `text` |
| Inference.ServiceErrorExactlyForStrings | app.py:234-241 | The printed error string is the outcome exactly for a non-dict response |
| Inference.MissingPartIsParseError | app.py:236-239 | Each missing key, and an empty content list, gives a parse error naming it |
| Pipeline.TerminalMessagesDistinct | app.py:239-243 | The transport error, parse error and empty-clipboard lines are pairwise different |
| Pipeline.NoImageNoEffects | app.py:222-243 | An empty clipboard prints the one message, calls no model and leaves the directory alone |
| Pipeline.OpenEventsEffects | app.py:161-195 | `open_in_browser` first logs the write of the time-stamped path, then only launches and the error line, launching the strategy's attempts for that path's URL |
| Pipeline.RespondEventsKinds | app.py:234-243 | After the response nothing is deleted and the model is not called again; without a text there is one printed line or the exception |
| Pipeline.FilesChangeOnlyOnAnswer | app.py:234-241 | The directory changes only when the response carried a text, and then by the write alone |
| Pipeline.ModelCalledAtMostOnce | app.py:224-232 | The model is called at most once, first, only for an image that encodes, and with the request built from it |
| Pipeline.WriteOnlyOnAnswer | app.py:234-239 | A document is written exactly when the response carried a text, exactly once, right after the model call, under the time-stamped path |
| Pipeline.OpenOnlyAfterWrite | app.py:164-195 | Every browser launch comes after the write, and only with an answer |
| Pipeline.RunLaunches | app.py:182-195 | A run's launches are the strategy's attempts for the document's URL, and there are none without an answer |
| Pipeline.ProcessDeletesNothing | app.py:220-243 | `process_screenshot` logs no deletion |
| Pipeline.CleanupComesFirst | app.py:21-22 | In the whole log the deletion lines come first, one per listed entry, whatever the clipboard holds |
| Pipeline.TransportErrorPrinted | app.py:240-241 | The "Error processing image" line is printed exactly on a transport failure of a non-empty clipboard, and is then the only line |
| Pipeline.ParseErrorPrinted | app.py:238-239 | A parse error comes only after a successful model call and prints "Error parsing response: " with the missing key or index |
| Pipeline.HtmlFilesAfterRun | app.py:21-22 | After a run the glob lists the undeletable old documents plus, with an answer, the new one |
| Pipeline.OneHtmlAfterSuccess | app.py:21-22 | When every deletion succeeds, a run that rendered an answer leaves exactly its own document |
| Pipeline.OtherEntriesKept | app.py:28-36 | Entries the glob does not list survive a run unchanged |
| Pipeline.FileNameInjective | app.py:161-162 | Different valid times name different documents |
| Pipeline.SecondRunPurgesFirst | app.py:28-36 | The next run, at another second, removes the previous run's document unless its deletion fails |
| Naming.Join | app.py:17 | `os.path.join` for a relative name; characterised by `Naming.JoinShape` |
| Naming.OutputDir | app.py:17 | The home directory joined with `screenshot_analysis`; stored by `App.ScreenshotToText.constructor` |
| Naming.Timestamp | app.py:161 | `%Y%m%d_%H%M%S`; characterised by `Naming.TimestampRoundTrip` and `Naming.TimestampInjective` |
| Naming.FileName | app.py:162 | `analysis_<stamp>.html`; characterised by `Naming.FileNameRoundTrip` and `Naming.FileNameCharacters` |
| Workspace.MatchesHtmlGlob | app.py:28-29 | The `*.html` pattern on one entry name; characterised by `Workspace.OutputFileIsListed` and `Workspace.HtmlEntriesAfterWrite` |
| Workspace.HtmlEntries | app.py:28-29 | The entries `glob` lists; enumerated by `App.Glob`, characterised by `Workspace.CleanupHtmlSurvivors` and `Workspace.HtmlEntriesAfterWrite` |
| Workspace.AfterCleanup | app.py:28-36 | The directory the cleanup pass leaves; characterised by `Workspace.CleanupSurvivors`, `Workspace.CleanupOnlyRemoves` and `Workspace.CleanupIdempotent`, and reached by `App.ScreenshotToText.CleanupOldFiles` |
| Render.CreateHtml | app.py:40-153 | The fixed template around the converted fragment; characterised by `Render.FragmentRecovered` and `Render.DocumentDeterminesFragment` |
| Browser.PreferredLaunch | app.py:182-190 | The first launch attempted; characterised by `Browser.MacUsesOpenCommand`, `Browser.ChromeOnlyWhenPresent` and `Browser.OtherPlatformsUseDefault` |
| Browser.Attempts | app.py:182-195 | The launches in order; characterised by `Browser.FallbackOnFailure` |
| Inference.ImageBlock | app.py:207 | The image part of the message; characterised by `Inference.ImageComesFirst` |
| Inference.TextBlock | app.py:208 | The text part of the message; characterised by `Inference.TextComesSecond` |
| Inference.UserMessage | app.py:204-210 | The one user message; characterised by `Inference.MessageShape` and `Inference.RequestShape` |
| Inference.ProcessOutcome | app.py:222-243 | The terminal outcome of `process_screenshot`; characterised by `Inference.AnswerIsReplyText`, `Inference.TransportFailures` and `Pipeline.NoImageNoEffects` |
| App.CleanupEvents | app.py:31-36 | The cleanup lines in listing order; characterised by `App.CleanupLog` and `App.EveryListedEntryAttempted` |
| App.OpenEvents | app.py:161-195 | What `open_in_browser` logs; characterised by `Pipeline.OpenEventsEffects` |
| App.OpenFiles | app.py:158-166 | The directory after `open_in_browser`'s write; characterised by `Workspace.HtmlEntriesAfterWrite` and `Pipeline.FilesChangeOnlyOnAnswer` |
| App.ProcessEvents | app.py:220-243 | What `process_screenshot` logs; characterised by `Pipeline.ModelCalledAtMostOnce`, `Pipeline.WriteOnlyOnAnswer`, `Pipeline.TransportErrorPrinted` and `Pipeline.ParseErrorPrinted` |
| App.ProcessFiles | app.py:220-243 | The directory after `process_screenshot`; characterised by `Pipeline.FilesChangeOnlyOnAnswer` |
| App.RunFiles | app.py:12-22 | The directory after a whole run; characterised by `Pipeline.HtmlFilesAfterRun`, `Pipeline.OneHtmlAfterSuccess` and `Pipeline.OtherEntriesKept` |
| Inference.Truthy | app.py:224 | `if img:`, where an image counts as true and a list of file names only when it is non-empty; characterised by `Pipeline.NoImageNoEffects` and `Inference.TransportFailures` |
| PyValue.Describe | app.py:239 | `str(e)` of the caught exception: the missing key in quotes, or the index error's message; characterised by `Pipeline.ParseErrorPrinted` and `Pipeline.TerminalMessagesDistinct` |
| Workspace.NormCase | app.py:29 | The case folding `fnmatch` applies inside the glob, lower-casing on Windows only; characterised by `Workspace.OutputFileIsListed` |
| Workspace.Removed | app.py:31-36 | The directory after the loop has unlinked part of the listing; characterised by `Workspace.RemovedStep` and used as the loop invariant of `App.ScreenshotToText.CleanupOldFiles` |
| App.Initial | app.py:18-19 | The directory as found, or an empty one that `os.makedirs` creates; used by `App.ScreenshotToText.constructor` |
| App.CleanupEvent | app.py:33-36 | The "Deleted old file" or "Error deleting" line for one entry; characterised by `App.CleanupLog` and `App.EveryListedEntryAttempted` |
| App.LaunchEvents | app.py:182-195 | The launch attempts and the error line; characterised by `Pipeline.LaunchEventsFollowStrategy` |
| App.CallEvents | app.py:212-214 | The model call, made only for an image that encodes; characterised by `Pipeline.ModelCalledAtMostOnce` |
| App.RespondEvents | app.py:234-243 | What follows the response: one printed line, the crash, or `open_in_browser`; characterised by `Pipeline.RespondEventsKinds` |

## Left out

- Clipboard capture and PNG encoding (`ImageGrab.grabclipboard`, `Image.save`) are parameters. These libraries are not part of this model. A clipboard value is nothing, an image or a list of file names. Calling `.save` on a list or on nothing gives the `AttributeError` text that the model states.
- boto3 client construction and the Bedrock `converse` call are network I/O. They are a parameter that returns a response dict or the text of the exception it raised.
- markdown2 is a parameter, a function from text and extras to an HTML fragment. None of its conversions are modelled.
- A response text that is not a string is modelled as an uncaught `TypeError` from the converter. This stands for whatever markdown2 raises on such input.
- Exceptions other than the ones modelled are left out. This covers markdown2, the file write (`open`/`write`) and the fallback `webbrowser.open`. If one of these raised a `KeyError` or `IndexError` inside `open_in_browser`, the `except` in `process_screenshot` would print it as a parse error. The model does not cover that.
- The outer `except` of `cleanup_old_files` ("Error cleaning directory") is not modelled. `os.path.join` and `glob` on an existing directory do not raise in this model.
- The exception text after "Error deleting <path>:" and "Error opening browser:" is not kept. The model logs only which entry failed, or that the launch raised.
- `os.makedirs` is modelled only by its result: the directory as found, or an empty one. Permission errors and races are left out.
- Only the relative-name case of `os.path.join` is modelled. Windows drive letters and UNC rules are left out. The name joined is always relative.
- The workspace path is assumed to hold no glob metacharacters (`*`, `?`, `[`). `glob.glob` is given the joined pattern unescaped. With such a character in the home path, the directory part is also matched as a pattern, which may list another directory's documents or none at all. The model always lists the workspace's own entries, and `Workspace.HtmlEntries` and the lemmas built on it rest on this assumption.
- The Bedrock model identifier is a stored field of `App.ScreenshotToText`, which the constructor sets to `Inference.ModelId`. The request is built from that constant, which always equals the field.
- Lower-casing for Windows `fnmatch` is ASCII only; Unicode case folding is left out.
- Naming.TimestampRoundTrip: it is stated only for four-digit years. `time.strftime("%Y")` pads years below 1000 differently across platforms.
- `Describe` always puts a missing string key in single quotes. Python's `repr` switches to double quotes for a key that contains a single quote, and escapes control characters.
- Entries are names mapped to text. Directories that are themselves named `*.html`, and bytes, encodings and file metadata, are left out.
- `print` and process launching are events in the log (`App.Event`), not real output.
- The order `glob` returns is left open. The cleanup chooses any order, and the constructor's contract holds for the order it chose.
