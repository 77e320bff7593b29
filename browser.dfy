/** How `open_in_browser` chooses the browser: a preferred Chrome launch per
    platform family, the default URL handler otherwise, and the default
    handler again when the preferred launch raises. */
module Browser {
  import opened Text

  const WindowsChrome: string := "C:/Program Files/Google/Chrome/Application/chrome.exe"
  /** The `webbrowser.get` command line for macOS; the backslash before the
      space is part of the string. */
  const MacOpenCommand: string := "open -a /Applications/Google\\ Chrome.app %s"
  const LinuxChrome: string := "/usr/bin/google-chrome"

  /** `chrome_path` for a `sys.platform` value; empty on other platforms. */
  function ChromePath(platform: string): (path: string)
    ensures path == "" <==>
              !StartsWith(platform, "win") && !StartsWith(platform, "darwin") && !StartsWith(platform, "linux")
  {
    if StartsWith(platform, "win") then WindowsChrome
    else if StartsWith(platform, "darwin") then MacOpenCommand
    else if StartsWith(platform, "linux") then LinuxChrome
    else ""
  }

  /** One call that opens `url`. */
  datatype Launch =
    | MacOpen(command: string, url: string)  // webbrowser.get(command).open(url)
    | Chrome(path: string, url: string)      // registered BackgroundBrowser(path)
    | DefaultHandler(url: string)            // webbrowser.open(url)

  /** The launch tried first; `pathExists` stands for `os.path.exists`. */
  function PreferredLaunch(platform: string, pathExists: string -> bool, url: string): Launch {
    var path := ChromePath(platform);
    if StartsWith(platform, "darwin") then MacOpen(path, url)
    else if path != "" && pathExists(path) then Chrome(path, url)
    else DefaultHandler(url)
  }

  /** Every launch made, in order: the preferred one and, when it raises, the
      default handler as fallback. */
  function Attempts(platform: string, pathExists: string -> bool, raises: bool, url: string): seq<Launch> {
    var first := PreferredLaunch(platform, pathExists, url);
    if raises then [first, DefaultHandler(url)] else [first]
  }

  /** On macOS the `open -a` command is used and no path is checked. */
  lemma MacUsesOpenCommand(platform: string, pathExists: string -> bool, url: string)
    requires StartsWith(platform, "darwin")
    ensures PreferredLaunch(platform, pathExists, url) == MacOpen(MacOpenCommand, url)
    ensures forall other: string -> bool :: PreferredLaunch(platform, other, url) == PreferredLaunch(platform, pathExists, url)
  {
    assert !StartsWith(platform, "win") by {
      assert platform[0] == 'd';
    }
  }

  /** On Windows and Linux the fixed Chrome binary is registered exactly when
      it exists; otherwise the default handler is used. */
  lemma ChromeOnlyWhenPresent(platform: string, pathExists: string -> bool, url: string)
    requires StartsWith(platform, "win") || StartsWith(platform, "linux")
    ensures PreferredLaunch(platform, pathExists, url).Chrome? <==> pathExists(ChromePath(platform))
    ensures !pathExists(ChromePath(platform)) ==> PreferredLaunch(platform, pathExists, url) == DefaultHandler(url)
    ensures PreferredLaunch(platform, pathExists, url).Chrome? ==>
              PreferredLaunch(platform, pathExists, url).path ==
                (if StartsWith(platform, "win") then WindowsChrome else LinuxChrome)
  {
    assert !StartsWith(platform, "darwin") by {
      if StartsWith(platform, "win") { assert platform[0] == 'w'; }
      else { assert platform[0] == 'l'; }
    }
  }

  /** Any other platform goes straight to the default handler. */
  lemma OtherPlatformsUseDefault(platform: string, pathExists: string -> bool, url: string)
    requires !StartsWith(platform, "win") && !StartsWith(platform, "darwin") && !StartsWith(platform, "linux")
    ensures PreferredLaunch(platform, pathExists, url) == DefaultHandler(url)
  {
  }

  /** One launch when it succeeds, two when it raises, the second being the
      default handler; each one opens the same URL. */
  lemma FallbackOnFailure(platform: string, pathExists: string -> bool, raises: bool, url: string)
    ensures |Attempts(platform, pathExists, raises, url)| == if raises then 2 else 1
    ensures raises ==> Attempts(platform, pathExists, raises, url)[1] == DefaultHandler(url)
    ensures forall l :: l in Attempts(platform, pathExists, raises, url) ==> l.url == url
  {
  }
}
