/** The decision chain of `control_system` (system_controls.py): the lowercased command picks one
    branch, and the branch emits at most one action on the machine. Starting a program, opening a
    browser and running a shell command are the emitted values; whether a browser executable is
    installed and the typed confirmation are parameters. */
module SystemControls {
  import opened Common

  datatype ControlBranch =
    | Notepad
    | Calculator
    | Chrome
    | Firefox
    | ConfirmShutdown   // "shutdown" or "turn off"
    | CancelShutdown
    | ConfirmRestart
    | Unknown

  /** What the machine is asked to do. */
  datatype Action =
    | Launch(program: string)   // subprocess.Popen
    | OpenBrowser(url: string)  // webbrowser.open
    | Shell(command: string)    // os.system
    | NoAction

  const ChromePath: string := "C:\\Program Files\\Google\\Chrome\\Application\\chrome.exe"
  const FirefoxPath: string := "C:\\Program Files\\Mozilla Firefox\\firefox.exe"
  const BrowserFallback: string := "https://www.google.com"
  const ShutdownCommand: string := "shutdown /s /t 60"
  const AbortShutdownCommand: string := "shutdown /a"
  const RestartCommand: string := "shutdown /r /t 60"

  /** The first branch whose words occur in the lowercased command. */
  function Branch(command: string): ControlBranch {
    var lower := Lower(command);
    if Contains(lower, "notepad") then Notepad
    else if Contains(lower, "calculator") then Calculator
    else if Contains(lower, "chrome") then Chrome
    else if Contains(lower, "firefox") then Firefox
    else if Contains(lower, "shutdown") || Contains(lower, "turn off") then ConfirmShutdown
    else if Contains(lower, "cancel shutdown") then CancelShutdown
    else if Contains(lower, "restart") then ConfirmRestart
    else Unknown
  }

  /** `confirmation.lower() == 'yes'` */
  predicate Confirmed(confirmation: string) {
    Lower(confirmation) == "yes"
  }

  /** The action of a branch. A browser that is not installed makes Popen raise
      FileNotFoundError, and google.com is opened instead. */
  function ActionFor(branch: ControlBranch, confirmation: string, chromeInstalled: bool,
                     firefoxInstalled: bool): Action {
    match branch
    case Notepad => Launch("notepad.exe")
    case Calculator => Launch("calc.exe")
    case Chrome => if chromeInstalled then Launch(ChromePath) else OpenBrowser(BrowserFallback)
    case Firefox => if firefoxInstalled then Launch(FirefoxPath) else OpenBrowser(BrowserFallback)
    case ConfirmShutdown => if Confirmed(confirmation) then Shell(ShutdownCommand) else NoAction
    case CancelShutdown => Shell(AbortShutdownCommand)
    case ConfirmRestart => if Confirmed(confirmation) then Shell(RestartCommand) else NoAction
    case Unknown => NoAction
  }

  /** `control_system`: the action taken. The Python function returns None on every path. */
  function ControlSystem(command: string, confirmation: string, chromeInstalled: bool,
                         firefoxInstalled: bool): Action {
    ActionFor(Branch(command), confirmation, chromeInstalled, firefoxInstalled)
  }

  /** Whether the branch asks for a typed confirmation. */
  predicate AsksConfirmation(branch: ControlBranch) {
    branch == ConfirmShutdown || branch == ConfirmRestart
  }

  /** Any command with "cancel shutdown" has "shutdown" and is taken by the earlier branch, so the
      cancel branch is never chosen and "shutdown /a" is never run. */
  lemma CancelShutdownUnreachable(command: string, confirmation: string, chromeInstalled: bool,
                                  firefoxInstalled: bool)
    ensures Branch(command) != CancelShutdown
    ensures ControlSystem(command, confirmation, chromeInstalled, firefoxInstalled) != Shell(AbortShutdownCommand)
  {
    var lower := Lower(command);
    if Contains(lower, "cancel shutdown") {
      assert OccursAt("cancel shutdown", "shutdown", 7);
      ContainsTransitive(lower, "cancel shutdown", "shutdown");
    }
  }

  /** The branches are tried in a fixed order and the first whose words occur wins; the cancel
      branch is never reached and the restart branch only when no earlier word occurs. */
  lemma BranchPriority(command: string)
    ensures var lower := Lower(command);
            var notepad := Contains(lower, "notepad");
            var calculator := Contains(lower, "calculator");
            var chrome := Contains(lower, "chrome");
            var firefox := Contains(lower, "firefox");
            var power := Contains(lower, "shutdown") || Contains(lower, "turn off");
            var restart := Contains(lower, "restart");
            && (Branch(command) == Notepad <==> notepad)
            && (Branch(command) == Calculator <==> !notepad && calculator)
            && (Branch(command) == Chrome <==> !notepad && !calculator && chrome)
            && (Branch(command) == Firefox <==> !notepad && !calculator && !chrome && firefox)
            && (Branch(command) == ConfirmShutdown <==> !notepad && !calculator && !chrome && !firefox && power)
            && (Branch(command) == ConfirmRestart <==>
                  !notepad && !calculator && !chrome && !firefox && !power && restart)
            && (Branch(command) == Unknown <==>
                  !notepad && !calculator && !chrome && !firefox && !power && !restart)
  {
    CancelShutdownUnreachable(command, "", true, true);
  }

  /** The machine is shut down only on a shutdown request confirmed with exactly "yes" in any
      case, and restarted only on a restart request confirmed the same way. */
  lemma ShutdownOnlyOnExactYes(command: string, confirmation: string, chromeInstalled: bool,
                               firefoxInstalled: bool)
    ensures (ControlSystem(command, confirmation, chromeInstalled, firefoxInstalled) == Shell(ShutdownCommand))
              <==> Branch(command) == ConfirmShutdown && Confirmed(confirmation)
    ensures (ControlSystem(command, confirmation, chromeInstalled, firefoxInstalled) == Shell(RestartCommand))
              <==> Branch(command) == ConfirmRestart && Confirmed(confirmation)
    ensures AsksConfirmation(Branch(command)) && !Confirmed(confirmation) ==>
              ControlSystem(command, confirmation, chromeInstalled, firefoxInstalled) == NoAction
  {
    assert ShutdownCommand != RestartCommand;
    assert AbortShutdownCommand != ShutdownCommand && AbortShutdownCommand != RestartCommand;
  }

  /** "y" and " yes" are not a confirmation; "YES" is. */
  lemma ConfirmationExamples()
    ensures !Confirmed("y") && !Confirmed(" yes") && Confirmed("YES") && Confirmed("Yes")
  {
    assert Lower("y") == "y";
    assert Lower(" yes") == " yes";
    assert Lower("YES") == "yes";
    assert Lower("Yes") == "yes";
  }

  /** A browser request opens the browser if it is installed and google.com otherwise. */
  lemma BrowserFallsBackToGoogle(command: string, confirmation: string, chromeInstalled: bool,
                                 firefoxInstalled: bool)
    requires Branch(command) in {Chrome, Firefox}
    ensures var a := ControlSystem(command, confirmation, chromeInstalled, firefoxInstalled);
            a.Launch? || a == OpenBrowser(BrowserFallback)
    ensures Branch(command) == Chrome ==>
              (ControlSystem(command, confirmation, chromeInstalled, firefoxInstalled) == Launch(ChromePath)
               <==> chromeInstalled)
    ensures Branch(command) == Firefox ==>
              (ControlSystem(command, confirmation, chromeInstalled, firefoxInstalled) == Launch(FirefoxPath)
               <==> firefoxInstalled)
  {
  }

  /** Program names are tested before the power commands: "restart chrome" opens Chrome. */
  lemma RestartChromeOpensChrome(confirmation: string)
    ensures ControlSystem("restart chrome", confirmation, true, true) == Launch(ChromePath)
  {
    var c := "restart chrome";
    var lower := Lower(c);
    assert lower == c;
    MissingCharNotContained(lower, "notepad", 'n');
    MissingCharNotContained(lower, "calculator", 'l');
    assert OccursAt(lower, "chrome", 8);
  }

  /** A command that names none of the branch words takes no action, whatever is confirmed. */
  lemma NoBranchWordNoAction(command: string, confirmation: string, chromeInstalled: bool,
                             firefoxInstalled: bool)
    requires var lower := Lower(command);
             !Contains(lower, "notepad") && !Contains(lower, "calculator") && !Contains(lower, "chrome")
             && !Contains(lower, "firefox") && !Contains(lower, "shutdown") && !Contains(lower, "turn off")
             && !Contains(lower, "restart")
    ensures Branch(command) == Unknown
    ensures ControlSystem(command, confirmation, chromeInstalled, firefoxInstalled) == NoAction
  {
    CancelShutdownUnreachable(command, confirmation, chromeInstalled, firefoxInstalled);
  }
}
