/*
 * The console pane that shows a build or run command's output
 * (src/helpers/console_io/ConsoleIOView.cpp): output arrives per stream (1 for
 * stdout, 2 for stderr), waits in a FIFO, and is appended to the text view one
 * item per MSG_POST_OUTPUT; at most one command runs at a time.
 */
module ConsoleIO {
  import opened Wrappers
  import opened InterfaceKit

  /** `OutputInfo`: one chunk of output and the stream it came from. */
  datatype OutputInfo = OutputInfo(fd: int, text: string)

  /** One style run of the text view: from `offset` on, text is drawn in `color`. */
  datatype TextRun = TextRun(offset: nat, color: RgbColor)

  /** Messages the view handles; the optional fields are the string a message may lack. */
  datatype ConsoleMessage =
    | ThreadStderr(stderr: Option<string>)   // CONSOLEIOTHREAD_STDERR
    | ThreadStdout(stdout: Option<string>)   // CONSOLEIOTHREAD_STDOUT
    | ClearOutput                            // MSG_CLEAR_OUTPUT
    | PostOutput                             // MSG_POST_OUTPUT
    | RunProcess                             // MSG_RUN_PROCESS
    | ThreadExit                             // CONSOLEIOTHREAD_EXIT
    | StopProcess                            // MSG_STOP_PROCESS
    | OtherMessage

  /** The message posted to the window when a command ends: CONSOLEIOTHREAD_EXIT with "cmd_type". */
  datatype WindowMessage = CommandExited(cmdType: string)

  const StdoutFd: int := 1
  const StderrFd: int := 2

  /** stderr text is orange, everything else black; both opaque. */
  const StderrColor: RgbColor := RgbColor(236, 126, 14, 255)
  const OutputColor: RgbColor := RgbColor(0, 0, 0, 255)

  /** The rule drawn on both sides of a banner: 32 dashes. */
  const BannerRule: string := "--------------------------------"

  /** The notice shown when a command is asked to run while another one runs. */
  const AnotherCommandRunning: string := "\n *** " + "Another command is running." + "\n"

  /** Whether output of stream `fd` passes the stdout and stderr check boxes. */
  predicate Accepts(fd: int, stdoutEnabled: bool, stderrEnabled: bool)
  {
    !(fd == StdoutFd && !stdoutEnabled) && !(fd == StderrFd && !stderrEnabled)
  }

  /** Only a disabled stdout drops fd 1 and only a disabled stderr drops fd 2; every other stream passes. */
  lemma AcceptsExactly(fd: int, stdoutEnabled: bool, stderrEnabled: bool)
    ensures fd != StdoutFd && fd != StderrFd ==> Accepts(fd, stdoutEnabled, stderrEnabled)
    ensures Accepts(StdoutFd, stdoutEnabled, stderrEnabled) <==> stdoutEnabled
    ensures Accepts(StderrFd, stdoutEnabled, stderrEnabled) <==> stderrEnabled
  {
  }

  /** The colour a chunk of output is drawn in. */
  function RunColor(fd: int): (c: RgbColor)
    ensures c.alpha == 255
    ensures c == (if fd == StderrFd then RgbColor(236, 126, 14, 255) else RgbColor(0, 0, 0, 255))
  {
    if fd == StderrFd then StderrColor else OutputColor
  }

  /**
   * `_BannerMessage`'s text: a rule of 32 dashes, three spaces, the command type,
   * a space, the status, another rule and a newline.
   */
  function Banner(cmdType: string, status: string): (b: string)
    ensures var c, s := |cmdType|, |status|;
      && |b| == 69 + c + s
      && (forall i :: 0 <= i < 32 ==> b[i] == '-')
      && b[32..35] == "   "
      && b[35..35 + c] == cmdType
      && b[35 + c] == ' '
      && b[36 + c..36 + c + s] == status
      && (forall i :: 36 + c + s <= i < 68 + c + s ==> b[i] == '-')
      && b[68 + c + s] == '\n'
  {
    BannerRule + "   " + cmdType + " " + status + BannerRule + "\n"
  }

  /** What passes the check boxes of a chunk of output: the chunk itself, or nothing. */
  function Passed(info: OutputInfo, stdoutEnabled: bool, stderrEnabled: bool): seq<OutputInfo>
  {
    if Accepts(info.fd, stdoutEnabled, stderrEnabled) then [info] else []
  }

  /**
   * `ConsoleIOView`: the check boxes, the pending output, the text view with its
   * style runs, whether a command runs, the Stop button, and the messages sent.
   */
  class ConsoleIOView {
    /** `fStdoutEnabled` and `fStderrEnabled`: the check boxes filtering the streams. */
    var stdoutEnabled: bool
    var stderrEnabled: bool
    /** The `console_banner` setting. */
    var consoleBanner: bool
    /** `fPendingOutput`: output waiting to be shown, oldest first. */
    var pending: seq<OutputInfo>
    /** The text view's contents and its style runs. */
    var text: string
    var runs: seq<TextRun>
    /** `fConsoleIOThread != nullptr`: a command is running. */
    var running: bool
    /** Whether the Stop button is enabled. */
    var stopEnabled: bool
    /** `fCmdType`: the kind of the current command, named in banners and in the exit message. */
    var cmdType: string
    /** MSG_POST_OUTPUT messages the view has sent itself. */
    var postRequests: nat
    /** Messages posted to the window. */
    var windowMessages: seq<WindowMessage>

    /** Style runs start inside the text and in order. */
    ghost predicate Valid()
      reads this
    {
      && (forall i :: 0 <= i < |runs| ==> runs[i].offset <= |text|)
      && (forall i, j :: 0 <= i < j < |runs| ==> runs[i].offset <= runs[j].offset)
    }

    /** The view after `_Init`: check boxes off, Stop enabled, nothing shown, nothing running. */
    constructor (cmdType: string, consoleBanner: bool)
      ensures Valid()
      ensures !stdoutEnabled && !stderrEnabled && stopEnabled && !running
      ensures pending == [] && text == "" && runs == [] && postRequests == 0 && windowMessages == []
      ensures this.cmdType == cmdType && this.consoleBanner == consoleBanner
    {
      stdoutEnabled, stderrEnabled, stopEnabled, running := false, false, true, false;
      pending, text, runs, postRequests, windowMessages := [], "", [], 0, [];
      this.cmdType, this.consoleBanner := cmdType, consoleBanner;
    }

    /** The pending queue and the count of MSG_POST_OUTPUT sent are as before. */
    twostate predicate QueueKept()
      reads this
    {
      pending == old(pending) && postRequests == old(postRequests)
    }

    /** The text view and its style runs are as before. */
    twostate predicate DisplayKept()
      reads this
    {
      text == old(text) && runs == old(runs)
    }

    /** Whether a command runs, the Stop button and the messages to the window are as before. */
    twostate predicate CommandKept()
      reads this
    {
      running == old(running) && stopEnabled == old(stopEnabled) && windowMessages == old(windowMessages)
    }

    /** `items` joined the end of the queue, with one MSG_POST_OUTPUT sent for each. */
    twostate predicate Enqueued(items: seq<OutputInfo>)
      reads this
    {
      pending == old(pending) + items && postRequests == old(postRequests) + |items|
    }

    /** `info` was shown if its stream passes the check boxes: its text at the end, in its stream's colour. */
    twostate predicate Shown(info: OutputInfo)
      reads this
    {
      if Accepts(info.fd, stdoutEnabled, stderrEnabled) then
        text == old(text) + info.text && runs == old(runs) + [TextRun(|old(text)|, RunColor(info.fd))]
      else
        DisplayKept()
    }

    /** What `_BannerMessage(status)` queues: the banner as stdout output, when the `console_banner` setting is on. */
    function BannerOutput(status: string): seq<OutputInfo>
      reads this
    {
      if consoleBanner then Passed(OutputInfo(StdoutFd, Banner(cmdType, status)), stdoutEnabled, stderrEnabled) else []
    }

    /** MSG_POST_OUTPUT's effect: the oldest pending output leaves the queue and is shown. */
    twostate predicate TookHead()
      reads this
    {
      && postRequests == old(postRequests)
      && if old(pending) == [] then
           pending == [] && DisplayKept()
         else
           pending == old(pending)[1..] && Shown(old(pending)[0])
    }

    /**
     * MSG_RUN_PROCESS's effect: a command runs afterwards and nothing goes to the
     * window. If one ran already, only the "Another command is running." notice is
     * queued. Otherwise Stop is enabled and the "started" banner is queued.
     */
    twostate predicate StartedCommand()
      reads this
    {
      && running && windowMessages == old(windowMessages)
      && if old(running) then
           stopEnabled == old(stopEnabled) && Enqueued(Passed(OutputInfo(StdoutFd, AnotherCommandRunning), stdoutEnabled, stderrEnabled))
         else
           stopEnabled && Enqueued(BannerOutput("started   "))
    }

    /**
     * `_StopCommand`'s effect: with no command running nothing changes. Otherwise
     * the command ends, Stop is disabled, the "ended" banner is queued and one
     * CONSOLEIOTHREAD_EXIT carrying the command type goes to the window.
     */
    twostate predicate StoppedCommand()
      reads this
    {
      if old(running) then
        && !running && !stopEnabled
        && Enqueued(BannerOutput("ended   --"))
        && windowMessages == old(windowMessages) + [CommandExited(cmdType)]
      else
        QueueKept() && CommandKept()
    }

    /** `AttachedToWindow`: both streams shown and Stop disabled. */
    method AttachedToWindow()
      modifies this`stdoutEnabled, this`stderrEnabled, this`stopEnabled
      ensures stdoutEnabled && stderrEnabled && !stopEnabled
    {
      stdoutEnabled, stderrEnabled := true, true;
      stopEnabled := false;
    }

    /**
     * `ConsoleOutputReceived`: output of a stream whose check box is off is
     * dropped; any other output joins the end of the queue and a MSG_POST_OUTPUT
     * is sent.
     */
    method ConsoleOutputReceived(fd: int, output: string)
      modifies this`pending, this`postRequests
      ensures Accepts(fd, stdoutEnabled, stderrEnabled) ==>
        pending == old(pending) + [OutputInfo(fd, output)] && postRequests == old(postRequests) + 1
      ensures !Accepts(fd, stdoutEnabled, stderrEnabled) ==>
        pending == old(pending) && postRequests == old(postRequests)
    {
      if fd == StdoutFd && !stdoutEnabled {
        return;
      } else if fd == StderrFd && !stderrEnabled {
        return;
      }
      pending := pending + [OutputInfo(fd, output)];
      postRequests := postRequests + 1;
    }

    /**
     * `_HandleConsoleOutput`: the check boxes are consulted again; output that
     * passes is inserted at the end of the text in its stream's colour.
     */
    method HandleConsoleOutput(info: OutputInfo)
      requires Valid()
      modifies this`text, this`runs
      ensures Valid()
      ensures Accepts(info.fd, stdoutEnabled, stderrEnabled) ==>
        && text == old(text) + info.text
        && runs == old(runs) + [TextRun(|old(text)|, RunColor(info.fd))]
      ensures !Accepts(info.fd, stdoutEnabled, stderrEnabled) ==> text == old(text) && runs == old(runs)
    {
      if info.fd == StdoutFd && !stdoutEnabled {
        return;
      } else if info.fd == StderrFd && !stderrEnabled {
        return;
      }
      var run := TextRun(|text|, RunColor(info.fd));
      text := text + info.text;
      runs := runs + [run];
    }

    /** MSG_POST_OUTPUT: shows the oldest pending output, if any. */
    method PostOutputReceived()
      requires Valid()
      modifies this`pending, this`text, this`runs
      ensures Valid()
      ensures TookHead()
    {
      if pending == [] {
        return;
      }
      var info := pending[0];
      pending := pending[1..];
      HandleConsoleOutput(info);
    }

    /** MSG_CLEAR_OUTPUT: empties the text view and drops all pending output. */
    method ClearOutputReceived()
      modifies this`text, this`runs, this`pending
      ensures Valid()
      ensures text == "" && runs == [] && pending == []
    {
      text, runs := "", [];
      pending := [];
    }

    /** `_BannerMessage`: when the `console_banner` setting is on, the banner goes out as stdout output. */
    method BannerMessage(status: string)
      modifies this`pending, this`postRequests
      ensures consoleBanner && stdoutEnabled ==>
        pending == old(pending) + [OutputInfo(StdoutFd, Banner(cmdType, status))] && postRequests == old(postRequests) + 1
      ensures !(consoleBanner && stdoutEnabled) ==> pending == old(pending) && postRequests == old(postRequests)
    {
      if !consoleBanner {
        return;
      }
      ConsoleOutputReceived(StdoutFd, Banner(cmdType, status));
    }

    /** MSG_RUN_PROCESS: starts the command unless one is running already. */
    method RunProcessReceived()
      modifies this`running, this`stopEnabled, this`pending, this`postRequests
      ensures StartedCommand()
    {
      if running {
        ConsoleOutputReceived(StdoutFd, AnotherCommandRunning);
        return;
      }
      stopEnabled := true;
      running := true;
      BannerMessage("started   ");
    }

    /** `_StopCommand`: ends the running command, if there is one. */
    method StopCommand()
      modifies this`running, this`stopEnabled, this`pending, this`postRequests, this`windowMessages
      ensures StoppedCommand()
    {
      if running {
        running := false;
        BannerMessage("ended   --");
        stopEnabled := false;
        windowMessages := windowMessages + [CommandExited(cmdType)];
      }
    }

    /** `MessageReceived`: dispatches on the message code; each case has its handler's effect and no other. */
    method MessageReceived(message: ConsoleMessage)
      requires Valid()
      modifies this`pending, this`postRequests, this`text, this`runs, this`running, this`stopEnabled, this`windowMessages
      ensures Valid()
      ensures match message
        case ThreadStderr(s) =>
          && DisplayKept() && CommandKept()
          && (if s.Some? then Enqueued(Passed(OutputInfo(StderrFd, s.value), stdoutEnabled, stderrEnabled)) else QueueKept())
        case ThreadStdout(s) =>
          && DisplayKept() && CommandKept()
          && (if s.Some? then Enqueued(Passed(OutputInfo(StdoutFd, s.value), stdoutEnabled, stderrEnabled)) else QueueKept())
        case ClearOutput => text == "" && runs == [] && pending == [] && postRequests == old(postRequests) && CommandKept()
        case PostOutput => TookHead() && CommandKept()
        case RunProcess => StartedCommand() && DisplayKept()
        case ThreadExit => StoppedCommand() && DisplayKept()
        case StopProcess => StoppedCommand() && DisplayKept()
        case OtherMessage => QueueKept() && DisplayKept() && CommandKept()
    {
      match message {
        case ThreadStderr(s) =>
          if s.Some? {
            ConsoleOutputReceived(StderrFd, s.value);
          }
        case ThreadStdout(s) =>
          if s.Some? {
            ConsoleOutputReceived(StdoutFd, s.value);
          }
        case ClearOutput =>
          ClearOutputReceived();
        case PostOutput =>
          PostOutputReceived();
        case RunProcess =>
          RunProcessReceived();
        case ThreadExit =>
          StopCommand();
        case StopProcess =>
          StopCommand();
        case OtherMessage =>
      }
    }

    /**
     * `Pulse`: once the command's process is gone, what is left in its pipes is
     * passed on as output of each non-empty stream, stdout first; if the pipes
     * cannot be read, the command is stopped. Whether the process is alive and
     * what the pipes hold come from the process, which is not part of this model.
     */
    method Pulse(processAlive: bool, pipesRead: bool, outStr: string, errStr: string)
      modifies this`running, this`stopEnabled, this`pending, this`postRequests, this`windowMessages
      ensures !old(running) || processAlive ==> QueueKept() && CommandKept()
      ensures old(running) && !processAlive && pipesRead ==>
        && CommandKept()
        && Enqueued((if outStr != "" then Passed(OutputInfo(StdoutFd, outStr), stdoutEnabled, stderrEnabled) else [])
                    + (if errStr != "" then Passed(OutputInfo(StderrFd, errStr), stdoutEnabled, stderrEnabled) else []))
      ensures old(running) && !processAlive && !pipesRead ==> StoppedCommand()
    {
      if running && !processAlive {
        if pipesRead {
          if outStr != "" {
            ConsoleOutputReceived(StdoutFd, outStr);
          }
          if errStr != "" {
            ConsoleOutputReceived(StderrFd, errStr);
          }
        } else {
          StopCommand();
        }
      }
    }
  }
}
