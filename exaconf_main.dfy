/**
 * `main` of the `exaconf` command line: the parsed namespace is copied into
 * the log data without its passwords, the chosen subcommand runs, and its
 * result or exception is logged by the `finally` clause, whose `return`
 * decides the exit status.
 */
module ExaconfMain {
  import opened Wrappers
  import opened ExaconfEdit

  /** The attributes never written to the log. */
  const PasswordKeys: seq<string> := ["passwd", "read_passwd", "write_passwd"]

  /** The namespace without its password attributes. */
  function Scrubbed(command: map<string, Value>): (r: map<string, Value>)
    ensures forall k :: k in r <==> k in command && k !in PasswordKeys
    ensures forall k :: k in r ==> r[k] == command[k]
  {
    command - {"passwd", "read_passwd", "write_passwd"}
  }

  /** The loop over the password keys, each deleted when present. */
  method ScrubPasswords(command: map<string, Value>) returns (logData: map<string, Value>)
    ensures logData == Scrubbed(command)
  {
    logData := command;
    for i := 0 to |PasswordKeys|
      invariant forall k :: k in logData <==> k in command && k !in PasswordKeys[..i]
      invariant forall k :: k in logData ==> logData[k] == command[k]
    {
      var key := PasswordKeys[i];
      assert PasswordKeys[..i + 1] == PasswordKeys[..i] + [key];
      if key in logData {
        logData := logData - {key};
      }
    }
    assert PasswordKeys[..|PasswordKeys|] == PasswordKeys;
  }

  datatype Level = Info | Error

  /** A line of the log: `log.info` or `log.error` of the data's repr. */
  datatype LogEntry = LogEntry(level: Level, data: map<string, Value>)

  /** What `main` logs and the exit status `sys.exit(main())` gives. */
  datatype MainRun = MainRun(logged: Option<LogEntry>, status: int)

  /** The try clause: the result is stored, a raised exception is stored as
      the error, and `sys.exit` stores nothing. */
  function Ran(d: map<string, Value>, outcome: Outcome): map<string, Value> {
    match outcome
    case Returned(v) => d["result" := if v.Some? then Number(v.value) else Null]
    case Raised(e) => d["error" := Text(e)]
    case Exited(_) => d
  }

  /** The finally clause's edits: the function is replaced by its name and
      a None result is dropped. */
  function Finished(d: map<string, Value>, name: string): map<string, Value> {
    var d1 := d["func" := Text(name)];
    if "result" in d1 && d1["result"] == Null then d1 - {"result"} else d1
  }

  /** Whether the namespace names a subcommand to run. */
  predicate HasFunc(command: map<string, Value>) {
    "func" in command && command["func"].Callable?
  }

  /** `main`. Without a subcommand, `command.func` raises AttributeError,
      which is caught, and `main` returns None: exit status 0 and nothing
      logged. A `func` that is not a function makes `__name__` raise in the
      finally clause: exit status 1 and nothing logged. Otherwise the run is
      logged, at error level and with status 1 exactly when the data holds
      an error. */
  function Main(command: map<string, Value>, outcome: Outcome): (r: MainRun)
    ensures r.logged.Some? <==> HasFunc(command)
    ensures "func" !in command ==> r == MainRun(None, 0)
    ensures HasFunc(command) ==> (r.status == 1 <==> outcome.Raised? || "error" in command)
    ensures r.status == 0 || r.status == 1
    ensures r.logged.Some? ==> (r.logged.value.level == Error <==> r.status == 1)
    ensures r.logged.Some? ==> forall k :: k in PasswordKeys ==> k !in r.logged.value.data
  {
    var d := Scrubbed(command);
    if "func" !in d then MainRun(None, 0)
    else if !d["func"].Callable? then MainRun(None, 1)
    else
      var data := Finished(Ran(d, outcome), d["func"].name);
      if "error" in data then MainRun(Some(LogEntry(Error, data)), 1)
      else MainRun(Some(LogEntry(Info, data)), 0)
  }

  /** The logged data: the function's name, an int result, the message of
      a raised exception, and every other non-password attribute as given. */
  lemma MainLogContents(command: map<string, Value>, outcome: Outcome, k: string)
    requires HasFunc(command)
    ensures var data := Main(command, outcome).logged.value.data;
            && data["func"] == Text(command["func"].name)
            && (outcome.Returned? && outcome.value.Some? ==> data["result"] == Number(outcome.value.value))
            && (outcome.Returned? && outcome.value.None? ==> "result" !in data)
            && (outcome.Raised? ==> data["error"] == Text(outcome.error))
            && (k !in PasswordKeys && k != "func" && k != "result" && k != "error" ==>
                  (k in data <==> k in command) && (k in data ==> data[k] == command[k]))
  {
    var d := Scrubbed(command);
    assert "func" in d;
    var data := Finished(Ran(d, outcome), d["func"].name);
    assert Main(command, outcome).logged.value.data == data;
  }

  /** `main` run step by step on the log data. */
  method CliMain(command: map<string, Value>, outcome: Outcome) returns (logged: Option<LogEntry>, status: int)
    ensures MainRun(logged, status) == Main(command, outcome)
  {
    var logData := ScrubPasswords(command);
    if "func" !in logData {
      return None, 0;
    }
    var func := logData["func"];
    match outcome {
      case Returned(v) =>
        logData := logData["result" := if v.Some? then Number(v.value) else Null];
      case Raised(e) =>
        logData := logData["error" := Text(e)];
      case Exited(_) =>
    }
    if !func.Callable? {
      return None, 1;
    }
    logData := logData["func" := Text(func.name)];
    if "result" in logData && logData["result"] == Null {
      logData := logData - {"result"};
    }
    if "error" in logData {
      return Some(LogEntry(Error, logData)), 1;
    }
    return Some(LogEntry(Info, logData)), 0;
  }

  /** As written, the `return` in the finally clause discards the
      `SystemExit` a subcommand raises, such as `read_exaconf`'s
      `sys.exit(1)` for an unreadable EXAConf: the run is logged at info
      level and the process exits with status 0. */
  lemma ExitSwallowed(command: map<string, Value>, s: int)
    requires HasFunc(command) && "error" !in command
    ensures Main(command, Exited(s)).status == 0
    ensures Main(command, Exited(s)).logged.value.level == Info
  {
  }

  /** A concrete run: `modify-volume` on an unreadable EXAConf exits 0. */
  lemma UnreadableConfExitsZero()
    ensures var command := map["func" := Callable("modify_volume"), "exaconf" := Text("/exa/etc/EXAConf")];
            Main(command, Exited(1)).status == 0
  {
    var command := map["func" := Callable("modify_volume"), "exaconf" := Text("/exa/etc/EXAConf")];
    assert "error" !in command;
    ExitSwallowed(command, 1);
  }

  /** `main` with the status of a `sys.exit` inside the subcommand kept:
      the finally clause logs the run, and the exit then proceeds. */
  function MainFixed(command: map<string, Value>, outcome: Outcome): (r: MainRun)
    ensures r.logged == Main(command, outcome).logged
    ensures HasFunc(command) && outcome.Exited? ==> r.status == outcome.status
    ensures !(HasFunc(command) && outcome.Exited?) ==> r == Main(command, outcome)
  {
    var run := Main(command, outcome);
    if HasFunc(command) && outcome.Exited? then MainRun(run.logged, outcome.status) else run
  }

  /** With the fix, a failing EXAConf read exits with status 1, and every
      other ending is as before. */
  lemma FixedExitPropagates(command: map<string, Value>)
    requires HasFunc(command)
    ensures MainFixed(command, Exited(1)).status == 1
    ensures forall v :: MainFixed(command, Returned(v)).status == Main(command, Returned(v)).status
    ensures forall e :: MainFixed(command, Raised(e)).status == 1
  {
  }
}
