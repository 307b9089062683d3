/**
 The plugin side of the execute action: validation of the request parameters
 and the "ssh" credentials into a `Ssh.Config`, construction of the command
 script with its exit-status guard, the `execute` handler, and the dispatch
 that trims the handler output and shapes it into a response.
 */
module Implementation {
  import opened Wrappers
  import GoStrings
  import GoConv
  import Ssh

  const HostKey: string := "host"
  const TimeoutKey: string := "timeout"
  const PortKey: string := "port"
  const CommandKey: string := "command"

  /** Text used for an absent `timeout` parameter, parsed like a given one. */
  const DefaultTimeoutText: string := "60"
  /** Text used for an absent `port` parameter, parsed like a given one. */
  const DefaultPortText: string := "22"

  /** The shell statement appended after the user command: it re-raises a non-zero exit status. */
  const ExitCodeGuard: string :=
    "BLINK_SSH_PREV_COMMAND_EXIT_CODE=$? ; if [ $BLINK_SSH_PREV_COMMAND_EXIT_CODE -ne 0 ]; then exit $BLINK_SSH_PREV_COMMAND_EXIT_CODE; fi;"

  /** The one action the plugin supports. */
  const ExecuteActionName: string := "execute"

  /** Request parameters: names to text values; an absent key differs from an empty value. */
  type Params = map<string, string>

  /** A credential value: a string, or any value of another dynamic type. */
  datatype CredValue = Str(s: string) | NonStr

  /** The fields of the "ssh" connection. */
  type Credentials = map<string, CredValue>

  /** The validation failures of the execute handler, in the order they are checked. */
  datatype ValidationError =
    | MissingHost
    | BadTimeout(timeoutText: string)
    | BadPort(portText: string)
    | MissingCommand
    | MissingConnection
    | MissingKey
    | MissingUsername
  {
    /** The text the error prints as. */
    function Message(): string
    {
      match this
      case MissingHost => "no host parameter provided for execution"
      case BadTimeout(t) => "timeout should be a number, got " + t
      case BadPort(t) => "port should be a number, got " + t
      case MissingCommand => "no command parameter provided for execution"
      case MissingConnection => "missing ssh connection"
      case MissingKey => "missing ssh key"
      case MissingUsername => "missing ssh username"
    }
  }

  /** The first letter of a message tells the parse errors apart from each other and from the rest. */
  lemma MessageHead(e: ValidationError)
    ensures |e.Message()| > 12
    ensures e.BadTimeout? <==> e.Message()[0] == 't'
    ensures e.BadPort? <==> e.Message()[0] == 'p'
  {
  }

  /** Different validation errors print differently, so the message identifies the error. */
  lemma MessageInjective(e1: ValidationError, e2: ValidationError)
    requires e1.Message() == e2.Message()
    ensures e1 == e2
  {
    var m := e1.Message();
    MessageHead(e1);
    MessageHead(e2);
    if e1.BadTimeout? {
      assert e1.timeoutText == m[|"timeout should be a number, got "|..] == e2.timeoutText;
    } else if e1.BadPort? {
      assert e1.portText == m[|"port should be a number, got "|..] == e2.portText;
    } else if |m| == 15 || |m| == 20 || |m| == 22 {
      // "missing ssh key", "missing ssh username" and "missing ssh connection"
      // (lengths 15, 20 and 22) differ at index 12, just after "missing ssh ".
      assert m[12] == e2.Message()[12];
    } else {
      // "no host parameter ..." and "no command parameter ..." differ at index 3.
      assert m[3] == e2.Message()[3];
    }
  }

  /** Go's `creds[name].(string)`: the value when it is present and is a string. */
  function StringField(creds: Credentials, name: string): Option<string>
  {
    if name in creds && creds[name].Str? then Some(creds[name].s) else None
  }

  /** The parameter's text, or `default` when the parameter is absent. */
  function ParamOr(params: Params, name: string, default: string): string
  {
    if name in params then params[name] else default
  }

  predicate HostGiven(params: Params)
  {
    HostKey in params && params[HostKey] != ""
  }

  function TimeoutText(params: Params): string
  {
    ParamOr(params, TimeoutKey, DefaultTimeoutText)
  }

  predicate TimeoutValid(params: Params)
  {
    GoConv.Atoi(TimeoutText(params)).Some?
  }

  function PortText(params: Params): string
  {
    ParamOr(params, PortKey, DefaultPortText)
  }

  predicate PortValid(params: Params)
  {
    GoConv.Atoi(PortText(params)).Some?
  }

  predicate CommandGiven(params: Params)
  {
    CommandKey in params && params[CommandKey] != ""
  }

  /** All four parameter checks pass. */
  predicate ParamsValid(params: Params)
  {
    HostGiven(params) && TimeoutValid(params) && PortValid(params) && CommandGiven(params)
  }

  predicate KeyGiven(creds: Credentials)
  {
    StringField(creds, "key").Some? && StringField(creds, "key").value != ""
  }

  predicate UsernameGiven(creds: Credentials)
  {
    StringField(creds, "username").Some? && StringField(creds, "username").value != ""
  }

  /** The default texts are decimals: an absent timeout is 60 seconds and an absent port is 22. */
  lemma DefaultsParse()
    ensures GoConv.Atoi(DefaultTimeoutText) == Some(60)
    ensures GoConv.Atoi(DefaultPortText) == Some(22)
  {
    assert GoConv.NatDigits(60) == DefaultTimeoutText;
    assert GoConv.NatDigits(22) == DefaultPortText;
    GoConv.AtoiItoa(60);
    GoConv.AtoiItoa(22);
  }

  /**
   The command script: the user command, then the guard that exits with the
   command's status when it is non-zero. Joined by a newline it is the two
   statements of the remote command text.
   */
  function CreateCommand(cmd: string): (script: seq<string>)
    ensures |script| == 2 && script[0] == cmd && script[1] == ExitCodeGuard
    ensures GoStrings.Join(script, "\n") == cmd + "\n" + ExitCodeGuard
  {
    GoStrings.JoinPair(cmd, ExitCodeGuard, "\n");
    [cmd, ExitCodeGuard]
  }

  /**
   The validation of `executeSSH`: the parameters, then the credentials, each
   check only reached when all earlier ones pass, the first failure returned.
   On success the configuration carries the host as given, the timeout and
   port parsed (defaults 60 and 22), the command script, the key and username,
   and the passphrase when it is a string (empty otherwise).
   */
  function Validate(params: Params, creds: Option<Credentials>): (r: Result<Ssh.Config, ValidationError>)
    ensures !HostGiven(params) ==> r == Failure(MissingHost)
    ensures HostGiven(params) && !TimeoutValid(params) ==>
              TimeoutKey in params && r == Failure(BadTimeout(params[TimeoutKey]))
    ensures HostGiven(params) && TimeoutValid(params) && !PortValid(params) ==>
              PortKey in params && r == Failure(BadPort(params[PortKey]))
    ensures HostGiven(params) && TimeoutValid(params) && PortValid(params) && !CommandGiven(params) ==>
              r == Failure(MissingCommand)
    ensures ParamsValid(params) && creds.None? ==> r == Failure(MissingConnection)
    ensures ParamsValid(params) && creds.Some? && !KeyGiven(creds.value) ==> r == Failure(MissingKey)
    ensures ParamsValid(params) && creds.Some? && KeyGiven(creds.value) && !UsernameGiven(creds.value) ==>
              r == Failure(MissingUsername)
    ensures r.Success? <==>
              ParamsValid(params) && creds.Some? && KeyGiven(creds.value) && UsernameGiven(creds.value)
    ensures r.Success? ==>
              var c := r.value;
              && c.host == params[HostKey] && c.host != ""
              && (TimeoutKey !in params ==> c.timeoutSeconds == 60)
              && (TimeoutKey in params ==> GoConv.Atoi(params[TimeoutKey]) == Some(c.timeoutSeconds))
              && (PortKey !in params ==> c.port == 22)
              && (PortKey in params ==> GoConv.Atoi(params[PortKey]) == Some(c.port))
              && c.script == [params[CommandKey], ExitCodeGuard]
              && c.key != "" && creds.value["key"] == Str(c.key)
              && c.username != "" && creds.value["username"] == Str(c.username)
              && ("passphrase" in creds.value && creds.value["passphrase"].Str? ==>
                    c.passphrase == creds.value["passphrase"].s)
              && (("passphrase" !in creds.value || !creds.value["passphrase"].Str?) ==> c.passphrase == "")
  {
    DefaultsParse();
    if HostKey !in params || params[HostKey] == "" then Failure(MissingHost)
    else
      var timeoutText := ParamOr(params, TimeoutKey, DefaultTimeoutText);
      var timeout := GoConv.Atoi(timeoutText);
      if timeout.None? then Failure(BadTimeout(timeoutText))
      else
        var portText := ParamOr(params, PortKey, DefaultPortText);
        var port := GoConv.Atoi(portText);
        if port.None? then Failure(BadPort(portText))
        else if CommandKey !in params || params[CommandKey] == "" then Failure(MissingCommand)
        else if creds.None? then Failure(MissingConnection)
        else
          var key := StringField(creds.value, "key");
          if key.None? || key.value == "" then Failure(MissingKey)
          else
            var user := StringField(creds.value, "username");
            if user.None? || user.value == "" then Failure(MissingUsername)
            else
              var passphrase := StringField(creds.value, "passphrase").GetOr("");
              Success(Ssh.Config(key.value, passphrase, user.value, params[HostKey], port.value,
                                 timeout.value, CreateCommand(params[CommandKey])))
  }

  /** One validation step: whether it passes, and the error it reports when it does not. */
  datatype Check = Check(passes: bool, failure: ValidationError)

  /** The validation steps of `executeSSH` in source order. */
  function Checks(params: Params, creds: Option<Credentials>): seq<Check>
  {
    [ Check(HostGiven(params), MissingHost),
      Check(TimeoutValid(params), BadTimeout(TimeoutText(params))),
      Check(PortValid(params), BadPort(PortText(params))),
      Check(CommandGiven(params), MissingCommand),
      Check(creds.Some?, MissingConnection),
      Check(creds.Some? && KeyGiven(creds.value), MissingKey),
      Check(creds.Some? && UsernameGiven(creds.value), MissingUsername) ]
  }

  /** Step `i` is the first step of `cs` that fails. */
  predicate FirstFailureAt(cs: seq<Check>, i: nat)
  {
    i < |cs| && !cs[i].passes && forall j :: 0 <= j < i ==> cs[j].passes
  }

  /**
   First failure wins: validation succeeds exactly when every step passes,
   and otherwise reports the error of the first step that fails.
   */
  lemma ValidateFirstFailure(params: Params, creds: Option<Credentials>)
    ensures var cs := Checks(params, creds);
            Validate(params, creds).Success? <==> forall i :: 0 <= i < |cs| ==> cs[i].passes
    ensures var cs := Checks(params, creds);
            Validate(params, creds).Failure? ==>
              exists i: nat :: FirstFailureAt(cs, i) && cs[i].failure == Validate(params, creds).error
  {
    var cs := Checks(params, creds);
    var r := Validate(params, creds);
    if r.Failure? {
      if !cs[0].passes {
        assert FirstFailureAt(cs, 0);
      } else if !cs[1].passes {
        assert FirstFailureAt(cs, 1);
      } else if !cs[2].passes {
        assert FirstFailureAt(cs, 2);
      } else if !cs[3].passes {
        assert FirstFailureAt(cs, 3);
      } else if !cs[4].passes {
        assert FirstFailureAt(cs, 4);
      } else if !cs[5].passes {
        assert FirstFailureAt(cs, 5);
      } else {
        assert FirstFailureAt(cs, 6);
      }
    }
  }

  /** A timeout that is present but empty is a parse error, not the default. */
  lemma EmptyTimeoutRejected(params: Params, creds: Option<Credentials>)
    requires HostGiven(params) && TimeoutKey in params && params[TimeoutKey] == ""
    ensures Validate(params, creds) == Failure(BadTimeout(""))
  {
  }

  /** A negative timeout and a negative port pass validation unchanged: there is no range check. */
  lemma NegativeValuesAccepted(params: Params, creds: Option<Credentials>, t: int, p: int)
    requires GoConv.MinInt <= t < 0 && GoConv.MinInt <= p < 0
    requires HostGiven(params) && CommandGiven(params)
    requires TimeoutKey in params && params[TimeoutKey] == GoConv.Itoa(t)
    requires PortKey in params && params[PortKey] == GoConv.Itoa(p)
    requires creds.Some? && KeyGiven(creds.value) && UsernameGiven(creds.value)
    ensures Validate(params, creds).Success?
    ensures Validate(params, creds).value.timeoutSeconds == t
    ensures Validate(params, creds).value.port == p
  {
  }

  /** What a handler returns: the output bytes and an optional error text. */
  datatype HandlerOutput = HandlerOutput(output: string, err: Option<string>)

  /**
   The `execute` handler: a validation error is returned with empty output;
   otherwise the engine runs the configuration and its output and error are
   returned as they are.
   */
  function ExecuteSsh(run: Ssh.Transport, creds: Option<Credentials>, params: Params): (out: HandlerOutput)
    ensures Validate(params, creds).Failure? ==>
              out == HandlerOutput("", Some(Validate(params, creds).error.Message()))
    ensures Validate(params, creds).Success? ==>
              var e := Ssh.Exec(Validate(params, creds).value, run);
              && out.output == e.output
              && (e.err.None? ==> out.err.None?)
              && (e.err.Some? ==> out.err == Some(e.err.value.Message()))
  {
    match Validate(params, creds)
    case Failure(e) => HandlerOutput("", Some(e.Message()))
    case Success(config) =>
      var result := Ssh.Exec(config, run);
      HandlerOutput(result.output, if result.err.Some? then Some(result.err.value.Message()) else None)
  }

  /** A validation failure is reported before any transport use: every transport gives the same output. */
  lemma ValidationFailureIgnoresTransport(run1: Ssh.Transport, run2: Ssh.Transport,
                                          creds: Option<Credentials>, params: Params)
    requires Validate(params, creds).Failure?
    ensures ExecuteSsh(run1, creds, params) == ExecuteSsh(run2, creds, params)
  {
  }

  /**
   A validated configuration always passes the engine's own pre-checks, so the
   handler's result is the transport's reply to the session for it, with the
   command text being the user command and the guard on two lines.
   */
  lemma ValidatedRunReachesTransport(run: Ssh.Transport, creds: Option<Credentials>, params: Params)
    requires Validate(params, creds).Success?
    ensures var c := Validate(params, creds).value;
            var reply := run(Ssh.Session(c));
            && Ssh.Session(c).command == params[CommandKey] + "\n" + ExitCodeGuard
            && (reply.err.None? ==> ExecuteSsh(run, creds, params) == HandlerOutput(reply.stdout, None))
            && (reply.err.Some? ==>
                  ExecuteSsh(run, creds, params) ==
                  HandlerOutput(reply.stdout + "\n" + reply.stderr, Some(reply.err.value)))
  {
  }

  /** An action request: the action name and its parameters. */
  datatype Request = Request(name: string, parameters: Params)

  /** An action response: status 0 for success, 1 for failure, and the result text. */
  datatype Response = Response(errorCode: int, result: string)

  type ActionHandler = (Option<Credentials>, Request) -> HandlerOutput

  /**
   Removes one trailing newline when there is one: the result followed by a
   newline is the input, and input without a trailing newline is unchanged.
   */
  function TrimTrailingNewline(s: string): (t: string)
    ensures |s| > 0 && s[|s| - 1] == '\n' ==> t + "\n" == s
    ensures (|s| == 0 || s[|s| - 1] != '\n') ==> t == s
  {
    if |s| > 0 && s[|s| - 1] == '\n' then s[..|s| - 1] else s
  }

  /** Trimming undoes appending one newline. */
  lemma TrimAppendedNewline(t: string)
    ensures TrimTrailingNewline(t + "\n") == t
  {
  }

  /** Only one newline is removed: output ending in two newlines keeps one. */
  lemma TrimKeepsSecondNewline(t: string)
    ensures TrimTrailingNewline(t + "\n\n") == t + "\n"
  {
  }

  /** The failure message: the error, then the trimmed output. */
  function FailureMessage(err: string, output: string): string
  {
    " error: " + err + ", output: " + output
  }

  /**
   `ExecuteAction`: an unknown action is an error and runs no handler.
   Otherwise the handler runs, one trailing newline is removed from its
   output, and the response is status 0 with the output, or status 1 with a
   message embedding the error and the output when the handler failed.
   */
  function ExecuteAction(supported: map<string, ActionHandler>, creds: Option<Credentials>, request: Request)
    : (r: Result<Response, string>)
    ensures request.name !in supported ==> r == Failure("action is not supported: " + request.name)
    ensures request.name in supported ==>
              var out := supported[request.name](creds, request);
              && r.Success?
              && (r.value.errorCode == 0 <==> out.err.None?)
              && (out.err.None? ==> r.value == Response(0, TrimTrailingNewline(out.output)))
              && (out.err.Some? ==>
                    r.value == Response(1, " error: " + out.err.value + ", output: " + TrimTrailingNewline(out.output)))
  {
    if request.name !in supported then Failure("action is not supported: " + request.name)
    else
      var out := supported[request.name](creds, request);
      var trimmed := TrimTrailingNewline(out.output);
      match out.err
      case Some(e) => Success(Response(1, FailureMessage(e, trimmed)))
      case None => Success(Response(0, trimmed))
  }

  /** The plugin's action table: `execute` runs the SSH handler on the request parameters. */
  function SupportedActions(run: Ssh.Transport): (table: map<string, ActionHandler>)
    ensures table.Keys == {ExecuteActionName}
    ensures forall creds, request :: table[ExecuteActionName](creds, request) == ExecuteSsh(run, creds, request.parameters)
  {
    map[ExecuteActionName := (creds: Option<Credentials>, request: Request) =>
          ExecuteSsh(run, creds, request.parameters)]
  }

  /**
   The plugin entry point for one request: any action other than `execute` is
   rejected; `execute` runs the SSH handler on the request parameters and
   shapes its trimmed output into a status-0 or status-1 response.
   */
  function Execute(run: Ssh.Transport, creds: Option<Credentials>, request: Request): (r: Result<Response, string>)
    ensures request.name != ExecuteActionName ==> r == Failure("action is not supported: " + request.name)
    ensures request.name == ExecuteActionName ==>
              var out := ExecuteSsh(run, creds, request.parameters);
              && (out.err.None? ==> r == Success(Response(0, TrimTrailingNewline(out.output))))
              && (out.err.Some? ==>
                    r == Success(Response(1, " error: " + out.err.value + ", output: "
                                            + TrimTrailingNewline(out.output))))
  {
    ExecuteAction(SupportedActions(run), creds, request)
  }

  /** Any action other than `execute` is rejected, whatever the transport. */
  lemma UnknownActionRejected(run: Ssh.Transport, creds: Option<Credentials>, request: Request)
    requires request.name != ExecuteActionName
    ensures Execute(run, creds, request) == Failure("action is not supported: " + request.name)
  {
  }

  /** The configuration validated from the successful-run scenario's request. */
  lemma EchoHiConfig(key: string)
    requires key != ""
    ensures Validate(map["host" := "10.0.0.5", "command" := "echo hi"],
                     Some(map["key" := Str(key), "username" := Str("ops")]))
            == Success(Ssh.Config(key, "", "ops", "10.0.0.5", 22, 60, ["echo hi", ExitCodeGuard]))
  {
  }

  /** The session the successful-run scenario's configuration opens. */
  lemma EchoHiSession(key: string)
    ensures Ssh.Session(Ssh.Config(key, "", "ops", "10.0.0.5", 22, 60, ["echo hi", ExitCodeGuard]))
            == Ssh.SessionRequest("10.0.0.5", "22", "ops", key, "", 60, "echo hi\n" + ExitCodeGuard)
  {
    EchoHiTarget();
    GoStrings.JoinPair("echo hi", ExitCodeGuard, "\n");
  }

  /** A host without `:` and the default port give the connection target of the successful-run scenario. */
  lemma EchoHiTarget()
    ensures Ssh.HostPort("10.0.0.5", 22) == ("10.0.0.5", "22")
  {
    assert ':' !in "10.0.0.5";
    assert GoConv.Itoa(22) == "22" by {
      assert GoConv.NatDigits(22) == "22";
    }
  }

  /**
   Successful run: host 10.0.0.5, command `echo hi`, key and username given,
   and the transport answers the expected session with stdout "hi\n". The
   response is status 0 with "hi".
   */
  lemma ScenarioEchoHi(run: Ssh.Transport, key: string)
    requires key != ""
    requires run(Ssh.SessionRequest("10.0.0.5", "22", "ops", key, "", 60, "echo hi\n" + ExitCodeGuard))
             == Ssh.TransportReply("hi\n", "", false, None)
    ensures Execute(run, Some(map["key" := Str(key), "username" := Str("ops")]),
                    Request("execute", map["host" := "10.0.0.5", "command" := "echo hi"]))
            == Success(Response(0, "hi"))
  {
    var params := map["host" := "10.0.0.5", "command" := "echo hi"];
    var creds := Some(map["key" := Str(key), "username" := Str("ops")]);
    var request := Request("execute", params);
    EchoHiConfig(key);
    EchoHiSession(key);
    assert ExecuteSsh(run, creds, params) == HandlerOutput("hi\n", None);
    assert SupportedActions(run)[ExecuteActionName](creds, request) == HandlerOutput("hi\n", None);
    assert "hi" + "\n" == "hi\n";
    TrimAppendedNewline("hi");
  }

  /**
   Failing remote command: when the transport reports an error (such as the
   guard's non-zero exit), the response is status 1 and its message holds the
   error and the stdout and stderr joined by a newline, trimmed once.
   */
  lemma ScenarioRemoteFailure(run: Ssh.Transport, creds: Option<Credentials>, params: Params)
    requires Validate(params, creds).Success?
    requires run(Ssh.Session(Validate(params, creds).value)).err.Some?
    ensures var reply := run(Ssh.Session(Validate(params, creds).value));
            Execute(run, creds, Request(ExecuteActionName, params))
            == Success(Response(1, " error: " + reply.err.value + ", output: "
                                   + TrimTrailingNewline(reply.stdout + "\n" + reply.stderr)))
  {
    ValidatedRunReachesTransport(run, creds, params);
  }

  /** The failure text for a missing key with empty output. */
  lemma MissingKeyMessage()
    ensures FailureMessage("missing ssh key", "") == " error: missing ssh key, output: "
  {
  }

  /** Missing key: status 1 with "missing ssh key" and empty output, whatever the transport. */
  lemma ScenarioMissingKey(run: Ssh.Transport, creds: Credentials, params: Params)
    requires ParamsValid(params) && !KeyGiven(creds)
    ensures Execute(run, Some(creds), Request(ExecuteActionName, params))
            == Success(Response(1, " error: missing ssh key, output: "))
  {
    var request := Request(ExecuteActionName, params);
    assert Validate(params, Some(creds)) == Failure(MissingKey);
    assert SupportedActions(run)[ExecuteActionName](Some(creds), request)
           == HandlerOutput("", Some("missing ssh key"));
    assert TrimTrailingNewline("") == "";
    assert Execute(run, Some(creds), request) == Success(Response(1, FailureMessage("missing ssh key", "")));
    MissingKeyMessage();
  }
}
