/**
 The remote execution engine: the typed configuration, the derivation of the
 effective host and port, and one run of the command script over an abstract
 remote-shell transport with the classification of its outcome.
 */
module Ssh {
  import opened Wrappers
  import GoStrings
  import GoConv

  /** The validated connection and command configuration; `timeoutSeconds` is whole seconds. */
  datatype Config = Config(
    key: string,
    passphrase: string,
    username: string,
    host: string,
    port: int,
    timeoutSeconds: int,
    script: seq<string>)

  /** The errors `Exec` itself can return; a transport error is passed through unchanged. */
  datatype ExecError = MissingServerHost | MissingPrivateKey | TransportFailure(cause: string)
  {
    /** The text the error prints as. */
    function Message(): string
    {
      match this
      case MissingServerHost => "Error: missing server host"
      case MissingPrivateKey => "Error: can't connect without a private SSH key"
      case TransportFailure(cause) => cause
    }
  }

  /** Everything the engine hands to the transport for one run. */
  datatype SessionRequest = SessionRequest(
    server: string,
    port: string,
    user: string,
    key: string,
    passphrase: string,
    timeoutSeconds: int,
    command: string)

  /** What the transport reports: standard output, standard error, whether it timed out, and an optional error. */
  datatype TransportReply = TransportReply(stdout: string, stderr: string, timedOut: bool, err: Option<string>)

  /** The remote-shell transport (connection, authentication, timeout) as an opaque function. */
  type Transport = SessionRequest -> TransportReply

  /** The `(output, error)` pair `Exec` returns. */
  datatype ExecResult = ExecResult(output: string, err: Option<ExecError>)

  /**
   The effective host and port. A host without `:` is used as it is, with the
   configured port printed in decimal. A host with `:` is split at every `:`;
   the field before the first `:` is the host and the field after it (up to a
   second `:` or the end) is the port, so the configured port is ignored and
   any further fields are dropped.
   */
  function HostPort(host: string, port: int): (hp: (string, string))
    ensures ':' !in host ==> hp == (host, GoConv.Itoa(port))
    ensures ':' in host ==>
              && GoStrings.FieldAt(host, ':', 0, hp.0)
              && host[|hp.0|] == ':'
              && GoStrings.FieldAt(host, ':', |hp.0| + 1, hp.1)
  {
    var hosts := GoStrings.Split(host, ':');
    if |hosts| > 1 then
      GoStrings.SplitSecondField(host, ':');
      (hosts[0], hosts[1])
    else (host, GoConv.Itoa(port))
  }

  /** The fields of `s` are determined by `s`: two candidate fields at the same start are equal. */
  lemma FieldAtUnique(s: string, sep: char, start: nat, f: string, g: string)
    requires GoStrings.FieldAt(s, sep, start, f) && GoStrings.FieldAt(s, sep, start, g)
    ensures f == g
  {
  }

  /**
   A host of the form `name:embedded` followed by nothing or by further
   `:`-separated text yields exactly `name` and `embedded`.
   */
  lemma HostPortEmbedded(name: string, embedded: string, rest: string, port: int)
    requires ':' !in name && ':' !in embedded
    requires rest == "" || rest[0] == ':'
    ensures HostPort(name + ":" + embedded + rest, port) == (name, embedded)
  {
    var host := name + ":" + embedded + rest;
    var hp := HostPort(host, port);
    assert host[|name|] == ':';
    assert GoStrings.FieldAt(host, ':', 0, name) by {
      assert host[0..|name|] == name;
    }
    FieldAtUnique(host, ':', 0, hp.0, name);
    assert GoStrings.FieldAt(host, ':', |name| + 1, embedded) by {
      assert host[|name| + 1..|name| + 1 + |embedded|] == embedded;
      if rest != "" {
        assert host[|name| + 1 + |embedded|] == rest[0];
      }
    }
    FieldAtUnique(host, ':', |name| + 1, hp.1, embedded);
  }

  /** Later fields are dropped: `a:b:c` connects to host `a` on port `b`. */
  lemma HostPortDropsLaterFields(port: int)
    ensures HostPort("a:b:c", port) == ("a", "b")
  {
    HostPortEmbedded("a", "b", ":c", port);
    assert "a" + ":" + "b" + ":c" == "a:b:c";
  }

  /**
   The request sent to the transport for a configuration that passed the
   pre-checks: the derived host and port, the configured user, secrets and
   timeout, and a command text that carries the script lines exactly: a
   two-line script is its lines with one newline between them, whatever the
   lines hold, and splitting the text on newlines gives back a script whose
   lines hold no newline.
   */
  function Session(c: Config): (req: SessionRequest)
    ensures (req.server, req.port) == HostPort(c.host, c.port)
    ensures req.user == c.username && req.key == c.key && req.passphrase == c.passphrase
    ensures req.timeoutSeconds == c.timeoutSeconds
    ensures |c.script| == 2 ==> req.command == c.script[0] + "\n" + c.script[1]
    ensures |c.script| >= 1 && (forall k :: 0 <= k < |c.script| ==> '\n' !in c.script[k]) ==>
              GoStrings.Split(req.command, '\n') == c.script
  {
    var (server, port) := HostPort(c.host, c.port);
    ScriptLinesRecoverable(c.script);
    SessionRequest(server, port, c.username, c.key, c.passphrase, c.timeoutSeconds,
                   GoStrings.Join(c.script, "\n"))
  }

  /** A script whose lines hold no newline is recovered from its newline-joined text. */
  lemma ScriptLinesRecoverable(script: seq<string>)
    ensures |script| >= 1 && (forall k :: 0 <= k < |script| ==> '\n' !in script[k]) ==>
              GoStrings.Split(GoStrings.Join(script, "\n"), '\n') == script
  {
    if |script| >= 1 && (forall k :: 0 <= k < |script| ==> '\n' !in script[k]) {
      GoStrings.SplitOfJoin(script, '\n');
    }
  }

  /**
   One execution. An empty host, then an empty key, fail before the transport
   is used. Otherwise the script lines, joined by newlines, run once on the
   transport: on a transport error the output is stdout and stderr joined by a
   newline and the error is passed on; on success the output is stdout alone.
   The transport's timeout flag is never looked at.
   */
  function Exec(c: Config, run: Transport): (r: ExecResult)
    ensures c.host == "" ==> r == ExecResult("", Some(MissingServerHost))
    ensures c.host != "" && c.key == "" ==> r == ExecResult("", Some(MissingPrivateKey))
    ensures c.host != "" && c.key != "" ==>
              var reply := run(Session(c));
              && (reply.err.Some? ==>
                    r == ExecResult(reply.stdout + "\n" + reply.stderr, Some(TransportFailure(reply.err.value))))
              && (reply.err.None? ==> r == ExecResult(reply.stdout, None))
  {
    if |c.host| == 0 then ExecResult("", Some(MissingServerHost))
    else if |c.key| == 0 then ExecResult("", Some(MissingPrivateKey))
    else
      var reply := run(Session(c));
      if reply.err.Some? then
        GoStrings.JoinPair(reply.stdout, reply.stderr, "\n");
        ExecResult(GoStrings.Join([reply.stdout, reply.stderr], "\n"), Some(TransportFailure(reply.err.value)))
      else ExecResult(reply.stdout, None)
  }

  /** The pre-checks do not use the transport: any two transports give the same result. */
  lemma ExecPrecheckIgnoresTransport(c: Config, run1: Transport, run2: Transport)
    requires c.host == "" || c.key == ""
    ensures Exec(c, run1) == Exec(c, run2)
    ensures Exec(c, run1).output == "" && Exec(c, run1).err.Some?
  {
  }

  /** Only stdout, stderr and the error of the reply matter; the timeout flag does not. */
  lemma ExecIgnoresTimeoutFlag(c: Config, run1: Transport, run2: Transport)
    requires forall q :: run1(q).stdout == run2(q).stdout
    requires forall q :: run1(q).stderr == run2(q).stderr
    requires forall q :: run1(q).err == run2(q).err
    ensures Exec(c, run1) == Exec(c, run2)
  {
  }
}
