# blink-ssh execute action, modelled in Dafny

This project models the request-to-result path of the `execute` action of the
blink SSH plugin. The action takes request parameters (`host`, `timeout`,
`port`, `command`) and the "ssh" connection's credentials (`key`, `username`,
`passphrase`). It validates them into a typed configuration and wraps the user
command with a guard that re-raises its exit status. It then runs the script
once over a remote-shell transport, classifies the outcome, removes one
trailing newline and shapes the response (status 0 or 1 with a result text).

Layout, one module per concern:

- `wrappers.dfy`: `Wrappers`, with `Option` and `Result`.
- `gostrings.dfy`: `GoStrings`, models of Go's `strings.Split` (one-character separator) and `strings.Join`.
- `goconv.dfy`: `GoConv`, models of Go's `strconv.Atoi` and `strconv.Itoa` for a 64-bit `int`.
- `ssh.dfy`: `Ssh`, the engine of `implementation/ssh.go`: `Config`, `hostPort`, `Exec`.
- `implementation.dfy`: `Implementation`, the handler side of `implementation/implementation.go`: validation in `executeSSH`, `createCommand` and `ExecuteAction`.

The transport is a parameter of type `Ssh.Transport`, a total function from a
`SessionRequest` (server, port text, user, key, passphrase, timeout, command
text) to a `TransportReply` (stdout, stderr, a timed-out flag, optional error).
"The transport is never called" is stated as "the result is the same for any
two transports". Credential lookup is `Option<map<string, CredValue>>`: `None`
is a failed lookup, and `CredValue` is `Str(s)` or `NonStr`, the latter for a
value of any other dynamic type. Errors are datatypes with a `Message()`
giving the exact text Go prints for them.

Behaviour of the code worth knowing:

- `strconv.Atoi` accepts a sign, so negative timeouts and ports pass validation (`NegativeValuesAccepted`).
- `hostPort` splits at every `:` and keeps only field 1 as the port, so `a:b:c` gives `(a, b)` (`HostPortDropsLaterFields`).

## Model

| member | source | states |
|---|---|---|
| GoStrings.Split | implementation/ssh.go:72 | `strings.Split` on `:` gives at least one field, and more than one exactly when the separator occurs. The first field is the text up to the first separator. No field contains the separator, and joining the fields with it gives the input back. |
| GoStrings.SplitSecondField | implementation/ssh.go:72-76 | When the separator occurs, it sits right after the first field. The second field is the separator-free text after it, up to the next separator or the end. |
| GoStrings.SplitOfJoin | implementation/ssh.go:72 | The other direction of the round trip: splitting the join of separator-free fields gives those fields back. |
| GoStrings.Join | implementation/ssh.go:63-65 | `strings.Join` of no elements is empty, and two elements join with exactly one separator between them. Otherwise the result starts with the first element, and its length is the elements' total length plus one separator per pair of neighbours. With `Split`, it completes the round trip in both directions (`Split`, `SplitOfJoin`). |
| GoStrings.JoinPair | implementation/ssh.go:65 | Joining two strings puts exactly one separator between them, as in the stdout/stderr join. |
| GoConv.Atoi | implementation/implementation.go:120-123 | A parsed value comes from non-empty text that is an optional sign followed by digits, and it equals the text's decimal value. It lies in the 64-bit `int` range. Every such decimal in range is accepted, leading zeros included. The empty string is an error. |
| GoConv.NatDigits | implementation/ssh.go:73 | The decimal digits of a natural number are at least one digit and read back as that number. They have no leading zero: a text starting with `0` is `"0"`. |
| GoConv.Itoa | implementation/ssh.go:73 | `strconv.Itoa` prints the canonical decimal of the input: it reads back as the input, has `-` exactly for negatives, and has no leading zero. |
| GoConv.AtoiItoa | implementation/implementation.go:130-133 | Round trip: every 64-bit `int` printed by `Itoa` is parsed back to itself by `Atoi`, negatives included. |
| GoConv.AtoiPlusSign | implementation/implementation.go:120 | A leading `+` is accepted and does not change the value. |
| GoConv.AtoiLeadingZero | implementation/implementation.go:120-133 | A leading zero is accepted and does not change the value: `"0"` followed by the decimal text of `n` parses to `n`. |
| GoConv.AtoiRejectsNonDigit | implementation/implementation.go:120-123 | Text with a non-digit anywhere, except a sign in the first position, is rejected. |
| Ssh.HostPort | implementation/ssh.go:71-79 | Without `:` the host is kept and the port is the decimal text of the configured port. With `:` the host is the field before the first `:` and the port is the field after it, up to a second `:` or the end. The configured port is ignored. |
| Ssh.HostPortEmbedded | implementation/ssh.go:72-77 | `name:embedded`, optionally followed by more `:`-separated text, yields exactly `(name, embedded)`, for example `a.b.c:2222` gives `a.b.c` and `2222`. |
| Ssh.HostPortDropsLaterFields | implementation/ssh.go:72-77 | `a:b:c` yields host `a` and port `b` whatever the configured port. |
| Ssh.Exec | implementation/ssh.go:39-69 | An empty host gives `("", missing server host)`, checked before the key. An empty key gives `("", can't connect without a private SSH key)`. Otherwise the transport gets the derived host and port and the script joined by newlines. A transport error gives stdout, a newline and stderr, with that error. Success gives stdout alone and no error. |
| Ssh.ExecPrecheckIgnoresTransport | implementation/ssh.go:40-46 | When a pre-check fails, the result is empty output with an error, and it is the same for every transport: the transport is not used. |
| Ssh.ExecIgnoresTimeoutFlag | implementation/ssh.go:63-68 | Transports that agree on stdout, stderr and error give the same result whatever timeout flag they report, because the third result of `Run` is discarded. |
| Ssh.Session | implementation/ssh.go:48-63 | The transport is asked for the host and port that `HostPort` derives, with the configured user, key, passphrase and timeout. The command text carries the script lines exactly. A two-line script, such as the user command and the guard, is sent as the first line, a newline and the second line, even when the lines themselves hold newlines. Splitting the command text on newlines gives back any script whose lines hold no newline. `Exec` hands this request to the transport. |
| Implementation.MessageInjective | implementation/implementation.go:111-153 | Distinct validation errors have distinct messages, so a message identifies its error (and the offending text for timeout and port). |
| Implementation.DefaultsParse | implementation/implementation.go:116-130 | The default texts parse: an absent timeout is 60 and an absent port is 22. |
| Implementation.CreateCommand | implementation/implementation.go:180-185 | The script has exactly two lines, the user command and then the fixed exit-status guard. Joined by a newline, they form the command text `cmd + "\n" + guard`. |
| Implementation.Validate | implementation/implementation.go:109-170 | First failure wins: missing or empty host, then unparsable timeout (error text is the given timeout), then unparsable port, then missing or empty command, then failed credential lookup, then missing or non-string or empty key, then the same for username. Success happens exactly when all pass. The config then has the host as given, the timeout and port parsed (60 and 22 when absent, no range check), the script for the command, the key and username, and the passphrase when it is a string (empty otherwise). |
| Implementation.ValidateFirstFailure | implementation/implementation.go:111-158 | Against the ordered list of the seven checks: validation succeeds exactly when every check passes, and otherwise reports the error of the first failing check. |
| Implementation.EmptyTimeoutRejected | implementation/implementation.go:116-123 | A timeout that is present but empty is a parse error, not the default. |
| Implementation.NegativeValuesAccepted | implementation/implementation.go:116-133 | Negative timeout and port values pass validation unchanged. |
| Implementation.ExecuteSsh | implementation/implementation.go:109-177 | A validation error is returned with empty output and that error's message. Otherwise the engine's output and error text are returned for the validated configuration. |
| Implementation.ValidationFailureIgnoresTransport | implementation/implementation.go:111-158 | When validation fails the handler's result is the same for every transport: no connection is attempted. |
| Implementation.ValidatedRunReachesTransport | implementation/implementation.go:160-176 | A validated configuration always passes the engine's pre-checks. The command text is the user command, a newline and the guard, and the handler returns the transport's stdout, or stdout, newline and stderr with the transport's error. |
| Implementation.TrimTrailingNewline | implementation/implementation.go:51-53 | Output ending in a newline loses exactly that newline: the result followed by a newline is the input. Other output is unchanged. |
| Implementation.TrimAppendedNewline | implementation/implementation.go:51-53 | Trimming undoes appending one newline. |
| Implementation.TrimKeepsSecondNewline | implementation/implementation.go:51-53 | Output ending in two newlines keeps one. |
| Implementation.ExecuteAction | implementation/implementation.go:42-67 | An unknown action is the error "action is not supported: " + name. Otherwise the output is trimmed once, whether or not the handler failed. Status is 0 exactly when the handler returned no error, with the trimmed output as result. On a handler error the status is 1 and the result is `" error: <err>, output: <trimmed>"`. |
| Implementation.SupportedActions | implementation/implementation.go:98-100 | The plugin's action table holds exactly `execute`, and that entry runs the SSH handler on the request's parameters. |
| Implementation.Execute | implementation/implementation.go:42-67 | Through the plugin's table, any action other than `execute` is rejected with "action is not supported: " + name. `execute` gives status 0 with the handler's trimmed output when it returns no error. Otherwise it gives status 1 with `" error: <err>, output: <trimmed>"`. |
| Implementation.UnknownActionRejected | implementation/implementation.go:45-48 | With the plugin's table, which holds only `execute`, any other action name is rejected whatever the transport. |
| Implementation.ScenarioEchoHi | implementation/implementation.go:109-176 | Host 10.0.0.5, command `echo hi`, key and username `ops`: the transport is asked for 10.0.0.5 port 22 with a 60-second timeout and `echo hi` plus the guard. When it answers stdout `hi\n`, the response is status 0 with `hi`. |
| Implementation.ScenarioRemoteFailure | implementation/implementation.go:50-61 | When the transport reports an error for a validated request, the response is status 1 with the error and the trimmed stdout-newline-stderr text. |
| Implementation.ScenarioMissingKey | implementation/implementation.go:145-148 | Valid parameters with credentials lacking a usable key give status 1 and `" error: missing ssh key, output: "` for every transport. |

## Left out

- The remote-shell transport (connection, key authentication, proxy hop, timeout enforcement, session teardown) is an uninterpreted function parameter. Whether the guard actually makes the remote shell exit non-zero is a property of the remote shell and is not modelled.
- `NewSSHPlugin` (loading the description, connections and actions from disk and the configuration), `Describe`, `GetActions` and `TestCredentials` are I/O or constant accessors and are not modelled. The action table is modelled as the one entry `execute` that `NewSSHPlugin` installs.
- Logging calls are not modelled.
- The unused `Debug` and `Sync` configuration fields and the empty proxy configuration are inert and are not modelled.
- The request context is reduced to the result of the credential lookup for "ssh". The context's internals are not modelled.
- Bytes are modelled as characters. The output's conversion between `string` and `[]byte` and the trimming of the byte `\n` are the same on characters.
- Error values are modelled by their message texts, which is all the dispatch uses (`%v`). `ExecuteAction` returning `(nil, error)` for an unknown action is modelled as `Failure(text)`.
- Implementation.Validate: the timeout is kept as whole seconds. The multiplication into a nanosecond `time.Duration`, which wraps silently in Go for very large values, is not modelled.
- GoConv.Atoi: models a 64-bit `int` only. On a 32-bit platform the accepted range is smaller.
