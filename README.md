# prompt.service SSH front end — a Dafny model

This project models the three pieces of logic in `prompt.service` that decide
what the SSH front end does. Each piece is verified in Dafny:

- **Configuration loading** (`ConfigLoader::Impl::load` and the defaults of
  `config.h`). This is a pure function from the process environment, given as
  a map from variable name to value, to an `AppConfig` record. The
  `boost::lexical_cast` integer conversions it uses are modelled as a
  whole-string decimal parse that must fit the target type (module
  `LexicalCast`).
- **The SSH session** (`SshSession::Impl`). This is a class over the four
  resources the session owns:
  - the accepted socket;
  - the libssh bind;
  - the libssh session;
  - the Asio readiness wrapper around a `dup`'d descriptor.

  It also keeps an owner tag for that descriptor. `start()` acquires the
  resources in order. `stop()` releases them in reverse order in four steps,
  and each step keeps the ownership invariant. `drive_handshake()` and the
  `wait_io()` completion form a callback-driven retry loop. Every libssh and
  Asio result is an input, and the completion of a wait is a method the
  environment calls. The session keeps three records:
  - `trace`: every acquire, release, wait and channel call;
  - `closes`: who closed the duplicated descriptor;
  - `exchanges`: every key-exchange result.
- **The listener** (`SshListenerService::Impl`). This is a class over the
  acceptor's state (open, bound, listening), the number of outstanding
  `async_accept` operations and a log of what it reports and schedules.
  `start()` walks through open, `reuse_address`, bind and listen. The accept
  completion handler serves one connection with a fresh session and re-arms
  while the acceptor is open.

Modules: `Wrappers` (Option), `LexicalCast`, `Config`, `SshSession`,
`SshListenerService`.

Three facts about the code shape the configuration model:
- The loader reads `PROMPT_`-prefixed variables.
- `PROMPT_BIND_PORT=0` is accepted, because the guard is `0 <= p <= 65535`
  (config.cpp:30).
- config.h:6-19 does not declare `rsa_host_private_key_path`, but
  config.cpp:52 and ssh_session.cpp:22 use it. The model adds it to
  `SshConfig` with default "".

## Model

| member | source | states |
|---|---|---|
| LexicalCast.ParseDecimal | services/prompt.service/src/configuration/config.cpp:29 | a value exactly for an optional sign followed by at least one digit, covering the whole string; '-' gives a non-positive value and anything else a non-negative one |
| LexicalCast.CastInteger | services/prompt.service/src/configuration/config.cpp:60 | the cast succeeds exactly when the string is decimal and its value lies in the target type's range, and then yields that value |
| LexicalCast.FormatNatDigits | services/prompt.service/src/configuration/config.cpp:29 | the decimal rendering of a natural number is a non-empty digit string that denotes that number |
| LexicalCast.ParseFormatRoundTrip | services/prompt.service/src/configuration/config.cpp:29 | every integer parses back from its decimal rendering |
| LexicalCast.PlusSignIsNeutral | services/prompt.service/src/configuration/config.cpp:60 | a leading '+' does not change the parsed value |
| Config.PortFrom | services/prompt.service/src/configuration/config.cpp:25-38 | a port exactly when the value casts to a long in [0, 65535], and then that value; a cast failure is swallowed |
| Config.ThreadsFrom | services/prompt.service/src/configuration/config.cpp:56-69 | a thread count exactly when the value casts to an int and is positive, and then that value |
| Config.Load | services/prompt.service/src/configuration/config.cpp:13-72 | the loaded thread count is always positive |
| Config.DefaultValues | services/prompt.service/src/include/configuration/config.h:6-26 | defaults: bind_addr "0.0.0.0", bind_port 2222, empty host key and key path, 4 threads |
| Config.LoadEmptyEnvironment | services/prompt.service/src/configuration/config.cpp:13-72 | with no variable set, load returns exactly the default AppConfig |
| Config.LoadBindAddr | services/prompt.service/src/configuration/config.cpp:17-23 | bind_addr is the variable's value if it is set and non-empty, and "0.0.0.0" otherwise |
| Config.LoadBindPort | services/prompt.service/src/configuration/config.cpp:25-38 | bind_port is the parsed value if it is decimal and in [0, 65535], and 2222 otherwise |
| Config.LoadKeys | services/prompt.service/src/configuration/config.cpp:40-54 | host_public_key and rsa_host_private_key_path take their variable if it is set and non-empty, and stay "" otherwise |
| Config.LoadThreads | services/prompt.service/src/configuration/config.cpp:56-69 | threads is the parsed value if it is decimal, positive and within int, and 4 otherwise |
| Config.LoadFieldsIndependent | services/prompt.service/src/configuration/config.cpp:17-69 | two environments that agree on a variable load the same value for its field |
| Config.LoadPortZeroAndNegativeThreads | services/prompt.service/src/configuration/config.cpp:25-69 | PROMPT_BIND_PORT=0 is taken as port 0; PROMPT_THREADS=-3 keeps 4 |
| Config.LoadMalformedNumbers | services/prompt.service/src/configuration/config.cpp:25-69 | non-numeric port and thread values keep the defaults; no error escapes load |
| SshSession.StopReleasesInOrder | services/prompt.service/src/services/ssh_session.cpp:88-113 | stop() emits only releases, in strictly increasing order: wrapper, libssh session, bind, socket |
| SshSession.StopIdempotent | services/prompt.service/src/services/ssh_session.cpp:88-113 | after stop() nothing is held, and a second stop() changes, releases and closes nothing |
| SshSession.StopClosesOnlyThroughEngine | services/prompt.service/src/services/ssh_session.cpp:90-101 | stop() keeps the resources consistent and closes the descriptor exactly when libssh owns it, through libssh only |
| SshSession.GreetingEvents | services/prompt.service/src/services/ssh_session.cpp:157-186 | send_eof, close and the write of "hello\n" (6 bytes) happen exactly when the channel opened; free happens exactly when it was created; nothing is acquired or released |
| SshSession.Session.constructor | services/prompt.service/src/services/ssh_session.cpp:14-15 | the session starts with the accepted socket open, nothing else held, and empty records |
| SshSession.Session.Stop | services/prompt.service/src/services/ssh_session.cpp:88-113 | ends with nothing held and the invariant kept; it appends exactly the release events of what was present and closes only what libssh owned; on released resources it changes nothing |
| SshSession.Session.ReleaseDescriptor | services/prompt.service/src/services/ssh_session.cpp:90-95 | release() then reset() removes the wrapper without closing the descriptor, keeping the invariant |
| SshSession.Session.FreeSession | services/prompt.service/src/services/ssh_session.cpp:96-101 | ssh_disconnect/ssh_free remove the libssh session and close the descriptor exactly when it owns it, keeping the invariant |
| SshSession.Session.FreeBind | services/prompt.service/src/services/ssh_session.cpp:102-106 | ssh_bind_free removes the bind once the libssh session is gone, keeping the invariant |
| SshSession.Session.CloseSocket | services/prompt.service/src/services/ssh_session.cpp:107-112 | the accepted socket is closed if it was open, keeping the invariant |
| SshSession.Session.Destroy | services/prompt.service/src/services/ssh_session.cpp:17 | the destructor leaves nothing held whatever state it finds, and is a no-op after an earlier stop() |
| SshSession.Session.AbandonDuplicate | services/prompt.service/src/services/ssh_session.cpp:47-69 | a failure before the hand-over to libssh releases everything; the duplicate is closed by the session when that is chosen and stays open otherwise |
| SshSession.EngineEvents | services/prompt.service/src/services/ssh_session.cpp:46-83 | the wrapper is assigned exactly when all four libssh calls succeed, and then the events are the four acquisitions in order |
| SshSession.FailedEngineStepsBalance | services/prompt.service/src/services/ssh_session.cpp:46-79 | a failing libssh half frees one bind per bind acquired and one session per session acquired, and after the first release only releases follow, in stop()'s order |
| SshSession.FailedStartClosesSocket | services/prompt.service/src/services/ssh_session.cpp:19-79 | a start() that fails on a new session closes the accepted socket and never wraps the descriptor; with an empty key path closing the socket is all it does |
| SshSession.Session.Acquire | services/prompt.service/src/services/ssh_session.cpp:19-84 | succeeds exactly when the key path is non-empty, the socket is open and dup, ssh_bind_new, options, ssh_new and accept_fd all succeed, ending with socket closed, bind, session and wrapper held, in that order; every path, failing or not, appends exactly AcquireEvents; any failure releases everything; a failure before dup only runs stop(); an accept_fd failure leaves the descriptor closed once, by libssh |
| SshSession.Session.AcquireEngine | services/prompt.service/src/services/ssh_session.cpp:46-83 | the libssh steps succeed exactly when all four calls do; the trace grows by exactly EngineEvents; any failure releases everything; a failure before the hand-over leaves the duplicate as chosen, one at accept_fd leaves it closed by libssh |
| SshSession.Session.HandOver | services/prompt.service/src/services/ssh_session.cpp:63-83 | ssh_new, accept_fd and assign on success; on an accept_fd failure the session and bind are freed in that order and libssh closes the descriptor, once |
| SshSession.Session.SendGreeting | services/prompt.service/src/services/ssh_session.cpp:157-186 | appends exactly the greeting's channel calls |
| SshSession.Session.UseChannel | services/prompt.service/src/services/ssh_session.cpp:160-176 | on an opened channel: write "hello\n", send_eof, close; otherwise nothing |
| SshSession.Session.DriveHandshake | services/prompt.service/src/services/ssh_session.cpp:140-202 | no session: stop; OK: greeting then stop; AGAIN: exactly one read wait and nothing released; any other code: stop |
| SshSession.Session.WaitIo | services/prompt.service/src/services/ssh_session.cpp:116-122 | one read wait when the wrapper exists, none otherwise |
| SshSession.Session.OnWaitComplete | services/prompt.service/src/services/ssh_session.cpp:123-137 | any error stops the session, with a warning unless it is operation_aborted; success re-enters drive_handshake |
| SshSession.Session.Start | services/prompt.service/src/services/ssh_session.cpp:19-86 | each failing step releases everything without reaching drive_handshake and leaves exactly AcquireEvents in the trace; an empty key path acquires nothing; an accept_fd failure closes the descriptor once, by libssh; success drives the handshake from the fully acquired state; a duplicate that was never handed to libssh is closed, once |
| SshSession.Session.StartAsWritten | services/prompt.service/src/services/ssh_session.cpp:19-86 | as Start, including the failure traces, except that after a failure of ssh_bind_new, options or ssh_new the duplicate stays open and nothing closes it |
| SshSession.DuplicateLeakWitness | services/prompt.service/src/services/ssh_session.cpp:47-53 | under start() as written, a failing ssh_bind_new leaves everything released but the duplicate open and never closed |
| SshSession.DuplicateClosedWitness | services/prompt.service/src/services/ssh_session.cpp:47-53 | under the corrected start(), the same connection closes the duplicate exactly once, by the session |
| SshListenerService.StartEvents | services/prompt.service/src/services/ssh_listener_service.cpp:18-52 | exactly one accept, as the last event, exactly when open, bind and listen succeed; each failure is reported exactly when it occurs; a reuse_address failure does not stop start() |
| SshListenerService.StartState | services/prompt.service/src/services/ssh_listener_service.cpp:23-48 | an open acceptor is untouched; otherwise it is open, bound and listening as far as the calls succeeded, and stays coherent |
| SshListenerService.AcceptEvents | services/prompt.service/src/services/ssh_listener_service.cpp:64-82 | a session exactly on success, a warning exactly on an error other than operation_aborted, and exactly one re-arm exactly while the acceptor is open |
| SshListenerService.AcceptCompletionBalance | services/prompt.service/src/services/ssh_listener_service.cpp:78-81 | a completion never increases the outstanding accepts, and strictly decreases them once the acceptor is closed |
| SshListenerService.Listener.constructor | services/prompt.service/src/services/ssh_listener_service.cpp:15-16 | the acceptor starts closed with no accept outstanding |
| SshListenerService.Listener.Start | services/prompt.service/src/services/ssh_listener_service.cpp:18-52 | arms exactly one accept exactly when open, bind and listen succeed, none otherwise; acceptor and log as StartState and StartEvents say |
| SshListenerService.Listener.Stop | services/prompt.service/src/services/ssh_listener_service.cpp:54-58 | the acceptor is closed |
| SshListenerService.Listener.DoAccept | services/prompt.service/src/services/ssh_listener_service.cpp:61-63 | one more accept outstanding |
| SshListenerService.Listener.OnAccept | services/prompt.service/src/services/ssh_listener_service.cpp:63-82 | a session is created and run exactly when the error is empty; the completion consumes its accept and re-arms exactly one exactly while the acceptor is open; the acceptor is unchanged; a session whose start() fails between dup and the hand-over leaves its duplicate open |
| SshListenerService.Serve | services/prompt.service/src/services/ssh_listener_service.cpp:66-70 | the session runs start() as written and ends holding nothing whatever its outcomes; a failed start() leaves exactly its AcquireEvents; a failure between dup and the hand-over leaves the duplicate open and unclosed |
| SshListenerService.ServeCorrected | services/prompt.service/src/services/ssh_listener_service.cpp:66-70 | with the corrected start(), no served session leaves its duplicate held, and one that never reached libssh is closed once, by the session |
| SshListenerService.StopDrainsAccepts | services/prompt.service/src/services/ssh_listener_service.cpp:54-82 | after start and stop, the aborted completion re-arms nothing and warns nothing, leaving no accept outstanding |

## Left out

- Concurrency: the runner's worker threads, the executor's `io_context`, and the order in which a multi-threaded `run()` interleaves completions. Completions are methods called one at a time.
- `main.cpp` of either service, the pimpl headers, and the undefined `load_config_from_env` (ConfigLoader::load stands for it).
- Logging: message text is never modelled. The listener records each log it makes as an event (open, reuse_address, bind and listen failures; "listening"; accept warnings). The session records only the wait-error warning (`WaitWarned`). It does not record the errors of the failing start() steps (ssh_session.cpp:24, 34, 50, 58, 66, 76), the key-exchange failure warning (:200) or the greeting warnings (:167, 179, 185).
- `remote_endpoint()` in start(): it is I/O and may throw.
- `make_address(bind_addr)` in the listener's start() may throw on a malformed address. That exception is not modelled.
- libssh and Asio internals (key exchange, channel framing, cryptography, descriptor readiness). They appear only as outcome inputs. The value `ssh_channel_write` returns is only logged and is not an input.
- SshSession.Session.AcquireEngine: treats a failing `ssh_bind_accept_fd` as having already handed the descriptor to libssh. Whether libssh then closes it is a libssh internal.
- SshSession.Session.OnWaitComplete: object lifetime is not modelled. The listener keeps the session only in a local `shared_ptr`, so the session is destroyed when the handler returns, even while a readiness wait it scheduled is outstanding. That wait's completion would then run against a destroyed session. The model only establishes that the destructor's `stop()` is safe, which follows from idempotence.
- SshSession.Session.HandOver: `_descriptor->assign(fd)` (ssh_session.cpp:82-83) uses the throwing overload and can fail. The model treats it as always succeeding, and an exception escaping start() is not modelled.
- `std::getenv` is a map from names to values. A variable that is present with an empty value stands for a set-but-empty variable.
- LexicalCast.CastInteger: Boost's exact conversion rules are not modelled beyond "optional sign, at least one digit, the whole string, within range". The model does not cover whitespace, locales or other edge cases.

## Findings

| source | as written | input that shows it | evidently intended | confidence | as-written member | corrected member |
|---|---|---|---|---|---|---|
| services/prompt.service/src/services/ssh_session.cpp:47-69 | when `ssh_bind_new`, `ssh_bind_options_set` or `ssh_new` fails, start() calls stop() and returns. The local `fd` from `dup()` is not yet owned by libssh or the wrapper, and nothing closes it | a non-empty key path, an open socket, `dup` returning 7 and `ssh_bind_new` returning null | the duplicate is closed (once) before returning, so no descriptor leaks per failed connection | not executed | SshSession.DuplicateLeakWitness (SshSession.Session.StartAsWritten) | SshSession.DuplicateClosedWitness (SshSession.Session.Start) |
