/** The TCP listener (services/ssh_listener_service.cpp, class
    SshListenerService::Impl). The Asio acceptor is a record of three flags;
    the result of each acceptor call and of each accept completion is an input.
    `pendingAccepts` counts the async_accept operations whose completion
    handler has not run yet, and `log` records what the listener reports and
    schedules. */
module SshListenerService {
  import opened Config
  import SshSession

  /** The acceptor: open, bound to the endpoint, listening. */
  datatype Acceptor = Acceptor(open: bool, bound: bool, listening: bool)

  const CLOSED: Acceptor := Acceptor(false, false, false)

  /** A closed acceptor has nothing bound, and only a bound one listens. */
  predicate Coherent(a: Acceptor) {
    (a.listening ==> a.bound) && (a.bound ==> a.open)
  }

  /** Results of the four acceptor calls start() makes. The result of open() is
      only consulted on a closed acceptor: opening an open one fails with
      already_open. */
  datatype StartOutcomes = StartOutcomes(openOk: bool, reuseOk: bool, bindOk: bool, listenOk: bool)

  /** The error_code an async_accept completes with. */
  datatype AcceptError = NoError | OperationAborted | OtherError

  datatype ListenerEvent =
    | OpenFailed            // error logged, start() returns
    | ReuseAddressFailed    // error logged, start() goes on
    | BindFailed            // error logged, start() returns
    | ListenFailed          // error logged, start() returns
    | Listening             // info logged
    | AcceptArmed           // async_accept issued
    | SessionStarted        // a session built on the accepted socket and started
    | AcceptWarned          // warning logged for an accept error

  /** All the acceptor calls of start() succeed (set_option may fail). */
  predicate StartSucceeds(a: Acceptor, o: StartOutcomes) {
    !a.open && o.openOk && o.bindOk && o.listenOk
  }

  /** What start() reports and schedules on acceptor `a`: exactly one accept,
      and as the last event, when open, bind and listen all succeed; none
      otherwise. A reuse_address failure is reported and changes nothing else. */
  function StartEvents(a: Acceptor, o: StartOutcomes): (e: seq<ListenerEvent>)
    ensures AcceptArmed in e <==> StartSucceeds(a, o)
    ensures AcceptArmed in e ==> e[|e| - 1] == AcceptArmed && AcceptArmed !in e[..|e| - 1]
    ensures OpenFailed in e <==> a.open || !o.openOk
    ensures ReuseAddressFailed in e <==> !a.open && o.openOk && !o.reuseOk
    ensures BindFailed in e <==> !a.open && o.openOk && !o.bindOk
    ensures ListenFailed in e <==> !a.open && o.openOk && o.bindOk && !o.listenOk
    ensures SessionStarted !in e && AcceptWarned !in e
  {
    if a.open || !o.openOk then [OpenFailed]
    else
      var reuse := if o.reuseOk then [] else [ReuseAddressFailed];
      if !o.bindOk then reuse + [BindFailed]
      else if !o.listenOk then reuse + [ListenFailed]
      else reuse + [Listening, AcceptArmed]
  }

  /** The acceptor after start(): an open acceptor is left as it was; otherwise
      it advances through open, bind and listen as far as the calls succeed,
      and is not closed again on failure. */
  function StartState(a: Acceptor, o: StartOutcomes): (r: Acceptor)
    requires Coherent(a)
    ensures a.open ==> r == a
    ensures !a.open ==> (r.open <==> o.openOk) && (r.bound <==> o.openOk && o.bindOk)
    ensures r.listening <==> a.listening || StartSucceeds(a, o)
    ensures Coherent(r)
  {
    if a.open || !o.openOk then a
    else if !o.bindOk then Acceptor(true, false, false)
    else if !o.listenOk then Acceptor(true, true, false)
    else Acceptor(true, true, true)
  }

  /** What the accept completion handler reports and schedules: a session
      exactly on success, a warning exactly on an error other than
      operation_aborted, and exactly one new accept exactly when the acceptor
      is still open, whatever the error. */
  function AcceptEvents(ec: AcceptError, stillOpen: bool): (e: seq<ListenerEvent>)
    ensures SessionStarted in e <==> ec == NoError
    ensures AcceptWarned in e <==> ec == OtherError
    ensures AcceptArmed in e <==> stillOpen
    ensures AcceptArmed in e ==> e[|e| - 1] == AcceptArmed && AcceptArmed !in e[..|e| - 1]
    ensures |e| <= 2
  {
    var handled := match ec
      case NoError => [SessionStarted]
      case OperationAborted => []
      case OtherError => [AcceptWarned];
    handled + (if stillOpen then [AcceptArmed] else [])
  }

  /** The number of accepts one completion leaves outstanding: its own is
      consumed, and at most one is added. */
  lemma AcceptCompletionBalance(ec: AcceptError, stillOpen: bool, pending: nat)
    requires pending > 0
    ensures pending - 1 + (if AcceptArmed in AcceptEvents(ec, stillOpen) then 1 else 0) <= pending
    ensures !stillOpen ==> pending - 1 + (if AcceptArmed in AcceptEvents(ec, stillOpen) then 1 else 0) < pending
  {
  }

  class Listener {
    const cfg: SshConfig
    var acceptor: Acceptor
    var pendingAccepts: nat
    var log: seq<ListenerEvent>

    ghost predicate Valid()
      reads this
    {
      Coherent(acceptor)
    }

    /** Impl(executor, cfg): the acceptor is created closed. */
    constructor (cfg: SshConfig)
      ensures Valid() && this.cfg == cfg
      ensures acceptor == CLOSED && pendingAccepts == 0 && log == []
    {
      this.cfg := cfg;
      acceptor := CLOSED;
      pendingAccepts := 0;
      log := [];
    }

    /** start(): open, set reuse_address, bind, listen, then arm one accept.
        A failure of open, bind or listen returns at once. */
    method Start(o: StartOutcomes) returns (armed: bool)
      requires Valid()
      modifies this
      ensures Valid()
      ensures armed <==> StartSucceeds(old(acceptor), o)
      ensures acceptor == StartState(old(acceptor), o)
      ensures log == old(log) + StartEvents(old(acceptor), o)
      ensures pendingAccepts == old(pendingAccepts) + (if armed then 1 else 0)
    {
      if acceptor.open || !o.openOk {
        log := log + [OpenFailed];
        return false;
      }
      acceptor := acceptor.(open := true);
      if !o.reuseOk {
        log := log + [ReuseAddressFailed];
      }
      if !o.bindOk {
        log := log + [BindFailed];
        return false;
      }
      acceptor := acceptor.(bound := true);
      if !o.listenOk {
        log := log + [ListenFailed];
        return false;
      }
      acceptor := acceptor.(listening := true);
      log := log + [Listening];
      DoAccept();
      return true;
    }

    /** stop(): close the acceptor; errors are ignored. Pending accepts stay
        outstanding and complete, with operation_aborted, later. */
    method Stop()
      modifies this`acceptor
      ensures Valid() && acceptor == CLOSED
    {
      acceptor := CLOSED;
    }

    /** do_accept(): issue one async_accept. */
    method DoAccept()
      modifies this`pendingAccepts, this`log
      ensures pendingAccepts == old(pendingAccepts) + 1
      ensures log == old(log) + [AcceptArmed]
    {
      pendingAccepts := pendingAccepts + 1;
      log := log + [AcceptArmed];
    }

    /** The completion handler of do_accept(). On success a new session is
        built on the socket, started, and destroyed when the handler's only
        reference to it goes out of scope; the session is returned so that its
        final state can be stated. Then one accept is re-armed if the acceptor
        is open. `so`, `kexRc` and `g` are the session's own outcomes. */
    method OnAccept(ec: AcceptError, so: SshSession.StartOutcomes, kexRc: int, g: SshSession.GreetingOutcomes)
      returns (s: SshSession.Session?)
      requires Valid() && pendingAccepts > 0
      modifies this
      ensures Valid() && acceptor == old(acceptor)
      ensures log == old(log) + AcceptEvents(ec, acceptor.open)
      ensures pendingAccepts == old(pendingAccepts) - 1 + (if acceptor.open then 1 else 0)
      ensures s != null <==> ec == NoError
      ensures s != null ==> fresh(s) && s.cfg == cfg && s.Valid() && SshSession.Released(s.Snapshot())
      ensures s != null && SshSession.FailsHoldingDuplicate(cfg.rsaHostPrivateKeyPath, true, so) ==>
        s.fd == SshSession.HeldByStart && s.closes == []
    {
      pendingAccepts := pendingAccepts - 1;
      s := null;
      if ec == NoError {
        s := Serve(cfg, so, kexRc, g);
        log := log + [SessionStarted];
      } else if ec == OtherError {
        log := log + [AcceptWarned];
      }
      if acceptor.open {
        DoAccept();
      }
    }
  }

  /** The success branch of the accept handler: a session on the accepted
      socket, started with start() as written, then destroyed with the
      handler's scope. Whatever the session's outcomes, it ends holding
      nothing; a failed start() leaves exactly its own events; and a failure
      between dup() and the hand-over to libssh leaves the duplicate open. */
  method Serve(cfg: SshConfig, so: SshSession.StartOutcomes, kexRc: int, g: SshSession.GreetingOutcomes)
    returns (s: SshSession.Session)
    ensures fresh(s) && s.cfg == cfg && s.Valid() && SshSession.Released(s.Snapshot())
    ensures !SshSession.AcquireSucceeds(cfg.rsaHostPrivateKeyPath, true, so) ==>
      s.trace == SshSession.AcquireEvents(SshSession.FRESH, cfg.rsaHostPrivateKeyPath, so)
    ensures SshSession.FailsHoldingDuplicate(cfg.rsaHostPrivateKeyPath, true, so) ==>
      s.fd == SshSession.HeldByStart && s.closes == []
  {
    s := new SshSession.Session(cfg);
    s.StartAsWritten(so, kexRc, g);
    s.Destroy();
  }

  /** Serve with the corrected start(): no duplicate is ever left open, and
      one that never reached libssh is closed by the session, once. */
  method ServeCorrected(cfg: SshConfig, so: SshSession.StartOutcomes, kexRc: int, g: SshSession.GreetingOutcomes)
    returns (s: SshSession.Session)
    ensures fresh(s) && s.cfg == cfg && s.Valid() && SshSession.Released(s.Snapshot())
    ensures s.fd != SshSession.HeldByStart
    ensures SshSession.FailsHoldingDuplicate(cfg.rsaHostPrivateKeyPath, true, so) ==>
      s.fd == SshSession.Closed && s.closes == [SshSession.BySession]
  {
    s := new SshSession.Session(cfg);
    s.Start(so, kexRc, g);
    s.Destroy();
  }

  /** A listener that starts, is stopped, and then sees its pending accept
      complete with operation_aborted ends with nothing outstanding and
      nothing warned. */
  method StopDrainsAccepts() returns (pending: nat, warned: bool)
    ensures pending == 0 && !warned
  {
    var l := new Listener(DefaultAppConfig.ssh);
    var armed := l.Start(StartOutcomes(true, true, true, true));
    l.Stop();
    var s := l.OnAccept(OperationAborted, SshSession.StartOutcomes(-1, false, 0, false, 0),
                        SshSession.SSH_ERROR, SshSession.GreetingOutcomes(false, 0));
    pending := l.pendingAccepts;
    warned := AcceptWarned in l.log;
  }
}
