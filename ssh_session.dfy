/** One accepted connection (services/ssh_session.cpp, class SshSession::Impl).
    The session owns four resources: the accepted Asio socket, the libssh bind
    context, the libssh session and an Asio readiness wrapper around a
    duplicate of the socket's descriptor. Every libssh and Asio call is an
    outcome passed in by the caller; asynchronous completions are methods the
    environment calls. Three records are kept: `trace`, every acquire, release,
    wait and channel call; `closes`, every close of the duplicated descriptor
    and who made it; `exchanges`, the result of every ssh_handle_key_exchange. */
module SshSession {
  import opened Config

  /** libssh return codes (libssh.h). */
  const SSH_OK: int := 0
  const SSH_ERROR: int := -1
  const SSH_AGAIN: int := -2

  /** The greeting written on the channel after a completed key exchange. */
  const GREETING: string := "hello\n"

  /** Who holds the descriptor that dup() returned. */
  datatype FdOwner =
    | NotDuplicated  // dup() not called yet, or it failed
    | HeldByStart    // only start()'s local `fd` refers to it
    | OwnedByEngine  // handed to libssh by ssh_bind_accept_fd
    | Closed

  /** `_descriptor`: absent, or an Asio stream_descriptor that may still own the
      descriptor it was assigned (destroying it then closes the descriptor). */
  datatype Wrapper = NoWrapper | Wrapping(ownsFd: bool)

  /** Who closed the duplicated descriptor. */
  datatype Closer = ByEngine | BySession | ByWrapper

  datatype Event =
    | FdDuplicated
    | SocketClosed            // shutdown(shutdown_both) and close() of the accepted socket
    | BindAcquired            // ssh_bind_new
    | BindFreed               // ssh_bind_free
    | SessionAcquired         // ssh_new
    | SessionFreed            // ssh_disconnect and ssh_free
    | FdHandedToEngine        // ssh_bind_accept_fd
    | DescriptorAssigned      // make_unique<stream_descriptor> and assign(fd)
    | DescriptorReleased      // release() and reset()
    | WaitScheduled           // async_wait(wait_read)
    | WaitWarned              // the wait completed with an error other than operation_aborted
    | ChannelCreated          // ssh_channel_new
    | ChannelOpened           // ssh_channel_open_session returned SSH_OK
    | GreetingWritten(payload: string)
    | ChannelEof
    | ChannelClosed
    | ChannelFreed

  /** Results of the calls start() makes, in order. */
  datatype StartOutcomes = StartOutcomes(
    dupResult: int,       // dup(): negative on failure
    bindNewOk: bool,      // ssh_bind_new() did not return null
    bindOptionsRc: int,   // ssh_bind_options_set(SSH_BIND_OPTIONS_RSAKEY)
    sessionNewOk: bool,   // ssh_new() did not return null
    acceptFdRc: int)      // ssh_bind_accept_fd()

  /** Results of the greeting calls after a completed key exchange. The value
      ssh_channel_write returns is only logged, so it is not an input. */
  datatype GreetingOutcomes = GreetingOutcomes(channelNewOk: bool, openRc: int)

  /** The error_code an async_wait completes with. */
  datatype WaitResult = WaitOk | WaitAborted | WaitFailed

  /** The four resource fields and the owner of the duplicated descriptor. */
  datatype Resources = Resources(
    socketOpen: bool, bind: bool, session: bool, descriptor: Wrapper, fd: FdOwner)

  /** The ownership chain: the wrapper only with a session, the session only
      with a bind, the bind only once the accepted socket is closed. */
  predicate Owned(r: Resources) {
    && (r.descriptor.Wrapping? ==> r.session)
    && (r.session ==> r.bind)
    && (r.bind ==> !r.socketOpen)
  }

  /** The chain, plus: the wrapper wraps only the descriptor libssh owns, libssh
      owns it only while its session exists, and once the descriptor has been
      duplicated the accepted socket is closed. */
  predicate Consistent(r: Resources) {
    && Owned(r)
    && (r.descriptor.Wrapping? ==> r.descriptor.ownsFd && r.fd == OwnedByEngine)
    && (r.fd == OwnedByEngine ==> r.session)
    && (r.fd != NotDuplicated ==> !r.socketOpen)
  }

  predicate Released(r: Resources) {
    !r.socketOpen && !r.bind && !r.session && r.descriptor == NoWrapper
  }

  /** All of start() succeeded up to drive_handshake(). */
  predicate AcquireSucceeds(keyPath: string, socketOpen: bool, o: StartOutcomes) {
    && keyPath != ""
    && socketOpen
    && o.dupResult >= 0
    && o.bindNewOk
    && o.bindOptionsRc == SSH_OK
    && o.sessionNewOk
    && o.acceptFdRc == SSH_OK
  }

  /** start() duplicated the descriptor but failed before handing it to libssh. */
  predicate FailsHoldingDuplicate(keyPath: string, socketOpen: bool, o: StartOutcomes) {
    && keyPath != ""
    && socketOpen
    && o.dupResult >= 0
    && !(o.bindNewOk && o.bindOptionsRc == SSH_OK && o.sessionNewOk)
  }

  /** start() fails before dup() returns a descriptor: an empty key path, a
      closed socket or a failing dup(). */
  predicate FailsBeforeDup(keyPath: string, socketOpen: bool, o: StartOutcomes) {
    keyPath == "" || !socketOpen || o.dupResult < 0
  }

  /** The four libssh calls of start() succeed. */
  predicate EngineSucceeds(o: StartOutcomes) {
    o.bindNewOk && o.bindOptionsRc == SSH_OK && o.sessionNewOk && o.acceptFdRc == SSH_OK
  }

  /** start() fails at ssh_bind_accept_fd, after libssh took the descriptor. */
  predicate FailsAtHandOver(keyPath: string, socketOpen: bool, o: StartOutcomes) {
    && keyPath != ""
    && socketOpen
    && o.dupResult >= 0
    && o.bindNewOk
    && o.bindOptionsRc == SSH_OK
    && o.sessionNewOk
    && o.acceptFdRc != SSH_OK
  }

  /** The events of a successful start(), in acquisition order. */
  const ACQUIRE_EVENTS: seq<Event> :=
    [FdDuplicated, SocketClosed, BindAcquired, SessionAcquired, FdHandedToEngine, DescriptorAssigned]

  /** The libssh part of ACQUIRE_EVENTS. */
  const ENGINE_EVENTS: seq<Event> := [BindAcquired, SessionAcquired, FdHandedToEngine, DescriptorAssigned]

  /** The resources of a new session: the accepted socket only. */
  const FRESH: Resources := Resources(true, false, false, NoWrapper, NotDuplicated)

  /** The resources a successful start() holds when it enters drive_handshake(). */
  const ACQUIRED: Resources := Resources(false, true, true, Wrapping(true), OwnedByEngine)

  /** The events the libssh half of start() records: the acquisitions up to
      the first failing call, then stop()'s release of what was acquired. */
  function EngineEvents(o: StartOutcomes): (t: seq<Event>)
    ensures DescriptorAssigned in t <==> EngineSucceeds(o)
    ensures EngineSucceeds(o) ==> t == ENGINE_EVENTS
  {
    if !o.bindNewOk then []
    else if o.bindOptionsRc != SSH_OK || !o.sessionNewOk then [BindAcquired, BindFreed]
    else if o.acceptFdRc != SSH_OK then [BindAcquired, SessionAcquired, FdHandedToEngine, SessionFreed, BindFreed]
    else ENGINE_EVENTS
  }

  /** A failing libssh half releases exactly what it acquired: one bind freed
      per bind acquired, one session freed per session acquired, and after the
      first release only releases follow, in stop()'s order. */
  lemma FailedEngineStepsBalance(o: StartOutcomes)
    requires !EngineSucceeds(o)
    ensures var t := EngineEvents(o);
      && multiset(t)[BindAcquired] == (if o.bindNewOk then 1 else 0)
      && multiset(t)[BindFreed] == multiset(t)[BindAcquired]
      && multiset(t)[SessionFreed] == multiset(t)[SessionAcquired]
      && (forall i, j :: 0 <= i < j < |t| && IsRelease(t[i]) ==>
            IsRelease(t[j]) && ReleaseRank(t[i]) < ReleaseRank(t[j]))
  {
    var t := EngineEvents(o);
    if !o.bindNewOk {
      assert t == [];
    } else if o.bindOptionsRc != SSH_OK || !o.sessionNewOk {
      assert t == [BindAcquired, BindFreed];
    } else {
      assert t == [BindAcquired, SessionAcquired, FdHandedToEngine, SessionFreed, BindFreed];
    }
  }

  /** The events start() records up to drive_handshake() from resources `r`:
      a failure before dup() only stops; otherwise the duplicate is made, the
      socket closed, and the libssh half follows. */
  function AcquireEvents(r: Resources, keyPath: string, o: StartOutcomes): seq<Event> {
    if FailsBeforeDup(keyPath, r.socketOpen, o) then StopEvents(r)
    else [FdDuplicated, SocketClosed] + EngineEvents(o)
  }

  /** A start() that fails on a new session closes the accepted socket and
      never wraps the descriptor; with an empty key path closing the socket is
      all it does. */
  lemma FailedStartClosesSocket(keyPath: string, o: StartOutcomes)
    requires !AcquireSucceeds(keyPath, true, o)
    ensures SocketClosed in AcquireEvents(FRESH, keyPath, o)
    ensures DescriptorAssigned !in AcquireEvents(FRESH, keyPath, o)
    ensures keyPath == "" ==> AcquireEvents(FRESH, keyPath, o) == [SocketClosed]
  {
    if !FailsBeforeDup(keyPath, true, o) {
      assert AcquireEvents(FRESH, keyPath, o)[1] == SocketClosed;
    }
  }

  predicate IsAcquire(e: Event) {
    e.FdDuplicated? || e.BindAcquired? || e.SessionAcquired? || e.FdHandedToEngine? || e.DescriptorAssigned?
  }

  predicate IsRelease(e: Event) {
    e.DescriptorReleased? || e.SessionFreed? || e.BindFreed? || e.SocketClosed?
  }

  /** The closes that destroying a stream_descriptor makes: the descriptor it
      still owns. */
  function DestroyWrapper(w: Wrapper): (c: seq<Closer>)
    ensures ByWrapper in c <==> w.Wrapping? && w.ownsFd
    ensures |c| <= 1
  {
    if w.Wrapping? && w.ownsFd then [ByWrapper] else []
  }

  function WrapperReleaseEvents(r: Resources): seq<Event> {
    if r.descriptor.Wrapping? then [DescriptorReleased] else []
  }

  function SessionReleaseEvents(r: Resources): seq<Event> {
    if r.session then [SessionFreed] else []
  }

  function BindReleaseEvents(r: Resources): seq<Event> {
    if r.bind then [BindFreed] else []
  }

  function SocketReleaseEvents(r: Resources): seq<Event> {
    if r.socketOpen then [SocketClosed] else []
  }

  /** The events of stop() from resources `r`: each present resource released,
      in the order wrapper, libssh session, bind, socket. */
  function StopEvents(r: Resources): seq<Event> {
    WrapperReleaseEvents(r) + SessionReleaseEvents(r) + BindReleaseEvents(r) + SocketReleaseEvents(r)
  }

  /** The closes stop() causes: ssh_disconnect/ssh_free close the descriptor
      that the libssh session owns. */
  function StopCloses(r: Resources): seq<Closer> {
    if r.session && r.fd == OwnedByEngine then [ByEngine] else []
  }

  /** The resources after stop(): nothing held; libssh closed the descriptor if
      its session owned it. */
  function StopState(r: Resources): Resources {
    Resources(false, false, false, NoWrapper, if r.session && r.fd == OwnedByEngine then Closed else r.fd)
  }

  /** Position of a release in the order stop() follows. */
  function ReleaseRank(e: Event): nat {
    match e
    case DescriptorReleased => 0
    case SessionFreed => 1
    case BindFreed => 2
    case SocketClosed => 3
    case _ => 4
  }

  /** Releases only, each of rank in [lo, hi), in strictly increasing rank. */
  predicate RankedIn(t: seq<Event>, lo: nat, hi: nat) {
    && (forall i :: 0 <= i < |t| ==> IsRelease(t[i]) && lo <= ReleaseRank(t[i]) < hi)
    && (forall i, j :: 0 <= i < j < |t| ==> ReleaseRank(t[i]) < ReleaseRank(t[j]))
  }

  /** A ranked run followed by a run ranked entirely above it is one ranked run. */
  lemma RankedAppend(a: seq<Event>, b: seq<Event>, lo: nat, mid: nat, hi: nat)
    requires lo <= mid <= hi && RankedIn(a, lo, mid) && RankedIn(b, mid, hi)
    ensures RankedIn(a + b, lo, hi)
  {
    forall i | 0 <= i < |a + b|
      ensures IsRelease((a + b)[i]) && lo <= ReleaseRank((a + b)[i]) < hi
    {
      if i >= |a| {
        assert (a + b)[i] == b[i - |a|];
      }
    }
    forall i, j | 0 <= i < j < |a + b|
      ensures ReleaseRank((a + b)[i]) < ReleaseRank((a + b)[j])
    {
      if j < |a| {
      } else if i < |a| {
        assert ReleaseRank(a[i]) < mid <= ReleaseRank(b[j - |a|]);
      } else {
        assert (a + b)[i] == b[i - |a|] && (a + b)[j] == b[j - |a|];
      }
    }
  }

  /** stop() only releases, and in strictly increasing rank: wrapper, libssh
      session, bind, socket. */
  lemma StopReleasesInOrder(r: Resources)
    ensures RankedIn(StopEvents(r), 0, 4)
  {
    var d, s, b, k := WrapperReleaseEvents(r), SessionReleaseEvents(r), BindReleaseEvents(r), SocketReleaseEvents(r);
    assert RankedIn(d, 0, 1) && RankedIn(s, 1, 2) && RankedIn(b, 2, 3) && RankedIn(k, 3, 4);
    RankedAppend(d, s, 0, 1, 2);
    RankedAppend(d + s, b, 0, 2, 3);
    RankedAppend(d + s + b, k, 0, 3, 4);
  }

  /** stop() frees everything, and a second stop() releases and closes nothing. */
  lemma StopIdempotent(r: Resources)
    ensures Released(StopState(r))
    ensures StopState(StopState(r)) == StopState(r)
    ensures StopEvents(StopState(r)) == [] && StopCloses(StopState(r)) == []
  {
  }

  /** On consistent resources stop() keeps them consistent, closes the
      descriptor exactly when libssh owns it, and then only through libssh. */
  lemma StopClosesOnlyThroughEngine(r: Resources)
    requires Consistent(r)
    ensures Consistent(StopState(r))
    ensures StopCloses(r) == (if r.fd == OwnedByEngine then [ByEngine] else [])
    ensures StopState(r).fd == (if r.fd == OwnedByEngine then Closed else r.fd)
  {
  }

  /** The greeting after a completed key exchange: send_eof and close only on
      an opened channel, free exactly when the channel was created, and the
      payload is the six bytes "hello\n". */
  function GreetingEvents(g: GreetingOutcomes): (t: seq<Event>)
    ensures ChannelEof in t <==> g.channelNewOk && g.openRc == SSH_OK
    ensures ChannelClosed in t <==> g.channelNewOk && g.openRc == SSH_OK
    ensures ChannelFreed in t <==> g.channelNewOk
    ensures GreetingWritten("hello\n") in t <==> g.channelNewOk && g.openRc == SSH_OK
    ensures forall i :: 0 <= i < |t| && t[i].GreetingWritten? ==> |t[i].payload| == 6
    ensures forall i :: 0 <= i < |t| ==> !IsAcquire(t[i]) && !IsRelease(t[i])
  {
    if g.channelNewOk then [ChannelCreated] + OpenChannelEvents(g.openRc) + [ChannelFreed] else []
  }

  /** The calls made on a channel that ssh_channel_new created, between its
      creation and ssh_channel_free. */
  function OpenChannelEvents(openRc: int): seq<Event> {
    if openRc == SSH_OK then [ChannelOpened, GreetingWritten(GREETING), ChannelEof, ChannelClosed] else []
  }

  class Session {
    const cfg: SshConfig
    var socketOpen: bool
    var bind: bool
    var session: bool
    var descriptor: Wrapper
    var fd: FdOwner
    /** Readiness waits scheduled whose completion has not run yet. */
    var pendingWaits: nat
    var trace: seq<Event>
    var closes: seq<Closer>
    var exchanges: seq<int>

    function Snapshot(): Resources
      reads this
    {
      Resources(socketOpen, bind, session, descriptor, fd)
    }

    /** The invariant that holds wherever stop() may be called: the resources
        are consistent, the descriptor was closed at most once (exactly once
        when it is marked closed) and never by the wrapper, and at most one
        wait is outstanding. */
    ghost predicate Sound()
      reads this
    {
      && Consistent(Snapshot())
      && |closes| == (if fd == Closed then 1 else 0)
      && ByWrapper !in closes
      && pendingWaits <= 1
      && (socketOpen ==> pendingWaits == 0)
    }

    /** Sound, and a libssh session always comes with its wrapper (outside start()). */
    ghost predicate Valid()
      reads this
    {
      Sound() && (session ==> descriptor.Wrapping?)
    }

    /** Impl(socket, cfg): the session takes the accepted, open socket. */
    constructor (cfg: SshConfig)
      ensures Valid() && this.cfg == cfg
      ensures Snapshot() == FRESH
      ensures pendingWaits == 0 && trace == [] && closes == [] && exchanges == []
    {
      this.cfg := cfg;
      socketOpen := true;
      bind, session := false, false;
      descriptor := NoWrapper;
      fd := NotDuplicated;
      pendingWaits := 0;
      trace, closes, exchanges := [], [], [];
    }

    /** stop(): release what is present, in the fixed order. Idempotent, so the
        destructor's call is safe whatever ran before it. */
    method Stop()
      requires Sound()
      modifies this
      ensures Valid()
      ensures Snapshot() == StopState(old(Snapshot()))
      ensures trace == old(trace) + StopEvents(old(Snapshot()))
      ensures closes == old(closes) + StopCloses(old(Snapshot()))
      ensures pendingWaits == old(pendingWaits) && exchanges == old(exchanges)
      ensures old(Released(Snapshot())) ==> Snapshot() == old(Snapshot()) && trace == old(trace) && closes == old(closes)
    {
      ghost var r := Snapshot();
      ReleaseDescriptor();
      FreeSession();
      FreeBind();
      CloseSocket();
      assert trace == old(trace) + WrapperReleaseEvents(r) + SessionReleaseEvents(r)
                      + BindReleaseEvents(r) + SocketReleaseEvents(r);
    }

    /** First step of stop(): release() hands the descriptor back without
        closing it; reset() then destroys the wrapper, which closes nothing. */
    method ReleaseDescriptor()
      requires Sound()
      modifies this`descriptor, this`trace, this`closes
      ensures Sound() && descriptor == NoWrapper
      ensures trace == old(trace) + WrapperReleaseEvents(old(Snapshot()))
      ensures closes == old(closes)
    {
      if descriptor.Wrapping? {
        descriptor := Wrapping(false);
        trace := trace + [DescriptorReleased];
        closes := closes + DestroyWrapper(descriptor);
        descriptor := NoWrapper;
      }
    }

    /** Second step: ssh_disconnect and ssh_free; libssh closes the descriptor
        it owns. The wrapper is already gone. */
    method FreeSession()
      requires Sound() && descriptor == NoWrapper
      modifies this`session, this`fd, this`trace, this`closes
      ensures Sound() && !session
      ensures fd == StopState(old(Snapshot())).fd
      ensures trace == old(trace) + SessionReleaseEvents(old(Snapshot()))
      ensures closes == old(closes) + StopCloses(old(Snapshot()))
    {
      if session {
        trace := trace + [SessionFreed];
        if fd == OwnedByEngine {
          fd := Closed;
          closes := closes + [ByEngine];
        }
        session := false;
      }
    }

    /** Third step: ssh_bind_free. The libssh session is already gone. */
    method FreeBind()
      requires Sound() && !session
      modifies this`bind, this`trace
      ensures Sound() && !bind
      ensures trace == old(trace) + BindReleaseEvents(old(Snapshot()))
    {
      if bind {
        trace := trace + [BindFreed];
        bind := false;
      }
    }

    /** Last step of stop(), and the hand-over in start(): shut down and close
        the accepted socket if it is open. */
    method CloseSocket()
      requires Sound()
      modifies this`socketOpen, this`trace
      ensures Sound() && !socketOpen
      ensures trace == old(trace) + SocketReleaseEvents(old(Snapshot()))
    {
      if socketOpen {
        trace := trace + [SocketClosed];
        socketOpen := false;
      }
    }

    /** ~Impl(): the destructor only calls stop(). */
    method Destroy()
      requires Sound()
      modifies this
      ensures Valid() && Released(Snapshot())
      ensures trace == old(trace) + StopEvents(old(Snapshot()))
      ensures closes == old(closes) + StopCloses(old(Snapshot()))
      ensures old(Released(Snapshot())) ==> Snapshot() == old(Snapshot()) && trace == old(trace) && closes == old(closes)
    {
      Stop();
    }

    /** A failure in start() between dup() and ssh_bind_accept_fd(): the
        duplicate is held by no one else. With `closeDuplicate` it is closed
        before stop(); without it (as the source does) it stays open. */
    method AbandonDuplicate(closeDuplicate: bool)
      requires Sound() && fd == HeldByStart && !session && descriptor == NoWrapper
      modifies this
      ensures Valid() && Released(Snapshot())
      ensures trace == old(trace) + StopEvents(old(Snapshot()))
      ensures fd == (if closeDuplicate then Closed else HeldByStart)
      ensures closes == old(closes) + (if closeDuplicate then [BySession] else [])
      ensures pendingWaits == old(pendingWaits) && exchanges == old(exchanges)
    {
      if closeDuplicate {
        fd := Closed;
        closes := closes + [BySession];
      }
      assert StopEvents(Snapshot()) == StopEvents(old(Snapshot()));
      Stop();
    }

    /** start() up to the call of drive_handshake(): acquire the resources in
        order and stop at the first failing step. `closeDuplicate` selects
        whether a duplicate that was never handed to libssh is closed. */
    method Acquire(o: StartOutcomes, closeDuplicate: bool) returns (acquired: bool)
      requires Valid()
      modifies this
      ensures Valid()
      ensures pendingWaits == old(pendingWaits) && exchanges == old(exchanges)
      ensures acquired <==> AcquireSucceeds(cfg.rsaHostPrivateKeyPath, old(socketOpen), o)
      ensures acquired ==> Snapshot() == ACQUIRED && trace == old(trace) + ACQUIRE_EVENTS && closes == old(closes)
      ensures !acquired ==> Released(Snapshot())
      ensures trace == old(trace) + AcquireEvents(old(Snapshot()), cfg.rsaHostPrivateKeyPath, o)
      ensures FailsBeforeDup(cfg.rsaHostPrivateKeyPath, old(socketOpen), o) ==>
        && Snapshot() == StopState(old(Snapshot()))
        && closes == old(closes) + StopCloses(old(Snapshot()))
      ensures FailsHoldingDuplicate(cfg.rsaHostPrivateKeyPath, old(socketOpen), o) ==>
        && fd == (if closeDuplicate then Closed else HeldByStart)
        && closes == old(closes) + (if closeDuplicate then [BySession] else [])
      ensures FailsAtHandOver(cfg.rsaHostPrivateKeyPath, old(socketOpen), o) ==>
        fd == Closed && closes == old(closes) + [ByEngine]
      ensures !FailsHoldingDuplicate(cfg.rsaHostPrivateKeyPath, old(socketOpen), o) && old(fd) != HeldByStart ==>
        fd != HeldByStart
    {
      if cfg.rsaHostPrivateKeyPath == "" {
        Stop();
        return false;
      }
      // dup(native_handle()): a closed socket's handle is -1, which dup() rejects
      if !socketOpen || o.dupResult < 0 {
        Stop();
        return false;
      }
      trace := trace + [FdDuplicated];
      CloseSocket();
      assert trace == old(trace) + [FdDuplicated, SocketClosed];
      // the duplicate becomes the only live handle once the socket is closed
      fd := HeldByStart;
      acquired := AcquireEngine(o, closeDuplicate);
    }

    /** The libssh half of start(): ssh_bind_new, ssh_bind_options_set,
        ssh_new and ssh_bind_accept_fd, with the duplicate held by start(). */
    method AcquireEngine(o: StartOutcomes, closeDuplicate: bool) returns (acquired: bool)
      requires Valid() && fd == HeldByStart && Released(Snapshot())
      modifies this
      ensures Valid()
      ensures pendingWaits == old(pendingWaits) && exchanges == old(exchanges)
      ensures acquired <==> o.bindNewOk && o.bindOptionsRc == SSH_OK && o.sessionNewOk && o.acceptFdRc == SSH_OK
      ensures acquired ==> Snapshot() == ACQUIRED && trace == old(trace) + ENGINE_EVENTS && closes == old(closes)
      ensures !acquired ==> Released(Snapshot())
      ensures trace == old(trace) + EngineEvents(o)
      ensures o.bindNewOk && o.bindOptionsRc == SSH_OK && o.sessionNewOk && o.acceptFdRc != SSH_OK ==>
        fd == Closed && closes == old(closes) + [ByEngine]
      ensures !(o.bindNewOk && o.bindOptionsRc == SSH_OK && o.sessionNewOk) ==>
        && fd == (if closeDuplicate then Closed else HeldByStart)
        && closes == old(closes) + (if closeDuplicate then [BySession] else [])
      ensures o.bindNewOk && o.bindOptionsRc == SSH_OK && o.sessionNewOk ==> fd != HeldByStart
    {
      if !o.bindNewOk {
        AbandonDuplicate(closeDuplicate);
        return false;
      }
      bind := true;
      trace := trace + [BindAcquired];
      if o.bindOptionsRc != SSH_OK || !o.sessionNewOk {
        AbandonDuplicate(closeDuplicate);
        return false;
      }
      acquired := HandOver(o.acceptFdRc);
    }

    /** ssh_new has succeeded: create the libssh session, hand it the
        descriptor with ssh_bind_accept_fd, and on success wrap the descriptor
        for readiness waits. A failing hand-over stops, and libssh closes the
        descriptor it took. */
    method HandOver(acceptFdRc: int) returns (acquired: bool)
      requires Valid() && fd == HeldByStart && bind && !session && !socketOpen
      modifies this
      ensures Valid()
      ensures pendingWaits == old(pendingWaits) && exchanges == old(exchanges)
      ensures acquired <==> acceptFdRc == SSH_OK
      ensures acquired ==>
        && Snapshot() == ACQUIRED && closes == old(closes)
        && trace == old(trace) + [SessionAcquired, FdHandedToEngine, DescriptorAssigned]
      ensures !acquired ==>
        && Released(Snapshot()) && fd == Closed && closes == old(closes) + [ByEngine]
        && trace == old(trace) + [SessionAcquired, FdHandedToEngine, SessionFreed, BindFreed]
    {
      session := true;
      trace := trace + [SessionAcquired];
      // ssh_bind_accept_fd attaches the descriptor to the libssh session
      fd := OwnedByEngine;
      trace := trace + [FdHandedToEngine];
      if acceptFdRc != SSH_OK {
        Stop();
        return false;
      }
      descriptor := Wrapping(true);
      trace := trace + [DescriptorAssigned];
      return true;
    }

    /** The state drive_handshake() leaves, from resources `r0` and records
        `t0`, `c0`, `x0`, with no wait outstanding. */
    ghost predicate HandshakeDriven(r0: Resources, t0: seq<Event>, c0: seq<Closer>, x0: seq<int>,
                                    kexRc: int, g: GreetingOutcomes)
      reads this
    {
      if !r0.session then
        && Snapshot() == StopState(r0) && pendingWaits == 0
        && trace == t0 + StopEvents(r0) && closes == c0 + StopCloses(r0) && exchanges == x0
      else if kexRc == SSH_AGAIN then
        && Snapshot() == r0 && pendingWaits == 1
        && trace == t0 + [WaitScheduled] && closes == c0 && exchanges == x0 + [kexRc]
      else
        && Snapshot() == StopState(r0) && pendingWaits == 0
        && trace == t0 + (if kexRc == SSH_OK then GreetingEvents(g) else []) + StopEvents(r0)
        && closes == c0 + StopCloses(r0) && exchanges == x0 + [kexRc]
    }

    /** The greeting calls of drive_handshake(), one event per libssh call. */
    method SendGreeting(g: GreetingOutcomes)
      modifies this`trace
      ensures trace == old(trace) + GreetingEvents(g)
    {
      if g.channelNewOk {
        trace := trace + [ChannelCreated];
        UseChannel(g.openRc);
        trace := trace + [ChannelFreed];
      }
    }

    /** On a created channel: open it; on success write the greeting, send EOF
        and close it. */
    method UseChannel(openRc: int)
      modifies this`trace
      ensures trace == old(trace) + OpenChannelEvents(openRc)
    {
      if openRc == SSH_OK {
        trace := trace + [ChannelOpened];
        trace := trace + [GreetingWritten(GREETING)];
        trace := trace + [ChannelEof];
        trace := trace + [ChannelClosed];
      }
    }

    /** drive_handshake(): one key-exchange step. SSH_OK sends the greeting and
        stops, SSH_AGAIN schedules exactly one read wait and keeps the session,
        any other result stops; without a libssh session it only stops. */
    method DriveHandshake(kexRc: int, g: GreetingOutcomes)
      requires Valid() && pendingWaits == 0
      modifies this
      ensures Valid()
      ensures HandshakeDriven(old(Snapshot()), old(trace), old(closes), old(exchanges), kexRc, g)
    {
      if !session {
        Stop();
        return;
      }
      exchanges := exchanges + [kexRc];
      if kexRc == SSH_OK {
        SendGreeting(g);
        Stop();
        return;
      }
      if kexRc == SSH_AGAIN {
        WaitIo();
        return;
      }
      Stop();
    }

    /** wait_io(): one read-readiness wait on the wrapper; none without it. */
    method WaitIo()
      requires Valid() && pendingWaits == 0
      modifies this`pendingWaits, this`trace
      ensures Valid()
      ensures descriptor.Wrapping? ==> pendingWaits == 1 && trace == old(trace) + [WaitScheduled]
      ensures descriptor == NoWrapper ==> pendingWaits == 0 && trace == old(trace)
    {
      if descriptor == NoWrapper {
        return;
      }
      pendingWaits := pendingWaits + 1;
      trace := trace + [WaitScheduled];
    }

    /** The completion handler of wait_io()'s async_wait: any error (the
        cancellation operation_aborted included, which alone is not warned
        about) stops the session; success re-enters drive_handshake(). */
    method OnWaitComplete(ec: WaitResult, kexRc: int, g: GreetingOutcomes)
      requires Valid() && pendingWaits > 0
      modifies this
      ensures Valid()
      ensures ec != WaitOk ==>
        && Snapshot() == StopState(old(Snapshot())) && pendingWaits == old(pendingWaits) - 1
        && trace == old(trace) + (if ec == WaitFailed then [WaitWarned] else []) + StopEvents(old(Snapshot()))
        && closes == old(closes) + StopCloses(old(Snapshot())) && exchanges == old(exchanges)
      ensures ec == WaitOk ==> HandshakeDriven(old(Snapshot()), old(trace), old(closes), old(exchanges), kexRc, g)
    {
      pendingWaits := pendingWaits - 1;
      if ec != WaitOk {
        if ec == WaitFailed {
          trace := trace + [WaitWarned];
        }
        Stop();
        return;
      }
      DriveHandshake(kexRc, g);
    }

    /** start(), with the duplicate closed on the failures that leave it
        unowned; the rest follows the source. */
    method Start(o: StartOutcomes, kexRc: int, g: GreetingOutcomes)
      requires Valid()
      modifies this
      ensures Valid()
      ensures old(fd) != HeldByStart ==> fd != HeldByStart
      ensures FailsHoldingDuplicate(cfg.rsaHostPrivateKeyPath, old(socketOpen), o) ==>
        fd == Closed && closes == old(closes) + [BySession]
      ensures cfg.rsaHostPrivateKeyPath == "" ==>
        && Snapshot() == StopState(old(Snapshot()))
        && trace == old(trace) + StopEvents(old(Snapshot()))
        && closes == old(closes) + StopCloses(old(Snapshot()))
      ensures FailsBeforeDup(cfg.rsaHostPrivateKeyPath, old(socketOpen), o) ==>
        && Snapshot() == StopState(old(Snapshot()))
        && closes == old(closes) + StopCloses(old(Snapshot()))
      ensures FailsAtHandOver(cfg.rsaHostPrivateKeyPath, old(socketOpen), o) ==>
        fd == Closed && closes == old(closes) + [ByEngine]
      ensures !AcquireSucceeds(cfg.rsaHostPrivateKeyPath, old(socketOpen), o) ==>
        && Released(Snapshot()) && pendingWaits == old(pendingWaits) && exchanges == old(exchanges)
        && trace == old(trace) + AcquireEvents(old(Snapshot()), cfg.rsaHostPrivateKeyPath, o)
      ensures AcquireSucceeds(cfg.rsaHostPrivateKeyPath, old(socketOpen), o) ==>
        HandshakeDriven(ACQUIRED, old(trace) + ACQUIRE_EVENTS, old(closes), old(exchanges), kexRc, g)
    {
      var acquired := Acquire(o, true);
      if acquired {
        DriveHandshake(kexRc, g);
      }
    }

    /** start() exactly as written: a failure of ssh_bind_new, of
        ssh_bind_options_set or of ssh_new leaves the duplicate open and
        referenced by nothing. */
    method StartAsWritten(o: StartOutcomes, kexRc: int, g: GreetingOutcomes)
      requires Valid()
      modifies this
      ensures Valid()
      ensures FailsHoldingDuplicate(cfg.rsaHostPrivateKeyPath, old(socketOpen), o) ==>
        fd == HeldByStart && closes == old(closes)
      ensures cfg.rsaHostPrivateKeyPath == "" ==>
        && Snapshot() == StopState(old(Snapshot()))
        && trace == old(trace) + StopEvents(old(Snapshot()))
        && closes == old(closes) + StopCloses(old(Snapshot()))
      ensures FailsBeforeDup(cfg.rsaHostPrivateKeyPath, old(socketOpen), o) ==>
        && Snapshot() == StopState(old(Snapshot()))
        && closes == old(closes) + StopCloses(old(Snapshot()))
      ensures FailsAtHandOver(cfg.rsaHostPrivateKeyPath, old(socketOpen), o) ==>
        fd == Closed && closes == old(closes) + [ByEngine]
      ensures !AcquireSucceeds(cfg.rsaHostPrivateKeyPath, old(socketOpen), o) ==>
        && Released(Snapshot()) && pendingWaits == old(pendingWaits) && exchanges == old(exchanges)
        && trace == old(trace) + AcquireEvents(old(Snapshot()), cfg.rsaHostPrivateKeyPath, o)
      ensures AcquireSucceeds(cfg.rsaHostPrivateKeyPath, old(socketOpen), o) ==>
        HandshakeDriven(ACQUIRED, old(trace) + ACQUIRE_EVENTS, old(closes), old(exchanges), kexRc, g)
    {
      var acquired := Acquire(o, false);
      if acquired {
        DriveHandshake(kexRc, g);
      }
    }
  }

  /** A connection whose ssh_bind_new() fails, under start() as written: the
      session ends with nothing held and nothing closed, yet the duplicate
      still exists. */
  method DuplicateLeakWitness() returns (leaked: bool)
    ensures leaked
  {
    var s := new Session(SshConfig("0.0.0.0", 2222, "", "/run/secrets/host_rsa"));
    s.StartAsWritten(StartOutcomes(7, false, SSH_OK, true, SSH_OK), SSH_OK, GreetingOutcomes(true, SSH_OK));
    leaked := Released(s.Snapshot()) && s.fd == HeldByStart && s.closes == [];
  }

  /** The same connection under the corrected start(): the duplicate is closed,
      once, by the session itself. */
  method DuplicateClosedWitness() returns (closed: bool)
    ensures closed
  {
    var s := new Session(SshConfig("0.0.0.0", 2222, "", "/run/secrets/host_rsa"));
    s.Start(StartOutcomes(7, false, SSH_OK, true, SSH_OK), SSH_OK, GreetingOutcomes(true, SSH_OK));
    closed := Released(s.Snapshot()) && s.fd == Closed && s.closes == [BySession];
  }
}
