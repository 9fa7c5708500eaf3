/**
 * The SSH service: it establishes sessions step by step, keeps the table of
 * sessions by ID and the per-session output buffers, and serves input,
 * resize, read-and-clear, keepalive and close requests against that table.
 *
 * The network steps (dial and handshake, channel, PTY, pipes, shell, window
 * change, keepalive request, stdin write) are library calls; their outcomes
 * are given as input. The clock is a parameter: milliseconds for latency,
 * nanoseconds for new session IDs.
 */
module Services {
  import opened Outcomes
  import opened Models
  import opened GoErrors
  import opened GoText
  import opened SshConfig
  import opened HostKeyCheck
  import opened SessionPump

  /**
   * What dialing the host does: it fails before any key is exchanged, or the
   * server presents its key (judged by the host-key callback) and the rest
   * of the handshake, authentication included, succeeds or fails.
   */
  datatype DialOutcome =
    | Unreachable(cause: string)
    | KeyExchange(key: PresentedKey, handshakeFailure: Option<string>)

  /** The steps after dialing, in the order they are taken. */
  datatype SetupStep = NewSession | RequestPty | StdinPipe | StdoutPipe | StderrPipe | StartShell

  /** Either every setup step succeeds or the first failing one and its cause. */
  datatype SetupOutcome = AllSucceed | FailAt(step: SetupStep, cause: string)

  /** The two handles a partly built session may hold open. */
  datatype Handle = ChannelHandle | ClientHandle

  /**
   * Everything a connect attempt learns from outside: the key parser's and
   * agent's verdicts, whether the home directory was found, the known_hosts
   * lookup, the dial and setup outcomes, and the clock in nanoseconds.
   */
  datatype ConnectEnv = ConnectEnv(
    keyParse: KeyParse,
    agent: AgentAccess,
    homeDirFound: bool,
    lookup: KnownHostsLookup,
    dial: DialOutcome,
    setup: SetupOutcome,
    nanos: int)

  /** A failed connect: its error, and the handles it closed, in the order it closed them. */
  datatype ConnectFailure = ConnectFailure(error: Error, released: seq<Handle>)

  /** A terminal-size change request, as sent to the server: rows then columns. */
  datatype WindowChange = WindowChange(height: int, width: int)

  /** A pseudo-terminal request, as sent to the server: the terminal type, then rows, then columns. */
  datatype PtyRequest = PtyRequest(term: string, height: int, width: int)

  const PtyTerm: string := "xterm-256color"

  const ConfigContext: string := "failed to build SSH config"
  const HandshakeContext: string := "ssh: handshake failed"

  /** The dial address, "hostname:port". */
  function Address(host: Host): (addr: string)
    ensures |addr| > |host.hostname| && addr[..|host.hostname|] == host.hostname && addr[|host.hostname|] == ':'
    ensures addr[|host.hostname| + 1..] == IntToString(host.port)
  {
    host.hostname + ":" + IntToString(host.port)
  }

  /** Hosts that differ only in their port are dialed at different addresses. */
  lemma AddressSeparatesPorts(a: Host, b: Host)
    requires a.hostname == b.hostname && a.port != b.port
    ensures Address(a) != Address(b)
  {
    var k := |a.hostname| + 1;
    if Address(a) == Address(b) {
      assert IntToString(a.port) == Address(a)[k..] == Address(b)[k..] == IntToString(b.port);
      IntToStringInjective(a.port, b.port);
    }
  }

  /** The ID of a session created when the clock read `nanos`. */
  function SessionIdFor(nanos: int): (id: string)
    ensures |id| > 8 && id[..8] == "session_"
  {
    "session_" + IntToString(nanos)
  }

  /** Sessions created at different clock readings get different IDs. */
  lemma SessionIdsDistinct(a: int, b: int)
    requires a != b
    ensures SessionIdFor(a) != SessionIdFor(b)
  {
    if SessionIdFor(a) == SessionIdFor(b) {
      assert IntToString(a) == SessionIdFor(a)[8..] == SessionIdFor(b)[8..] == IntToString(b);
      IntToStringInjective(a, b);
    }
  }

  function NotFound(sessionID: string): Error {
    Msg("session " + sessionID + " not found")
  }

  function NotActive(sessionID: string): Error {
    Msg("session " + sessionID + " is not active")
  }

  /** The error context of each setup step. */
  function StepContext(step: SetupStep): string {
    match step
    case NewSession => "failed to create SSH session"
    case RequestPty => "failed to request pty"
    case StdinPipe => "failed to create stdin pipe"
    case StdoutPipe => "failed to create stdout pipe"
    case StderrPipe => "failed to create stderr pipe"
    case StartShell => "failed to start shell"
  }

  /**
   * The PTY request of a connect for a `cols` x `rows` terminal as the
   * source writes it: the columns go where the request takes the height and
   * the rows where it takes the width.
   */
  function PtyRequestAsWritten(cols: int, rows: int): PtyRequest {
    PtyRequest(PtyTerm, cols, rows)
  }

  /** The PTY request a connect for a `cols` x `rows` terminal is meant to send: `rows` high and `cols` wide. */
  function PtyRequestFor(cols: int, rows: int): (p: PtyRequest)
    ensures p.term == PtyTerm
  {
    PtyRequest(PtyTerm, rows, cols)
  }

  /** The window change a resize to `width` x `height` sends. */
  function ResizeRequest(width: int, height: int): WindowChange {
    WindowChange(height, width)
  }

  /** The intended PTY request has the size a resize to the same columns and rows would set. */
  lemma PtySizeMatchesResize(cols: int, rows: int)
    ensures PtyRequestFor(cols, rows).height == ResizeRequest(cols, rows).height
    ensures PtyRequestFor(cols, rows).width == ResizeRequest(cols, rows).width
  {
  }

  /**
   * As written, the requested PTY has the size of the later resize only for a
   * square terminal; the default 80 x 24 connect asks for 80 rows of 24 columns.
   */
  lemma PtyRequestAsWrittenSwapsSize(cols: int, rows: int)
    ensures PtyRequestAsWritten(cols, rows) == PtyRequestFor(cols, rows) <==> cols == rows
    ensures PtyRequestAsWritten(cols, rows).height == ResizeRequest(cols, rows).height <==> cols == rows
    ensures PtyRequestAsWritten(80, 24).height == 80 && PtyRequestAsWritten(80, 24).width == 24
  {
  }

  /** Whether a connect gets as far as requesting the PTY: configuration, dial and the new channel succeed. */
  predicate PtyRequested(host: Host, env: ConnectEnv) {
    && BuildSSHConfig(host, env.keyParse, env.agent).Ok?
    && DialError(host, env).None?
    && !(env.setup.FailAt? && env.setup.step == NewSession)
  }

  /** Every established session went through the PTY request, and so did every failure after the channel opened. */
  lemma EstablishedHasPty(host: Host, env: ConnectEnv)
    ensures Establish(host, env).Ok? ==> PtyRequested(host, env)
    ensures Establish(host, env).Err? && |Establish(host, env).error.released| == 2 ==> PtyRequested(host, env)
  {
  }

  /** The handles open when a setup step fails, in the order they are closed. */
  function ReleasedAt(step: SetupStep): seq<Handle> {
    if step == NewSession then [ClientHandle] else [ChannelHandle, ClientHandle]
  }

  /**
   * What `ssh.Dial` reports: the network failure, the host-key callback's
   * verification signal (wrapped by the handshake), a later handshake
   * failure, or success; the handshake wraps the callback's signal and any
   * later failure alike. The callback is given the dial address.
   */
  function DialError(host: Host, env: ConnectEnv): (r: Option<Error>)
    ensures env.dial.KeyExchange? ==>
      var verdict := HostKeyDecision(Address(host), env.dial.key, env.homeDirFound, env.lookup);
      (verdict.Some? ==> r == Some(Wrap(HandshakeContext, HostKeyNeeded(verdict.value))))
      && (verdict.None? ==> r == if env.dial.handshakeFailure.Some?
                              then Some(Wrap(HandshakeContext, Msg(env.dial.handshakeFailure.value))) else None)
    ensures env.dial.Unreachable? ==> r == Some(Msg(env.dial.cause))
  {
    match env.dial
    case Unreachable(cause) => Some(Msg(cause))
    case KeyExchange(key, handshakeFailure) =>
      match HostKeyDecision(Address(host), key, env.homeDirFound, env.lookup)
      case Some(info) => Some(Wrap(HandshakeContext, HostKeyNeeded(info)))
      case None => if handshakeFailure.Some? then Some(Wrap(HandshakeContext, Msg(handshakeFailure.value))) else None
  }

  /**
   * The connect sequence: build the configuration, dial, open the channel,
   * request the PTY, the three pipes and the shell. The first failure ends
   * it, closing what was opened; only if every step succeeds is there a new
   * active session, with no ping measured and no probe pending.
   */
  function Establish(host: Host, env: ConnectEnv): (r: Result<Session, ConnectFailure>)
    ensures r.Ok? <==> BuildSSHConfig(host, env.keyParse, env.agent).Ok? && DialError(host, env).None?
                       && env.setup.AllSucceed?
    ensures r.Ok? ==> r.value == Session(SessionIdFor(env.nanos), host, true, 0, None)
    ensures r.Err? && BuildSSHConfig(host, env.keyParse, env.agent).Err? ==>
      r.error == ConnectFailure(Wrap(ConfigContext, BuildSSHConfig(host, env.keyParse, env.agent).error), [])
    ensures r.Err? && BuildSSHConfig(host, env.keyParse, env.agent).Ok? && DialError(host, env).Some? ==>
      r.error == ConnectFailure(Wrap("failed to connect to " + Address(host), DialError(host, env).value), [])
    ensures r.Err? && BuildSSHConfig(host, env.keyParse, env.agent).Ok? && DialError(host, env).None? ==>
      r.error == ConnectFailure(Wrap(StepContext(env.setup.step), Msg(env.setup.cause)), ReleasedAt(env.setup.step))
  {
    match BuildSSHConfig(host, env.keyParse, env.agent)
    case Err(e) => Err(ConnectFailure(Wrap(ConfigContext, e), []))
    case Ok(_) =>
      match DialError(host, env)
      case Some(e) => Err(ConnectFailure(Wrap("failed to connect to " + Address(host), e), []))
      case None =>
        match env.setup
        case FailAt(step, cause) => Err(ConnectFailure(Wrap(StepContext(step), Msg(cause)), ReleasedAt(step)))
        case AllSucceed => Ok(Session(SessionIdFor(env.nanos), host, true, 0, None))
  }

  /**
   * A connect attempt fails with the verification signal exactly when the
   * configuration was built and the host-key callback rejected the presented
   * key, and the signal carries the callback's verdict unchanged.
   */
  lemma ConnectSignalsVerification(host: Host, env: ConnectEnv)
    ensures var r := Establish(host, env);
      (r.Err? && AsHostKeyNeeded(r.error.error).Some?)
      <==> (BuildSSHConfig(host, env.keyParse, env.agent).Ok? && env.dial.KeyExchange?
            && HostKeyDecision(Address(host), env.dial.key, env.homeDirFound, env.lookup).Some?)
    ensures var r := Establish(host, env);
      r.Err? && AsHostKeyNeeded(r.error.error).Some? ==>
        AsHostKeyNeeded(r.error.error) == HostKeyDecision(Address(host), env.dial.key, env.homeDirFound, env.lookup)
  {
    var r := Establish(host, env);
    var config := BuildSSHConfig(host, env.keyParse, env.agent);
    if config.Err? {
      ConfigErrorIsNotVerification(host, env.keyParse, env.agent);
      assert AsHostKeyNeeded(r.error.error) == AsHostKeyNeeded(config.error);
    } else if DialError(host, env).Some? {
      var d := DialError(host, env).value;
      assert AsHostKeyNeeded(r.error.error) == AsHostKeyNeeded(d);
      if d.Wrap? {
        assert AsHostKeyNeeded(d) == AsHostKeyNeeded(d.cause);
      }
    } else if r.Err? {
      assert AsHostKeyNeeded(r.error.error) == AsHostKeyNeeded(Msg(env.setup.cause));
    }
  }

  /**
   * The check every per-session request makes first: an unknown ID is
   * "not found", a known but inactive session "not active", in that order.
   */
  function RequireActive(sessions: map<string, Session>, sessionID: string): (r: Result<Session, Error>)
    ensures r == Err(NotFound(sessionID)) <==> sessionID !in sessions
    ensures r == Err(NotActive(sessionID)) <==> sessionID in sessions && !sessions[sessionID].isActive
    ensures r.Ok? <==> sessionID in sessions && sessions[sessionID].isActive
    ensures r.Ok? ==> r.value == sessions[sessionID]
  {
    assert NotFound(sessionID) != NotActive(sessionID) by {
      assert |NotFound(sessionID).text| < |NotActive(sessionID).text|;
    }
    if sessionID !in sessions then Err(NotFound(sessionID))
    else if !sessions[sessionID].isActive then Err(NotActive(sessionID))
    else Ok(sessions[sessionID])
  }

  class SSHService {
    /** The sessions by ID. */
    var sessions: map<string, Session>
    /** Output read from each session and not yet collected, by session ID. */
    var buffers: map<string, string>

    /** Every session is filed under its own ID. */
    ghost predicate Valid()
      reads this
    {
      forall id :: id in sessions ==> sessions[id].id == id
    }

    constructor ()
      ensures Valid() && sessions == map[] && buffers == map[]
    {
      sessions := map[];
      buffers := map[];
    }

    /**
     * Connects `host`, requesting a PTY for `cols` x `rows` once the channel
     * is open (`pty` is the request sent, if any, in the order the source
     * writes it). On success the new session
     * is filed under its ID and returned; on failure the table is unchanged
     * and the handles opened so far are released.
     */
    method ConnectWithDimensions(host: Host, cols: int, rows: int, env: ConnectEnv)
      returns (r: Result<Session, Error>, released: seq<Handle>, pty: Option<PtyRequest>)
      requires Valid()
      modifies this
      ensures Valid()
      ensures buffers == old(buffers)
      ensures r.Ok? <==> Establish(host, env).Ok?
      ensures r.Ok? ==> r.value == Establish(host, env).value && r.value.isActive
                        && sessions == old(sessions)[r.value.id := r.value] && released == []
      ensures r.Err? ==> r.error == Establish(host, env).error.error
                         && released == Establish(host, env).error.released
                         && sessions == old(sessions)
      ensures pty == if PtyRequested(host, env) then Some(PtyRequestAsWritten(cols, rows)) else None
    {
      pty := if PtyRequested(host, env) then Some(PtyRequestAsWritten(cols, rows)) else None;
      var outcome := Establish(host, env);
      match outcome
      case Err(failure) =>
        r, released := Err(failure.error), failure.released;
      case Ok(session) =>
        sessions := sessions[session.id := session];
        r, released := Ok(session), [];
    }

    /** Connects with the default terminal of 80 columns and 24 rows. */
    method Connect(host: Host, env: ConnectEnv)
      returns (r: Result<Session, Error>, released: seq<Handle>, pty: Option<PtyRequest>)
      requires Valid()
      modifies this
      ensures Valid()
      ensures buffers == old(buffers)
      ensures r.Ok? <==> Establish(host, env).Ok?
      ensures r.Ok? ==> r.value == Establish(host, env).value && sessions == old(sessions)[r.value.id := r.value]
                        && released == []
      ensures r.Err? ==> r.error == Establish(host, env).error.error && sessions == old(sessions)
                         && released == Establish(host, env).error.released
      ensures pty == if PtyRequested(host, env) then Some(PtyRequestAsWritten(80, 24)) else None
    {
      r, released, pty := ConnectWithDimensions(host, 80, 24, env);
    }

    /**
     * Sends `input` to an active session, first recording `now` as the
     * pending probe time; the result is the write's own outcome. An unknown
     * or inactive session is refused and nothing changes.
     */
    method SendInput(sessionID: string, input: string, now: int, writeFailure: Option<string>)
      returns (err: Option<Error>)
      requires Valid()
      modifies this
      ensures Valid()
      ensures buffers == old(buffers)
      ensures RequireActive(old(sessions), sessionID).Err? ==>
        err == Some(RequireActive(old(sessions), sessionID).error) && sessions == old(sessions)
      ensures RequireActive(old(sessions), sessionID).Ok? ==>
        sessions == old(sessions)[sessionID := old(sessions)[sessionID].(lastPingSentAt := Some(now))]
        && err == if writeFailure.Some? then Some(Msg(writeFailure.value)) else None
    {
      var found := RequireActive(sessions, sessionID);
      if found.Err? {
        return Some(found.error);
      }
      sessions := sessions[sessionID := found.value.(lastPingSentAt := Some(now))];
      err := if writeFailure.Some? then Some(Msg(writeFailure.value)) else None;
    }

    /**
     * Asks an active session's server to resize the terminal to `width` x
     * `height`. Nothing in the service changes; an unknown or inactive session
     * is refused and no request is sent.
     */
    method ResizeTerminal(sessionID: string, width: int, height: int, windowChangeFailure: Option<string>)
      returns (err: Option<Error>, sent: Option<WindowChange>)
      ensures sessionID !in sessions ==> err == Some(NotFound(sessionID)) && sent.None?
      ensures sessionID in sessions && !sessions[sessionID].isActive ==>
        err == Some(NotActive(sessionID)) && sent.None?
      ensures sessionID in sessions && sessions[sessionID].isActive ==>
        sent == Some(ResizeRequest(width, height))
        && err == if windowChangeFailure.Some? then Some(Msg(windowChangeFailure.value)) else None
    {
      var found := RequireActive(sessions, sessionID);
      if found.Err? {
        return Some(found.error), None;
      }
      sent := Some(ResizeRequest(width, height));
      err := if windowChangeFailure.Some? then Some(Msg(windowChangeFailure.value)) else None;
    }

    /**
     * Returns everything buffered for an active session and empties its
     * buffer. An unknown or inactive session is refused and no buffer changes.
     */
    method ReadOutput(sessionID: string) returns (r: Result<string, Error>)
      requires Valid()
      modifies this`buffers
      ensures RequireActive(sessions, sessionID).Err? ==>
        r == Err(RequireActive(sessions, sessionID).error) && buffers == old(buffers)
      ensures RequireActive(sessions, sessionID).Ok? ==>
        r == Ok(BufferOf(old(buffers), sessionID)) && buffers == old(buffers)[sessionID := ""]
    {
      var found := RequireActive(sessions, sessionID);
      if found.Err? {
        return Err(found.error);
      }
      var output := GetAndClearSessionBuffer(sessionID);
      r := Ok(output);
    }

    /**
     * Sends a keepalive request on an active session, first recording `now`
     * as the pending probe time. A failed request is reported with the
     * session's ID. An unknown or inactive session is refused and nothing changes.
     */
    method CheckSessionHealth(sessionID: string, now: int, requestFailure: Option<string>)
      returns (err: Option<Error>)
      requires Valid()
      modifies this
      ensures Valid()
      ensures buffers == old(buffers)
      ensures RequireActive(old(sessions), sessionID).Err? ==>
        err == Some(RequireActive(old(sessions), sessionID).error) && sessions == old(sessions)
      ensures RequireActive(old(sessions), sessionID).Ok? ==>
        sessions == old(sessions)[sessionID := old(sessions)[sessionID].(lastPingSentAt := Some(now))]
        && err == if requestFailure.Some? then
                    Some(Wrap("ping failed for session " + sessionID, Msg(requestFailure.value)))
                  else None
    {
      var found := RequireActive(sessions, sessionID);
      if found.Err? {
        return Some(found.error);
      }
      sessions := sessions[sessionID := found.value.(lastPingSentAt := Some(now))];
      if requestFailure.Some? {
        return Some(Wrap("ping failed for session " + sessionID, Msg(requestFailure.value)));
      }
      err := None;
    }

    /**
     * Closes a session, active or not: it is marked inactive (`closed` is its
     * final state, which its pump observes), its channel and client are
     * released, and exactly its entry leaves the table. Its output buffer is
     * kept. An unknown ID is refused and nothing changes.
     */
    method CloseSession(sessionID: string) returns (err: Option<Error>, closed: Option<Session>, released: seq<Handle>)
      requires Valid()
      modifies this
      ensures Valid()
      ensures buffers == old(buffers)
      ensures sessionID !in old(sessions) ==>
        err == Some(NotFound(sessionID)) && closed.None? && released == [] && sessions == old(sessions)
      ensures sessionID in old(sessions) ==>
        err.None? && closed == Some(old(sessions)[sessionID].(isActive := false))
        && released == [ChannelHandle, ClientHandle]
        && sessions == old(sessions) - {sessionID}
    {
      if sessionID !in sessions {
        return Some(NotFound(sessionID)), None, [];
      }
      closed := Some(sessions[sessionID].(isActive := false));
      released := [ChannelHandle, ClientHandle];
      sessions := sessions - {sessionID};
      err := None;
    }

    /** Exactly the sessions whose active flag is set, under their IDs. */
    method GetActiveSessions() returns (active: map<string, Session>)
      ensures forall id :: id in active <==> id in sessions && sessions[id].isActive
      ensures forall id :: id in active ==> active[id] == sessions[id]
    {
      active := map[];
      var pending := sessions.Keys;
      while pending != {}
        invariant pending <= sessions.Keys
        invariant forall id :: id in active <==> id in sessions && id !in pending && sessions[id].isActive
        invariant forall id :: id in active ==> active[id] == sessions[id]
        decreases pending
      {
        var id :| id in pending;
        if sessions[id].isActive {
          active := active[id := sessions[id]];
        }
        pending := pending - {id};
      }
    }

    /** The last measured ping of a session, active or not; an unknown ID is refused. */
    method GetSessionPing(sessionID: string) returns (r: Result<int, Error>)
      ensures sessionID in sessions <==> r.Ok?
      ensures r.Ok? ==> r.value == sessions[sessionID].ping
      ensures r.Err? ==> r.error == NotFound(sessionID)
    {
      if sessionID !in sessions {
        return Err(NotFound(sessionID));
      }
      r := Ok(sessions[sessionID].ping);
    }

    /** Appends `output` to the buffer of `sessionID`, creating it if needed. */
    method AddToSessionBuffer(sessionID: string, output: string)
      modifies this`buffers
      ensures buffers == Appended(old(buffers), sessionID, output)
    {
      buffers := buffers[sessionID := BufferOf(buffers, sessionID) + output];
    }

    /** Returns the buffer of `sessionID` and leaves it empty: a second call with no output in between returns "". */
    method GetAndClearSessionBuffer(sessionID: string) returns (output: string)
      modifies this`buffers
      ensures output == BufferOf(old(buffers), sessionID)
      ensures buffers == old(buffers)[sessionID := ""] && BufferOf(buffers, sessionID) == ""
    {
      output := BufferOf(buffers, sessionID);
      buffers := buffers[sessionID := ""];
    }

    /**
     * The buffer protocol: output appended to a session's buffer is collected
     * after what was already there, and collecting again at once returns "".
     */
    method AppendThenCollect(sessionID: string, output: string) returns (first: string, second: string)
      modifies this`buffers
      ensures first == BufferOf(old(buffers), sessionID) + output
      ensures second == ""
      ensures buffers == old(buffers)[sessionID := ""]
    {
      AddToSessionBuffer(sessionID, output);
      first := GetAndClearSessionBuffer(sessionID);
      second := GetAndClearSessionBuffer(sessionID);
    }

    /**
     * One pass of the output pump of the active session `sessionID` (the loop
     * of `PumpActive` tests that it is still active before each pass): a read
     * of some bytes settles a pending probe and is appended to the buffer; an
     * empty read, a timeout or any other error changes nothing; end of stream
     * stops the pump.
     */
    method PumpIteration(sessionID: string, event: ReadEvent) returns (stop: bool)
      requires Valid()
      requires sessionID in sessions && sessions[sessionID].isActive
      modifies this
      ensures Valid()
      ensures stop == event.result.EOF?
      ensures sessions == old(sessions)[sessionID := AfterRead(old(sessions)[sessionID], event)]
      ensures buffers == if ChunkText(event.result) == "" then old(buffers)
                         else Appended(old(buffers), sessionID, ChunkText(event.result))
    {
      match event.result
      case EOF =>
        stop := true;
      case Timeout =>
        stop := false;
      case OtherErr(_) =>
        stop := false;
      case Chunk(data) =>
        if data != "" {
          var session := sessions[sessionID];
          if session.lastPingSentAt.Some? {
            session := session.(ping := event.at - session.lastPingSentAt.value, lastPingSentAt := None);
          }
          sessions := sessions[sessionID := session];
          AddToSessionBuffer(sessionID, data);
        }
        stop := false;
    }

    /**
     * The state of this service after the pump of `sessionID` has handled the
     * first `consumed` of `events`, starting from the table `start`, the
     * session `first` and the buffers `startBuffers`.
     */
    ghost predicate PumpedSoFar(sessionID: string, events: seq<ReadEvent>, consumed: nat, start: map<string, Session>,
                                first: Session, startBuffers: map<string, string>)
      reads this
    {
      && consumed <= |events|
      && sessions == start[sessionID := AfterReads(first, events[..consumed])]
      && buffers == BuffersAfter(startBuffers, sessionID, events[..consumed])
    }

    /**
     * One pass of the pump over read `consumed` of `events`, stated in terms of
     * the whole run so far: the session and the buffers move from what the
     * first `consumed` reads left to what the first `consumed + 1` reads leave.
     */
    method PumpNext(sessionID: string, events: seq<ReadEvent>, consumed: nat, ghost start: map<string, Session>,
                    ghost first: Session, ghost startBuffers: map<string, string>)
      returns (stop: bool)
      requires Valid()
      requires consumed < |events|
      requires first.isActive && first.id == sessionID
      requires PumpedSoFar(sessionID, events, consumed, start, first, startBuffers)
      modifies this
      ensures Valid()
      ensures stop == events[consumed].result.EOF?
      ensures PumpedSoFar(sessionID, events, consumed + 1, start, first, startBuffers)
    {
      PumpStepSession(start, first, sessionID, events, consumed);
      PumpStepBuffers(startBuffers, sessionID, events, consumed);
      stop := PumpIteration(sessionID, events[consumed]);
    }

    /**
     * The output pump of `sessionID` over the reads `events`: it runs while
     * the session is active, stopping after the first end of stream or when
     * the reads run out. Its session ends up as the reads leave it, and its
     * buffer has gained everything they delivered, in order. A session that
     * is missing or closed reads nothing.
     */
    method StreamOutput(sessionID: string, events: seq<ReadEvent>) returns (consumed: nat)
      requires Valid()
      modifies this
      ensures Valid()
      ensures !(sessionID in old(sessions) && old(sessions)[sessionID].isActive) ==>
        consumed == 0 && sessions == old(sessions) && buffers == old(buffers)
      ensures sessionID in old(sessions) && old(sessions)[sessionID].isActive ==>
        PumpRan(sessionID, events, consumed, old(sessions), old(buffers), sessions, buffers)
    {
      if !(sessionID in sessions && sessions[sessionID].isActive) {
        return 0;
      }
      consumed := PumpActive(sessionID, events);
    }

    /**
     * What a run of the pump of an active session over `events` leaves: it
     * read the `consumed` of them up to the first end of stream (or all of
     * them), and session and buffers are as those reads leave them.
     */
    ghost predicate PumpRan(sessionID: string, events: seq<ReadEvent>, consumed: nat,
                            sessions0: map<string, Session>, buffers0: map<string, string>,
                            sessions1: map<string, Session>, buffers1: map<string, string>)
      requires sessionID in sessions0
    {
      && consumed == PumpReads(events)
      && sessions1 == sessions0[sessionID := AfterReads(sessions0[sessionID], events[..consumed])]
      && buffers1 == BuffersAfter(buffers0, sessionID, events[..consumed])
    }

    /** The loop of the output pump, entered with `sessionID` active. */
    method PumpActive(sessionID: string, events: seq<ReadEvent>) returns (consumed: nat)
      requires Valid()
      requires sessionID in sessions && sessions[sessionID].isActive
      modifies this
      ensures Valid()
      ensures PumpRan(sessionID, events, consumed, old(sessions), old(buffers), sessions, buffers)
    {
      ghost var start := sessions;
      ghost var first := sessions[sessionID];
      ghost var startBuffers := buffers;
      consumed := 0;
      while consumed < |events| && sessionID in sessions && sessions[sessionID].isActive
        invariant Valid()
        invariant PumpedSoFar(sessionID, events, consumed, start, first, startBuffers)
        invariant consumed <= FirstEnd(events)
      {
        FirstEndAt(events, consumed);
        var stop := PumpNext(sessionID, events, consumed, start, first, startBuffers);
        consumed := consumed + 1;
        if stop {
          break;
        }
      }
    }
  }
}
