/**
 * The application layer over the SSH service: connecting a saved host by ID
 * (lookup, connect, last-used update), turning a connect outcome into the
 * three-way reply the user interface branches on, and the trust store
 * (~/.ssh/known_hosts) that accepting a host key appends to.
 *
 * The host registry is the map of saved hosts; a failure of the registry
 * itself (query or decryption) is given as input, as are the file-system
 * outcomes of the trust-store operations and the clock.
 */
module AppApi {
  import opened Outcomes
  import opened Models
  import opened GoErrors
  import opened GoText
  import opened SshConfig
  import opened HostKeyCheck
  import opened Services

  /** The reply to a connect request: the key awaits the user's decision, or the session is up. */
  datatype ConnectReply =
    | NeedsHostKeyVerification(info: HostKeyInfo)
    | Connected(sessionId: string)

  /** The file-system outcome of appending to known_hosts: done, or the step that failed. */
  datatype AppendOutcome =
    | AppendDone
    | AppendNoHomeDir(cause: string)
    | MkdirFailed(cause: string)
    | OpenFailed(cause: string)
    | WriteFailed(cause: string)

  /** The file-system outcome of truncating known_hosts: done, or the step that failed. */
  datatype TruncateOutcome =
    | TruncateDone
    | TruncateNoHomeDir(cause: string)
    | CreateFailed(cause: string)

  const HostNotFound: Error := Msg("host not found")

  /**
   * Looking up a saved host: a registry failure is wrapped, an unknown ID is
   * "host not found", otherwise the stored host.
   */
  function LookupHost(hosts: map<string, Host>, hostID: string, registryFailure: Option<string>)
    : (r: Result<Host, Error>)
    ensures registryFailure.Some? ==> r == Err(Wrap("failed to get host", Msg(registryFailure.value)))
    ensures registryFailure.None? && hostID !in hosts ==> r == Err(HostNotFound)
    ensures r.Ok? <==> registryFailure.None? && hostID in hosts
    ensures r.Ok? ==> r.value == hosts[hostID]
  {
    if registryFailure.Some? then Err(Wrap("failed to get host", Msg(registryFailure.value)))
    else if hostID !in hosts then Err(HostNotFound)
    else Ok(hosts[hostID])
  }

  /**
   * The reply for a connect outcome: a new session's ID; the key details when
   * the error is, or wraps, the verification signal (the reply is then not
   * an error); any other error unchanged.
   */
  function ClassifyConnect(outcome: Result<string, Error>): (r: Result<ConnectReply, Error>)
    ensures outcome.Ok? ==> r == Ok(Connected(outcome.value))
    ensures outcome.Err? && AsHostKeyNeeded(outcome.error).Some? ==>
      r == Ok(NeedsHostKeyVerification(AsHostKeyNeeded(outcome.error).value))
    ensures outcome.Err? && AsHostKeyNeeded(outcome.error).None? ==> r == Err(outcome.error)
  {
    match outcome
    case Ok(id) => Ok(Connected(id))
    case Err(e) =>
      if e.HostKeyNeeded? then Ok(NeedsHostKeyVerification(e.info))
      else
        match AsHostKeyNeeded(e)
        case Some(info) => Ok(NeedsHostKeyVerification(info))
        case None => Err(e)
  }

  /** The service's connect outcome for `host`, as the session ID or the error. */
  function ConnectOutcome(host: Host, env: ConnectEnv): Result<string, Error> {
    match Establish(host, env)
    case Ok(session) => Ok(session.id)
    case Err(failure) => Err(failure.error)
  }

  /**
   * The three-way reply end to end: the user is asked about the key exactly
   * when the configuration was built and the host-key callback rejected the
   * key, and is shown the callback's details unchanged; a session ID comes
   * back exactly when every connect step succeeded; every other failure is
   * returned as the service's error.
   */
  lemma ConnectReplyThreeWay(host: Host, env: ConnectEnv)
    ensures var r := ClassifyConnect(ConnectOutcome(host, env));
      && (r.Ok? && r.value.NeedsHostKeyVerification? <==>
            BuildSSHConfig(host, env.keyParse, env.agent).Ok? && env.dial.KeyExchange?
            && HostKeyDecision(Address(host), env.dial.key, env.homeDirFound, env.lookup).Some?)
      && (r.Ok? && r.value.NeedsHostKeyVerification? ==>
            Some(r.value.info) == HostKeyDecision(Address(host), env.dial.key, env.homeDirFound, env.lookup))
      && (r.Ok? && r.value.Connected? <==> Establish(host, env).Ok?)
      && (r.Ok? && r.value.Connected? ==> r.value.sessionId == SessionIdFor(env.nanos))
      && (r.Err? ==> Establish(host, env).Err? && r.error == Establish(host, env).error.error)
  {
    ConnectSignalsVerification(host, env);
  }

  /** The known_hosts line written when the user accepts `publicKey` for `hostname`. */
  function KnownHostsEntry(hostname: string, publicKey: string): (line: string)
    ensures |line| == |hostname| + |TrimSpace(publicKey)| + 2
    ensures line[..|hostname|] == hostname && line[|hostname|] == ' '
    ensures line[|hostname| + 1..|line| - 1] == TrimSpace(publicKey) && line[|line| - 1] == '\n'
  {
    hostname + " " + TrimSpace(publicKey) + "\n"
  }

  /** The position of the first `c` in `s`, if any. */
  function IndexOf(s: string, c: char): (r: Option<nat>)
    ensures r.None? <==> c !in s
    ensures r.Some? ==> r.value < |s| && s[r.value] == c && c !in s[..r.value]
  {
    var r := IndexFrom(s, c, 0);
    assert r.Some? ==> forall j :: 0 <= j < r.value ==> s[..r.value][j] != c;
    r
  }

  /** The position of the first `c` in `s` at or after `i`, if any. */
  function IndexFrom(s: string, c: char, i: nat): (r: Option<nat>)
    requires i <= |s|
    ensures r.None? <==> forall j :: i <= j < |s| ==> s[j] != c
    ensures r.Some? ==> i <= r.value < |s| && s[r.value] == c && forall j :: i <= j < r.value ==> s[j] != c
    decreases |s| - i
  {
    if i == |s| then None else if s[i] == c then Some(i) else IndexFrom(s, c, i + 1)
  }

  /** Reads a known_hosts line back: the host pattern before the first space, the key after it. */
  function ParseKnownHostsEntry(line: string): Option<(string, string)> {
    if line == [] || line[|line| - 1] != '\n' then None
    else
      var body := line[..|line| - 1];
      match IndexOf(body, ' ')
      case None => None
      case Some(i) => Some((body[..i], body[i + 1..]))
  }

  /** An accepted key's line reads back as the hostname and the trimmed key, for any hostname without a space. */
  lemma KnownHostsEntryRoundTrip(hostname: string, publicKey: string)
    requires ' ' !in hostname
    ensures ParseKnownHostsEntry(KnownHostsEntry(hostname, publicKey)) == Some((hostname, TrimSpace(publicKey)))
  {
    var line := KnownHostsEntry(hostname, publicKey);
    var body := line[..|line| - 1];
    assert body == hostname + " " + TrimSpace(publicKey);
    assert body[..|hostname|] == hostname;
    assert body[|hostname|] == ' ';
    assert IndexOf(body, ' ') == Some(|hostname|);
    assert body[|hostname| + 1..] == TrimSpace(publicKey);
  }

  /**
   * The registry after a successful connect of `hostID` at `now`: its last use
   * is `now`, unless the update failed, which leaves the registry as it was.
   */
  function LastUseRecorded(hosts: map<string, Host>, hostID: string, now: int, recordFailure: bool)
    : (r: map<string, Host>)
    requires hostID in hosts
    ensures r.Keys == hosts.Keys
    ensures forall id :: id in hosts && id != hostID ==> r[id] == hosts[id]
    ensures !recordFailure ==> r[hostID].lastUsed == Some(now)
    ensures r[hostID] == hosts[hostID].(lastUsed := r[hostID].lastUsed)
    ensures recordFailure ==> r == hosts
  {
    if recordFailure then hosts else hosts[hostID := hosts[hostID].(lastUsed := Some(now))]
  }

  class App {
    /** The saved hosts, by ID. */
    var hosts: map<string, Host>
    /**
     * The entries written to ~/.ssh/known_hosts, in file order. Each accepted
     * key appends one entry ending in a newline; if the file did not end in a
     * newline, the first appended entry continues its last line.
     */
    var knownHosts: seq<string>
    const ssh: SSHService

    ghost predicate Valid()
      reads this, ssh
    {
      ssh.Valid()
    }

    constructor (ssh: SSHService, hosts: map<string, Host>, knownHosts: seq<string>)
      requires ssh.Valid()
      ensures Valid() && this.ssh == ssh && this.hosts == hosts && this.knownHosts == knownHosts
    {
      this.ssh := ssh;
      this.hosts := hosts;
      this.knownHosts := knownHosts;
    }

    /**
     * Connects the saved host `hostID`. The lookup comes first: if it fails
     * nothing is attempted. A successful connect records `now` as the host's
     * last use and returns the new session's ID, even if recording fails
     * (`recordFailure`); a failed connect changes no host.
     */
    method ConnectSSHWithDimensions(hostID: string, cols: int, rows: int, registryFailure: Option<string>,
                                    env: ConnectEnv, now: int, recordFailure: bool)
      returns (r: Result<string, Error>)
      requires Valid()
      modifies this, ssh
      ensures Valid()
      ensures knownHosts == old(knownHosts) && ssh.buffers == old(ssh.buffers)
      ensures LookupHost(old(hosts), hostID, registryFailure).Err? ==>
        r == Err(LookupHost(old(hosts), hostID, registryFailure).error)
        && hosts == old(hosts) && ssh.sessions == old(ssh.sessions)
      ensures LookupHost(old(hosts), hostID, registryFailure).Ok? ==>
        var host := old(hosts)[hostID];
        && r == ConnectOutcome(host, env)
        && (r.Ok? ==> hosts == LastUseRecorded(old(hosts), hostID, now, recordFailure)
                      && ssh.sessions == old(ssh.sessions)[r.value := Establish(host, env).value])
        && (r.Err? ==> hosts == old(hosts) && ssh.sessions == old(ssh.sessions))
    {
      var found := LookupHost(hosts, hostID, registryFailure);
      if found.Err? {
        return Err(found.error);
      }
      var session, _, _ := ssh.ConnectWithDimensions(found.value, cols, rows, env);
      if session.Err? {
        return Err(session.error);
      }
      if !recordFailure {
        hosts := hosts[hostID := hosts[hostID].(lastUsed := Some(now))];
      }
      r := Ok(session.value.id);
    }

    /**
     * Connects the saved host `hostID` and replies in one of three ways: the
     * session ID, the key details awaiting the user's decision, or the error.
     * The lookup comes first; only a successful connect records `now` as the
     * host's last use, and a failure to record it is ignored.
     */
    method ConnectSSHWithHostKeyVerification(hostID: string, cols: int, rows: int,
                                             registryFailure: Option<string>, env: ConnectEnv, now: int,
                                             recordFailure: bool)
      returns (r: Result<ConnectReply, Error>)
      requires Valid()
      modifies this, ssh
      ensures Valid()
      ensures knownHosts == old(knownHosts) && ssh.buffers == old(ssh.buffers)
      ensures LookupHost(old(hosts), hostID, registryFailure).Err? ==>
        r == Err(LookupHost(old(hosts), hostID, registryFailure).error)
        && hosts == old(hosts) && ssh.sessions == old(ssh.sessions)
      ensures LookupHost(old(hosts), hostID, registryFailure).Ok? ==>
        var host := old(hosts)[hostID];
        && r == ClassifyConnect(ConnectOutcome(host, env))
        && (Establish(host, env).Ok? ==>
              hosts == LastUseRecorded(old(hosts), hostID, now, recordFailure)
              && ssh.sessions == old(ssh.sessions)[Establish(host, env).value.id := Establish(host, env).value])
        && (Establish(host, env).Err? ==> hosts == old(hosts) && ssh.sessions == old(ssh.sessions))
    {
      var found := LookupHost(hosts, hostID, registryFailure);
      if found.Err? {
        return Err(found.error);
      }
      var session, _, _ := ssh.ConnectWithDimensions(found.value, cols, rows, env);
      if session.Err? {
        return ClassifyConnect(Err(session.error));
      }
      if !recordFailure {
        hosts := hosts[hostID := hosts[hostID].(lastUsed := Some(now))];
      }
      r := Ok(Connected(session.value.id));
    }

    /**
     * Trusts `publicKey` for `hostname`: appends exactly one line, the
     * hostname, a space and the trimmed key, after the existing lines. If a
     * file-system step fails the file is unchanged.
     */
    method AcceptHostKey(hostname: string, publicKey: string, fs: AppendOutcome) returns (err: Option<Error>)
      modifies this`knownHosts
      ensures fs.AppendDone? ==> err.None? && knownHosts == old(knownHosts) + [KnownHostsEntry(hostname, publicKey)]
      ensures !fs.AppendDone? ==> err.Some? && knownHosts == old(knownHosts)
      ensures fs.AppendNoHomeDir? ==> err == Some(Wrap("failed to get home directory", Msg(fs.cause)))
      ensures fs.MkdirFailed? ==> err == Some(Wrap("failed to create .ssh directory", Msg(fs.cause)))
      ensures fs.OpenFailed? ==> err == Some(Wrap("failed to open known_hosts file", Msg(fs.cause)))
      ensures fs.WriteFailed? ==> err == Some(Wrap("failed to write to known_hosts file", Msg(fs.cause)))
    {
      match fs
      case AppendNoHomeDir(cause) =>
        return Some(Wrap("failed to get home directory", Msg(cause)));
      case MkdirFailed(cause) =>
        return Some(Wrap("failed to create .ssh directory", Msg(cause)));
      case OpenFailed(cause) =>
        return Some(Wrap("failed to open known_hosts file", Msg(cause)));
      case WriteFailed(cause) =>
        return Some(Wrap("failed to write to known_hosts file", Msg(cause)));
      case AppendDone =>
        knownHosts := knownHosts + [KnownHostsEntry(hostname, publicKey)];
        err := None;
    }

    /** Empties known_hosts; if a file-system step fails the file is unchanged. */
    method ClearKnownHosts(fs: TruncateOutcome) returns (err: Option<Error>)
      modifies this`knownHosts
      ensures fs.TruncateDone? ==> err.None? && knownHosts == []
      ensures fs.TruncateNoHomeDir? ==>
        err == Some(Wrap("failed to get home directory", Msg(fs.cause))) && knownHosts == old(knownHosts)
      ensures fs.CreateFailed? ==>
        err == Some(Wrap("failed to clear known_hosts file", Msg(fs.cause))) && knownHosts == old(knownHosts)
    {
      match fs
      case TruncateNoHomeDir(cause) =>
        return Some(Wrap("failed to get home directory", Msg(cause)));
      case CreateFailed(cause) =>
        return Some(Wrap("failed to clear known_hosts file", Msg(cause)));
      case TruncateDone =>
        knownHosts := [];
        err := None;
    }
  }
}
