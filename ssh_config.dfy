/**
 * Building the client configuration for a connect attempt: the login user, the
 * fixed dial timeout and exactly one authentication method chosen from the
 * host's method tag, or the configuration error that rejects the host.
 *
 * The key parser and the agent socket are outside this model; what they
 * report is given as input (`KeyParse`, `AgentAccess`).
 */
module SshConfig {
  import opened Outcomes
  import opened Models
  import opened GoErrors

  /** Dial timeout of every client configuration, in seconds. */
  const DialTimeoutSeconds: int := 30

  /** What `ssh.ParsePrivateKey` reports for the stored key material. */
  datatype KeyParse =
    | Parsed(signer: string)
    | PassphraseMissing
    | Unparsable(cause: string)

  /** The value of `SSH_AUTH_SOCK` ("" when unset) and the failure, if any, of dialing it. */
  datatype AgentAccess = AgentAccess(socket: string, dialFailure: Option<string>)

  /** The authentication method placed in the configuration. */
  datatype AuthChoice =
    | PasswordAuth(password: string)
    | PublicKeyAuth(signer: string)
    | AgentAuth(socket: string)

  datatype ClientConfig = ClientConfig(user: string, timeoutSeconds: int, auth: AuthChoice)

  const PasswordRequired: Error := Msg("password is required for password authentication")
  const PrivateKeyRequired: Error := Msg("private key is required for key authentication")
  const PassphraseRequired: Error := Msg("private key is encrypted and requires a passphrase (not yet supported)")
  const KeyParseContext: string := "failed to parse private key (key may be invalid or corrupted)"
  const AgentContext: string := "failed to get SSH agent auth"
  const AgentSocketUnset: Error := Msg("SSH_AUTH_SOCK environment variable not set")
  const AgentDialContext: string := "failed to connect to SSH agent"

  function UnsupportedAuthMethod(tag: string): Error {
    Msg("unsupported authentication method: " + tag)
  }

  /** Agent authentication: usable only when the socket variable is set and the socket answers. */
  function SshAgentAuth(agent: AgentAccess): (r: Result<AuthChoice, Error>)
    ensures r.Ok? <==> agent.socket != "" && agent.dialFailure.None?
    ensures r.Ok? ==> r.value == AgentAuth(agent.socket)
    ensures agent.socket == "" ==> r == Err(AgentSocketUnset)
    ensures agent.socket != "" && agent.dialFailure.Some? ==>
      r == Err(Wrap(AgentDialContext, Msg(agent.dialFailure.value)))
  {
    if agent.socket == "" then Err(AgentSocketUnset)
    else if agent.dialFailure.Some? then Err(Wrap(AgentDialContext, Msg(agent.dialFailure.value)))
    else Ok(AgentAuth(agent.socket))
  }

  /** The host's credentials are usable for its method tag. */
  predicate CredentialsUsable(host: Host, keyParse: KeyParse, agent: AgentAccess) {
    || (host.authMethod == AuthPassword && host.password != "")
    || (host.authMethod == AuthPrivateKey && host.privateKey != "" && keyParse.Parsed?)
    || (host.authMethod == AuthAgent && agent.socket != "" && agent.dialFailure.None?)
  }

  /**
   * The configuration for `host`, or the reason it is rejected: an empty
   * password, an empty key, an encrypted key (its own error), an unparsable
   * key, an unavailable agent, or an unknown method tag.
   */
  function BuildSSHConfig(host: Host, keyParse: KeyParse, agent: AgentAccess): (r: Result<ClientConfig, Error>)
    ensures r.Ok? <==> CredentialsUsable(host, keyParse, agent)
    ensures r.Ok? ==> r.value.user == host.username && r.value.timeoutSeconds == 30
    ensures r.Ok? && host.authMethod == AuthPassword ==> r.value.auth == PasswordAuth(host.password)
    ensures r.Ok? && host.authMethod == AuthPrivateKey ==> r.value.auth == PublicKeyAuth(keyParse.signer)
    ensures r.Ok? && host.authMethod == AuthAgent ==> r.value.auth == AgentAuth(agent.socket)
    ensures host.authMethod == AuthPassword && host.password == "" ==> r == Err(PasswordRequired)
    ensures host.authMethod == AuthPrivateKey && host.privateKey == "" ==> r == Err(PrivateKeyRequired)
    ensures host.authMethod == AuthPrivateKey && host.privateKey != "" && keyParse.PassphraseMissing? ==>
      r == Err(PassphraseRequired)
    ensures host.authMethod == AuthPrivateKey && host.privateKey != "" && keyParse.Unparsable? ==>
      r == Err(Wrap(KeyParseContext, Msg(keyParse.cause)))
    ensures host.authMethod == AuthAgent && SshAgentAuth(agent).Err? ==>
      r == Err(Wrap(AgentContext, SshAgentAuth(agent).error))
    ensures host.authMethod !in {AuthPassword, AuthPrivateKey, AuthAgent} ==>
      r == Err(UnsupportedAuthMethod(host.authMethod))
  {
    if host.authMethod == AuthPassword then
      if host.password == "" then Err(PasswordRequired)
      else Ok(ClientConfig(host.username, DialTimeoutSeconds, PasswordAuth(host.password)))
    else if host.authMethod == AuthPrivateKey then
      if host.privateKey == "" then Err(PrivateKeyRequired)
      else
        match keyParse
        case PassphraseMissing => Err(PassphraseRequired)
        case Unparsable(cause) => Err(Wrap(KeyParseContext, Msg(cause)))
        case Parsed(signer) => Ok(ClientConfig(host.username, DialTimeoutSeconds, PublicKeyAuth(signer)))
    else if host.authMethod == AuthAgent then
      match SshAgentAuth(agent)
      case Err(e) => Err(Wrap(AgentContext, e))
      case Ok(auth) => Ok(ClientConfig(host.username, DialTimeoutSeconds, auth))
    else
      Err(UnsupportedAuthMethod(host.authMethod))
  }

  /** A configuration error never carries the host-key verification signal. */
  lemma ConfigErrorIsNotVerification(host: Host, keyParse: KeyParse, agent: AgentAccess)
    requires BuildSSHConfig(host, keyParse, agent).Err?
    ensures AsHostKeyNeeded(BuildSSHConfig(host, keyParse, agent).error).None?
  {
    var e := BuildSSHConfig(host, keyParse, agent).error;
    if host.authMethod == AuthAgent {
      var inner := SshAgentAuth(agent).error;
      assert e == Wrap(AgentContext, inner);
      assert inner.Msg? || (inner.Wrap? && inner.cause.Msg?);
      assert AsHostKeyNeeded(e) == AsHostKeyNeeded(inner);
      if inner.Wrap? {
        assert AsHostKeyNeeded(inner) == AsHostKeyNeeded(inner.cause);
      }
    } else {
      assert e.Msg? || (e.Wrap? && e.cause.Msg?);
    }
  }
}
