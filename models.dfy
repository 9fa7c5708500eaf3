/**
 * The records the session code consumes: a saved host (with its secrets already
 * decrypted, as the host registry hands it over) and the description of a
 * server key that awaits the user's decision.
 */
module Models {
  import opened Outcomes

  /** The three authentication method tags a host may carry; any other tag is rejected when connecting. */
  const AuthPassword: string := "password"
  const AuthPrivateKey: string := "private_key"
  const AuthAgent: string := "ssh_agent"

  /**
   * A saved host. `authMethod` is a free-form tag, as in the stored record;
   * `lastUsed` is the last successful connect time in milliseconds, if any.
   */
  datatype Host = Host(
    id: string,
    hostLabel: string,
    hostname: string,
    port: int,
    username: string,
    authMethod: string,
    password: string,
    privateKey: string,
    tags: seq<string>,
    lastUsed: Option<int>)

  /** What the user is shown about a server key that is not (or not yet) trusted. */
  datatype HostKeyInfo = HostKeyInfo(
    hostname: string,
    algorithm: string,
    fingerprint: string,
    publicKey: string,
    isNewHost: bool)
}
