/**
 * The host-key callback installed in every client configuration: the
 * three-way trust decision taken when the server presents its key.
 *
 * The key's rendering (type, SHA-256 fingerprint, authorized-keys text) and
 * the known_hosts lookup are library code outside this model; what they
 * report is given as input.
 */
module HostKeyCheck {
  import opened Outcomes
  import opened Models
  import opened GoText

  /** The server key as the library renders it: `Type()`, `FingerprintSHA256` and `MarshalAuthorizedKey`. */
  datatype PresentedKey = PresentedKey(algorithm: string, fingerprint: string, authorizedKey: string)

  /**
   * What checking ~/.ssh/known_hosts reports: the file could not be loaded;
   * the key is known and matches; a `KeyError` listing the keys the file
   * wants for that host; or any other error.
   */
  datatype KnownHostsLookup =
    | StoreUnavailable(cause: string)
    | KnownKey
    | KeyError(want: seq<string>)
    | OtherLookupError(cause: string)

  /**
   * The callback's verdict for the key presented for `hostname`: `None` lets
   * the handshake proceed; `Some(info)` is the verification-needed signal.
   * Only a matching known_hosts entry is accepted. Only a `KeyError` marks the
   * host as known; a missing home directory, an unloadable known_hosts file
   * or any other error marks it new.
   */
  function HostKeyDecision(hostname: string, key: PresentedKey, homeDirFound: bool, lookup: KnownHostsLookup)
    : (r: Option<HostKeyInfo>)
    ensures r.None? <==> homeDirFound && lookup.KnownKey?
    ensures r.Some? ==> (r.value.isNewHost <==> !(homeDirFound && lookup.KeyError?))
    ensures r.Some? ==> r.value.hostname == hostname && r.value.algorithm == key.algorithm
                        && r.value.fingerprint == key.fingerprint
                        && r.value.publicKey == TrimSpace(key.authorizedKey)
  {
    var isKnownHost := homeDirFound && lookup.KeyError?;
    if homeDirFound && lookup.KnownKey? then None
    else Some(HostKeyInfo(hostname, key.algorithm, key.fingerprint, TrimSpace(key.authorizedKey), !isKnownHost))
  }

  /**
   * As written, a host with no known_hosts line at all is reported as a known
   * host whose key changed: the known_hosts checker answers such a host with
   * a `KeyError` whose list of expected keys is empty, and every `KeyError`
   * counts as known.
   */
  lemma UnlistedHostReportedKnown(hostname: string, key: PresentedKey)
    ensures HostKeyDecision(hostname, key, true, KeyError([])).Some?
    ensures !HostKeyDecision(hostname, key, true, KeyError([])).value.isNewHost
  {
  }

  /**
   * The decision as the trust-on-first-use design intends it: a host is known
   * only when known_hosts lists some key for it that differs from the one
   * presented; a host it does not list is new.
   */
  function IntendedHostKeyDecision(hostname: string, key: PresentedKey, homeDirFound: bool, lookup: KnownHostsLookup)
    : (r: Option<HostKeyInfo>)
    ensures r.None? <==> homeDirFound && lookup.KnownKey?
    ensures r.Some? ==> r.value.hostname == hostname && r.value.algorithm == key.algorithm
                        && r.value.fingerprint == key.fingerprint
                        && r.value.publicKey == TrimSpace(key.authorizedKey)
  {
    var isKnownHost := homeDirFound && lookup.KeyError? && lookup.want != [];
    if homeDirFound && lookup.KnownKey? then None
    else Some(HostKeyInfo(hostname, key.algorithm, key.fingerprint, TrimSpace(key.authorizedKey), !isKnownHost))
  }

  /**
   * The three outcomes of the intended decision: a listed matching key is
   * accepted; a listed host presenting a different key is a changed key; a
   * host known_hosts does not list (or a file that cannot be read) is a
   * first contact.
   */
  lemma IntendedDecisionThreeWay(hostname: string, key: PresentedKey, homeDirFound: bool, lookup: KnownHostsLookup)
    ensures var r := IntendedHostKeyDecision(hostname, key, homeDirFound, lookup);
            && (r.None? <==> homeDirFound && lookup.KnownKey?)
            && (r.Some? && !r.value.isNewHost <==> homeDirFound && lookup.KeyError? && lookup.want != [])
            && (r.Some? && r.value.isNewHost <==>
                  !homeDirFound || lookup.StoreUnavailable? || lookup.OtherLookupError? || lookup == KeyError([]))
  {
  }

  /** The decision as written and the intended one differ exactly for a host known_hosts does not list. */
  lemma DecisionsDifferOnlyForUnlistedHost(hostname: string, key: PresentedKey, homeDirFound: bool, lookup: KnownHostsLookup)
    ensures HostKeyDecision(hostname, key, homeDirFound, lookup) != IntendedHostKeyDecision(hostname, key, homeDirFound, lookup)
            <==> homeDirFound && lookup == KeyError([])
  {
  }
}
