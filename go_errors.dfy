/**
 * Go errors as the session code builds and inspects them: plain messages,
 * messages wrapping a cause (`fmt.Errorf("...: %w", cause)`), and the
 * structured `HostKeyVerificationNeeded` signal, which `errors.As` finds
 * anywhere along a chain of wrappings.
 */
module GoErrors {
  import opened Outcomes
  import opened Models

  datatype Error =
    | Msg(text: string)
    | Wrap(context: string, cause: Error)
    | HostKeyNeeded(info: HostKeyInfo)

  /** The error's `Error()` text: each wrapping context, then ": ", then its cause's text. */
  function Message(e: Error): string {
    match e
    case Msg(t) => t
    case Wrap(c, cause) => c + ": " + Message(cause)
    case HostKeyNeeded(info) => SignalText(info)
  }

  /** The `Error()` text of the verification signal, which names the host. */
  function SignalText(info: HostKeyInfo): string {
    "host key verification needed for " + info.hostname
  }

  predicate EndsWith(s: string, tail: string) {
    |tail| <= |s| && s[|s| - |tail|..] == tail
  }

  /** A text that ends with `tail` still does after a prefix is put before it. */
  lemma EndsWithAfterPrefix(prefix: string, s: string, tail: string)
    requires EndsWith(s, tail)
    ensures EndsWith(prefix + s, tail)
  {
    assert (prefix + s)[|prefix + s| - |tail|..] == s[|s| - |tail|..];
  }

  /** The innermost cause of a chain of wrappings. */
  function Root(e: Error): (r: Error)
    ensures !r.Wrap?
  {
    if e.Wrap? then Root(e.cause) else e
  }

  /**
   * `errors.As(e, &target)` with a `HostKeyVerificationNeeded` target: the
   * error itself is tried first, then each cause it wraps, in order. The
   * signal is found exactly when the innermost cause is one: wrapping
   * neither hides it nor invents it, however deep the chain.
   */
  function AsHostKeyNeeded(e: Error): (r: Option<HostKeyInfo>)
    ensures r.Some? <==> Root(e).HostKeyNeeded?
    ensures r.Some? ==> r.value == Root(e).info
  {
    match e
    case HostKeyNeeded(info) => Some(info)
    case Wrap(_, cause) => AsHostKeyNeeded(cause)
    case Msg(_) => None
  }

  /**
   * The text of an error that carries the verification signal ends with the
   * signal's own `Error()` text, whatever contexts wrap it.
   */
  lemma {:induction false} SignalTextEndsWithHost(e: Error)
    requires AsHostKeyNeeded(e).Some?
    ensures EndsWith(Message(e), SignalText(AsHostKeyNeeded(e).value))
  {
    match e
    case HostKeyNeeded(info) =>
      assert Message(e)[|Message(e)| - |SignalText(info)|..] == Message(e);
    case Wrap(context, cause) =>
      SignalTextEndsWithHost(cause);
      EndsWithAfterPrefix(context + ": ", Message(cause), SignalText(AsHostKeyNeeded(e).value));
  }

  /** One more layer of wrapping leaves what `errors.As` finds unchanged. */
  lemma AsHostKeyNeededSeesThroughWrap(context: string, e: Error)
    ensures AsHostKeyNeeded(Wrap(context, e)) == AsHostKeyNeeded(e)
  {
  }
}
