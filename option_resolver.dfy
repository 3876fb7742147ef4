/** The body of the `defaultedOptions` memo: post-processing of the defaulted options record
    under suspense and error-boundary mode. */
module OptionResolver {
  import opened QueryTypes

  /** Suspense or error-boundary mode while the boundary has not been reset: retry on mount is switched off. */
  predicate SuppressesRetry<O>(d: Options<O>, isReset: bool) {
    (d.suspense || d.useErrorBoundary.IsTruthy()) && !isReset
  }

  /** Suspense with a stale time that is not a number: the default stale time is injected. */
  predicate InjectsStaleTime<O>(d: Options<O>) {
    d.suspense && !d.staleTime.IsNumber()
  }

  /** Every field other than `_optimisticResults`, `staleTime` and `retryOnMount` agrees. */
  ghost predicate SameUntouchedFields<O>(d: Options<O>, r: Options<O>) {
    r.suspense == d.suspense && r.useErrorBoundary == d.useErrorBoundary && r.rest == d.rest
  }

  /** The effective options the memo returns for the defaulted record `d`. */
  function EffectiveOptions<O>(d: Options<O>, isReset: bool): (r: Options<O>)
    ensures r.optimisticResults == Optimistic
    ensures SameUntouchedFields(d, r)
    ensures !d.suspense || d.staleTime.IsNumber() ==> r.staleTime == d.staleTime
    ensures InjectsStaleTime(d) ==> r.staleTime == StaleMs(1000.0)
    ensures r.suspense ==> r.staleTime.IsNumber()
    ensures r.retryOnMount != d.retryOnMount ==> SuppressesRetry(d, isReset)
    ensures SuppressesRetry(d, isReset) ==> r.retryOnMount == Some(false)
    ensures isReset ==> r.retryOnMount == d.retryOnMount
  {
    d.(optimisticResults := Optimistic,
       staleTime := if InjectsStaleTime(d) then SuspenseStaleTime else d.staleTime,
       retryOnMount := if SuppressesRetry(d, isReset) then Some(false) else d.retryOnMount)
  }

  /** The memo body as written: a fresh record whose fields are overwritten one at a time. */
  method ResolveOptions<O>(defaulted: Options<O>, isReset: bool) returns (computed: Options<O>)
    ensures computed == EffectiveOptions(defaulted, isReset)
  {
    computed := defaulted;
    computed := computed.(optimisticResults := Optimistic);
    if computed.suspense {
      if !computed.staleTime.IsNumber() {
        computed := computed.(staleTime := SuspenseStaleTime);
      }
    }
    if computed.suspense || computed.useErrorBoundary.IsTruthy() {
      if !isReset {
        computed := computed.(retryOnMount := Some(false));
      }
    }
  }

  /** The records the memo returns unchanged: those that already obey every rule. */
  ghost predicate IsResolved<O>(o: Options<O>, isReset: bool) {
    o.optimisticResults == Optimistic
    && (o.suspense ==> o.staleTime.IsNumber())
    && (SuppressesRetry(o, isReset) ==> o.retryOnMount == Some(false))
  }

  lemma EffectiveFixedPoints<O>(o: Options<O>, isReset: bool)
    ensures EffectiveOptions(o, isReset) == o <==> IsResolved(o, isReset)
  {
  }

  lemma EffectiveIsResolved<O>(d: Options<O>, isReset: bool)
    ensures IsResolved(EffectiveOptions(d, isReset), isReset)
  {
  }

  /** Post-processing its own output with the same reset flag changes nothing. */
  lemma ResolveIdempotent<O>(d: Options<O>, isReset: bool)
    ensures EffectiveOptions(EffectiveOptions(d, isReset), isReset) == EffectiveOptions(d, isReset)
  {
    EffectiveIsResolved(d, isReset);
    EffectiveFixedPoints(EffectiveOptions(d, isReset), isReset);
  }
}
