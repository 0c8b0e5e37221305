/**
 * The `metrics_disabled` variant of `BodyWithMetrics`
 * (orion-lib/src/body/body_with_metrics.rs, built without the `access-log`
 * and `metrics` features): a passthrough with no counter, guard or callback.
 */
module MetricsDisabled {
  import opened BodyFrames

  class BodyWithMetrics<E> {
    var inner: InnerBody<E>

    /** `new`: the body kind and the completion callback are accepted and dropped. */
    constructor New(kind: BodyKind, inner: InnerBody<E>)
      ensures this.inner == inner
    {
      this.inner := inner;
    }

    /** The wrapper around an already converted inner body. */
    constructor Rewrap(inner: InnerBody<E>)
      ensures this.inner == inner
    {
      this.inner := inner;
    }

    /** `map_into`: re-wraps the converted inner body (`Into::into` is the caller's). */
    method MapInto(converted: InnerBody<E>) returns (b: BodyWithMetrics<E>)
      ensures fresh(b) && b.inner == converted
    {
      b := new BodyWithMetrics.Rewrap(converted);
    }

    /** Hands back exactly what the inner body produced. */
    method PollFrame() returns (p: Poll<E>)
      modifies inner
      ensures p == NextOutcome(old(inner.script))
      ensures inner.script == AfterOutcome(old(inner.script))
      ensures inner.endStream == EndStreamAfter(old(inner.script), old(inner.endStream))
      ensures inner.hint == HintAfter(old(inner.script), old(inner.hint))
    {
      p := inner.PollFrame();
    }

    function IsEndStream(): (r: bool)
      reads this, inner
      ensures r == inner.endStream
    {
      inner.endStream
    }

    function SizeHint(): (r: SizeHint)
      reads this, inner
      ensures r == inner.hint
    {
      inner.hint
    }
  }
}
