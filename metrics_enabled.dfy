/**
 * The `metrics_enabled` variant of `BodyWithMetrics`
 * (orion-lib/src/body/body_with_metrics.rs, built with the `access-log` or
 * `metrics` feature).
 *
 * A `MetricsState` is shared by the body wrapper and its `DropGuard`: a
 * wrapping 64-bit byte counter and a single-use completion slot. The
 * callback's invocations are recorded in a ghost log. The abstract value of
 * the state is a `Metrics`, and `Observe` / `Complete` say what one poll and
 * one trigger do to it; `Replay` folds `Observe` over a run of polls, and the
 * lemmas about it state the guarantees the wrapper gives over a whole stream.
 */
module MetricsEnabled {
  import opened Wrappers
  import opened BodyFrames

  /** One call of the completion callback: the bytes counted and the outcome. */
  datatype Invocation = Invocation(bytes: u64, flags: ResponseFlags)

  /**
   * The abstract value of a `MetricsState`: the counter, whether the slot
   * still holds the callback, and the calls made so far.
   */
  datatype Metrics = Metrics(counter: u64, armed: bool, fired: seq<Invocation>)

  /** The state `BodyWithMetrics::new` creates. */
  const Fresh: Metrics := Metrics(0, true, [])

  /** The callback is either still in its slot or has been called, once. */
  predicate SingleUse(m: Metrics) {
    |m.fired| + (if m.armed then 1 else 0) == 1
  }

  /** An unbounded byte total as the 64-bit counter holds it. */
  function Wrap(n: nat): u64 {
    (n % U64Modulus) as u64
  }

  /** `AtomicU64::fetch_add`, which wraps on overflow. */
  function FetchAdd(c: u64, n: nat): u64 {
    ((c as int + n) % U64Modulus) as u64
  }

  /** The bytes a poll outcome contributes: the length of a data frame. */
  function FrameBytes<E>(p: Poll<E>): nat {
    if p.ReadyFrame? && p.frame.Data? then |p.frame.bytes| else 0
  }

  /** The outcomes that end a stream and trigger completion. */
  predicate IsTerminal<E>(p: Poll<E>) {
    p.ReadyEnd? || p.ReadyError?
  }

  /** The classification a terminal outcome triggers completion with. */
  function FlagsOf<E>(p: Poll<E>, kind: BodyKind, classify: (E, BodyKind) -> ResponseFlags): ResponseFlags
    requires IsTerminal(p)
  {
    if p.ReadyError? then classify(p.error, kind) else DefaultFlags
  }

  /**
   * The abstract effect of one trigger: the callback, if still in its slot,
   * is called with the counter, and the slot is left empty.
   */
  function Complete(m: Metrics, flags: ResponseFlags): Metrics {
    if m.armed then Metrics(m.counter, false, m.fired + [Invocation(m.counter, flags)]) else m
  }

  /** What one `poll_frame` outcome does to the shared state. */
  function Observe<E>(m: Metrics, p: Poll<E>, kind: BodyKind, classify: (E, BodyKind) -> ResponseFlags): (r: Metrics)
    ensures r.counter as int == (m.counter as int + FrameBytes(p)) % U64Modulus
    ensures r.armed == (m.armed && !IsTerminal(p))
    ensures r.fired == if m.armed && IsTerminal(p) then m.fired + [Invocation(m.counter, FlagsOf(p, kind, classify))]
                       else m.fired
  {
    match p
    case ReadyFrame(frame) =>
      (match frame
       case Data(bytes) => m.(counter := FetchAdd(m.counter, |bytes|))
       case Trailers(_) => m)
    case ReadyEnd => Complete(m, DefaultFlags)
    case ReadyError(err) => Complete(m, classify(err, kind))
    case Pending => m
  }

  /** The state after the given polls, in order. */
  function Replay<E>(m: Metrics, ps: seq<Poll<E>>, kind: BodyKind, classify: (E, BodyKind) -> ResponseFlags): Metrics
  {
    if ps == [] then m
    else Observe(Replay(m, ps[..|ps| - 1], kind, classify), ps[|ps| - 1], kind, classify)
  }

  /** The total length of the data frames among the given polls. */
  function DataBytes<E>(ps: seq<Poll<E>>): nat {
    if ps == [] then 0 else DataBytes(ps[..|ps| - 1]) + FrameBytes(ps[|ps| - 1])
  }

  /** The position of the first end-of-stream or error outcome, if any. */
  function FirstTerminal<E>(ps: seq<Poll<E>>): (r: Option<nat>)
    ensures r.Some? ==> r.value < |ps| && IsTerminal(ps[r.value])
    ensures r.Some? ==> forall j :: 0 <= j < r.value ==> !IsTerminal(ps[j])
    ensures r.None? ==> forall j :: 0 <= j < |ps| ==> !IsTerminal(ps[j])
  {
    if ps == [] then None
    else
      match FirstTerminal(ps[..|ps| - 1])
      case Some(k) => Some(k)
      case None => if IsTerminal(ps[|ps| - 1]) then Some(|ps| - 1) else None
  }

  /** Adding to the wrapped counter is wrapping the unbounded total. */
  lemma WrapAdd(a: nat, n: nat)
    ensures FetchAdd(Wrap(a), n) == Wrap(a + n)
  {
  }

  /** Later triggers are no-ops: only the first one calls the callback. */
  lemma CompleteIsIdempotent(m: Metrics, first: ResponseFlags, later: ResponseFlags)
    ensures Complete(Complete(m, first), later) == Complete(m, first)
    ensures !Complete(m, first).armed
  {
  }

  /**
   * Whatever the polls, the callback stays single-use, and once it has
   * been called its log never changes again.
   */
  lemma {:induction false} ReplayKeepsSingleUse<E>(m: Metrics, ps: seq<Poll<E>>, kind: BodyKind,
                                                  classify: (E, BodyKind) -> ResponseFlags)
    requires SingleUse(m)
    ensures SingleUse(Replay(m, ps, kind, classify))
    ensures |Replay(m, ps, kind, classify).fired| <= 1
    ensures !m.armed ==> Replay(m, ps, kind, classify).fired == m.fired
  {
    if ps != [] {
      ReplayKeepsSingleUse(m, ps[..|ps| - 1], kind, classify);
    }
  }

  /**
   * A stream from `new` through the given polls: the counter holds the
   * data-frame total (modulo 2^64); the callback has fired iff an end or an
   * error was polled, and then exactly once, with the bytes of the data
   * frames polled before the first of them and that outcome's classification.
   */
  lemma {:induction false} ReplayFromFresh<E>(ps: seq<Poll<E>>, kind: BodyKind,
                                             classify: (E, BodyKind) -> ResponseFlags)
    ensures Replay(Fresh, ps, kind, classify).counter == Wrap(DataBytes(ps))
    ensures Replay(Fresh, ps, kind, classify).armed <==> FirstTerminal(ps).None?
    ensures Replay(Fresh, ps, kind, classify).fired ==
              match FirstTerminal(ps)
              case None => []
              case Some(k) => [Invocation(Wrap(DataBytes(ps[..k])), FlagsOf(ps[k], kind, classify))]
  {
    if ps != [] {
      var init, p := ps[..|ps| - 1], ps[|ps| - 1];
      ReplayFromFresh(init, kind, classify);
      WrapAdd(DataBytes(init), FrameBytes(p));
      match FirstTerminal(init)
      case Some(k) =>
        assert ps[..k] == init[..k];
      case None =>
    }
  }

  /**
   * Dropping the guard after any run of polls completes the stream: the
   * callback has then fired exactly once, with the default classification
   * and the whole data-frame total when no end or error came first.
   */
  lemma DropCompletesExactlyOnce<E>(ps: seq<Poll<E>>, kind: BodyKind, classify: (E, BodyKind) -> ResponseFlags)
    ensures |Complete(Replay(Fresh, ps, kind, classify), DefaultFlags).fired| == 1
    ensures !Complete(Replay(Fresh, ps, kind, classify), DefaultFlags).armed
    ensures FirstTerminal(ps).None? ==>
              Complete(Replay(Fresh, ps, kind, classify), DefaultFlags).fired == [Invocation(Wrap(DataBytes(ps)), DefaultFlags)]
    ensures FirstTerminal(ps).Some? ==>
              Complete(Replay(Fresh, ps, kind, classify), DefaultFlags).fired == Replay(Fresh, ps, kind, classify).fired
  {
    ReplayFromFresh(ps, kind, classify);
  }

  /** The state shared by a `BodyWithMetrics` and its `DropGuard`. */
  class MetricsState {
    const kind: BodyKind
    var bytesCounter: u64
    var onComplete: Option<()>
    ghost var fired: seq<Invocation>

    ghost function Snapshot(): Metrics
      reads this
    {
      Metrics(bytesCounter, onComplete.Some?, fired)
    }

    ghost predicate Valid()
      reads this
    {
      SingleUse(Snapshot())
    }

    constructor (kind: BodyKind)
      ensures this.kind == kind && Snapshot() == Fresh && Valid()
    {
      this.kind := kind;
      bytesCounter := 0;
      onComplete := Some(());
      fired := [];
    }
  }

  /** `trigger_on_complete`: take the callback out of its slot and, if it was there, call it. */
  method TriggerOnComplete(state: MetricsState, flags: ResponseFlags)
    requires state.Valid()
    modifies state
    ensures state.Valid()
    ensures state.Snapshot() == Complete(old(state.Snapshot()), flags)
  {
    var closure := state.onComplete;
    state.onComplete := None;
    if closure.Some? {
      var bytes := state.bytesCounter;
      state.fired := state.fired + [Invocation(bytes, flags)];
    }
  }

  /** The second owner of the state, which completes it when dropped. */
  class DropGuard {
    const state: MetricsState

    constructor (state: MetricsState)
      ensures this.state == state
    {
      this.state := state;
    }

    /** `Drop::drop`: completes with the default classification unless already completed. */
    method Drop()
      requires state.Valid()
      modifies state
      ensures state.Valid()
      ensures state.Snapshot() == Complete(old(state.Snapshot()), DefaultFlags)
    {
      TriggerOnComplete(state, DefaultFlags);
    }
  }

  /**
   * The instrumented body. `classify` is the external
   * `ResponseFlags::from((err, kind))`.
   */
  class BodyWithMetrics<E> {
    var inner: InnerBody<E>
    const state: MetricsState
    const guard: DropGuard
    const classify: (E, BodyKind) -> ResponseFlags

    ghost predicate Valid()
      reads this, state
    {
      guard.state == state && state.Valid()
    }

    /** `new`: a fresh state with an armed slot, shared with a fresh guard. */
    constructor New(kind: BodyKind, inner: InnerBody<E>, classify: (E, BodyKind) -> ResponseFlags)
      ensures Valid() && fresh(state) && fresh(guard)
      ensures this.inner == inner && this.classify == classify
      ensures state.kind == kind && state.Snapshot() == Fresh
    {
      this.inner := inner;
      var s := new MetricsState(kind);
      state := s;
      guard := new DropGuard(s);
      this.classify := classify;
    }

    /** The wrapper around a converted inner body, keeping the state and the guard. */
    constructor Rewrap(inner: InnerBody<E>, state: MetricsState, guard: DropGuard,
                       classify: (E, BodyKind) -> ResponseFlags)
      ensures this.inner == inner && this.state == state && this.guard == guard && this.classify == classify
    {
      this.inner := inner;
      this.state := state;
      this.guard := guard;
      this.classify := classify;
    }

    /** `map_into`: the same state and guard carried over to the converted inner body. */
    method MapInto(converted: InnerBody<E>) returns (b: BodyWithMetrics<E>)
      requires Valid()
      ensures fresh(b) && b.Valid()
      ensures b.inner == converted && b.state == state && b.guard == guard && b.classify == classify
    {
      b := new BodyWithMetrics.Rewrap(converted, state, guard, classify);
    }

    /**
     * `poll_frame`: polls the inner body, counts a data frame's bytes,
     * completes on end or error, and returns the inner outcome unchanged.
     */
    method PollFrame() returns (p: Poll<E>)
      requires Valid()
      modifies inner, state
      ensures Valid()
      ensures p == NextOutcome(old(inner.script))
      ensures inner.script == AfterOutcome(old(inner.script))
      ensures inner.endStream == EndStreamAfter(old(inner.script), old(inner.endStream))
      ensures inner.hint == HintAfter(old(inner.script), old(inner.hint))
      ensures state.Snapshot() == Observe(old(state.Snapshot()), p, state.kind, classify)
    {
      p := inner.PollFrame();
      match p {
        case ReadyFrame(frame) =>
          if frame.Data? {
            var size := |frame.bytes|;
            state.bytesCounter := FetchAdd(state.bytesCounter, size);
          }
        case ReadyEnd =>
          TriggerOnComplete(state, DefaultFlags);
        case ReadyError(err) =>
          var flags := classify(err, state.kind);
          TriggerOnComplete(state, flags);
        case Pending =>
      }
    }

    function IsEndStream(): (r: bool)
      reads this, inner
      ensures r == inner.endStream
    {
      inner.endStream
    }

    function SizeHint(): (r: SizeHint)
      reads this, inner
      ensures r == inner.hint
    {
      inner.hint
    }

    /** Dropping the wrapper drops its guard. */
    method Drop()
      requires Valid()
      modifies state
      ensures Valid()
      ensures state.Snapshot() == Complete(old(state.Snapshot()), DefaultFlags)
    {
      guard.Drop();
    }
  }

  /** A stream that ends: data, a pending poll, trailers, more data, then the end. */
  method EndedStreamScenario(classify: (int, BodyKind) -> ResponseFlags)
  {
    var inner := new InnerBody<int>([Step(ReadyFrame(Data([1, 2, 3])), false, SizeHint(2, Some(2))),
                                     Step(Pending, false, SizeHint(2, Some(2))),
                                     Step(ReadyFrame(Trailers(map[])), false, SizeHint(2, Some(2))),
                                     Step(ReadyFrame(Data([4, 5])), false, SizeHint(0, Some(0))),
                                     Step(ReadyEnd, true, SizeHint(0, Some(0)))],
                                    false, SizeHint(5, Some(5)));
    var body := new BodyWithMetrics.New(ResponseBody, inner, classify);
    var p := body.PollFrame();
    assert p == ReadyFrame(Data([1, 2, 3]));
    assert body.SizeHint() == SizeHint(2, Some(2));
    p := body.PollFrame();
    p := body.PollFrame();
    assert body.state.Snapshot() == Metrics(3, true, []);
    p := body.PollFrame();
    assert body.state.Snapshot() == Metrics(5, true, []);
    assert !body.IsEndStream();
    p := body.PollFrame();
    assert p == ReadyEnd && body.IsEndStream();
    body.Drop();
    assert body.state.fired == [Invocation(5, DefaultFlags)];
  }

  /** A stream that fails after one data frame. */
  method FailedStreamScenario(classify: (int, BodyKind) -> ResponseFlags)
  {
    var inner := new InnerBody<int>([Step(ReadyFrame(Data([7])), false, SizeHint(0, None)),
                                     Step(ReadyError(42), false, SizeHint(0, None))],
                                    false, SizeHint(0, None));
    var body := new BodyWithMetrics.New(RequestBody, inner, classify);
    var p := body.PollFrame();
    p := body.PollFrame();
    assert p == ReadyError(42);
    body.Drop();
    assert body.state.fired == [Invocation(1, classify(42, RequestBody))];
  }

  /** A stream abandoned after one data frame, through a mapped wrapper. */
  method AbandonedStreamScenario(classify: (int, BodyKind) -> ResponseFlags)
  {
    var inner := new InnerBody<int>([Step(ReadyFrame(Data([8, 9])), false, SizeHint(1, Some(1)))],
                                    false, SizeHint(3, Some(3)));
    var body := new BodyWithMetrics.New(ResponseBody, inner, classify);
    var p := body.PollFrame();
    var converted := new InnerBody<int>([Step(ReadyFrame(Data([10])), false, SizeHint(0, Some(0)))],
                                        false, SizeHint(1, Some(1)));
    var mapped := body.MapInto(converted);
    p := mapped.PollFrame();
    mapped.Drop();
    assert mapped.state.fired == [Invocation(3, DefaultFlags)];
    // `map_into` consumes the original wrapper in the source; dropping it
    // again here stands for a second owner of the same state, such as a
    // cloned `DropGuard`, and is a no-op.
    body.Drop();
    assert body.state.fired == [Invocation(3, DefaultFlags)];
  }
}
