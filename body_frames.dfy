/**
 * What the body wrappers of orion-lib/src/body/body_with_metrics.rs see of
 * the `http_body` API: frames, poll outcomes, size hints, and the inner body
 * they decorate. The response-flag taxonomy and the body kind are external.
 */
module BodyFrames {
  import opened Wrappers

  const U64Modulus: int := 0x1_0000_0000_0000_0000

  newtype u64 = x: int | 0 <= x < U64Modulus

  newtype byte = x: int | 0 <= x < 256

  /** Which side of the exchange a body belongs to (a classification key only). */
  datatype BodyKind = RequestBody | ResponseBody

  /** The outcome classification; its taxonomy is not part of this model. */
  datatype ResponseFlags = ResponseFlags(bits: nat)

  /** `ResponseFlags::default()`: no error observed. */
  const DefaultFlags: ResponseFlags := ResponseFlags(0)

  /** A body frame: a chunk of payload or the trailing header block. */
  datatype Frame = Data(bytes: seq<byte>) | Trailers(fields: map<string, string>)

  /**
   * One result of `poll_frame`: `Ready(Some(Ok(frame)))`, `Ready(None)`,
   * `Ready(Some(Err(error)))` or `Pending`.
   */
  datatype Poll<E> = ReadyFrame(frame: Frame) | ReadyEnd | ReadyError(error: E) | Pending

  /** `http_body::SizeHint`: bounds on the bytes still to come. */
  datatype SizeHint = SizeHint(lower: nat, upper: Option<nat>)

  /**
   * One scripted poll of the inner body: its outcome, and the end-of-stream
   * flag and size hint the body reports right after it.
   */
  datatype Step<E> = Step(outcome: Poll<E>, endStreamAfter: bool, hintAfter: SizeHint)

  /** The outcome of the next poll; an exhausted body reports the end of the stream. */
  function NextOutcome<E>(script: seq<Step<E>>): Poll<E> {
    if script == [] then ReadyEnd else script[0].outcome
  }

  /** The steps left once the next poll is made. */
  function AfterOutcome<E>(script: seq<Step<E>>): seq<Step<E>> {
    if script == [] then [] else script[1..]
  }

  /** The end-of-stream flag after the next poll, given the current one. */
  function EndStreamAfter<E>(script: seq<Step<E>>, current: bool): bool {
    if script == [] then current else script[0].endStreamAfter
  }

  /** The size hint after the next poll, given the current one. */
  function HintAfter<E>(script: seq<Step<E>>, current: SizeHint): SizeHint {
    if script == [] then current else script[0].hintAfter
  }

  /**
   * The wrapped body `B`. Its polling is reduced to the steps it has yet to
   * take (`script`): each poll yields the step's outcome and moves the
   * end-of-stream flag and the size hint to the step's values, so the
   * environment decides how both evolve. An exhausted body reports the end
   * of the stream and keeps its flag and hint.
   */
  class InnerBody<E> {
    var script: seq<Step<E>>
    var endStream: bool
    var hint: SizeHint

    constructor (script: seq<Step<E>>, endStream: bool, hint: SizeHint)
      ensures this.script == script && this.endStream == endStream && this.hint == hint
    {
      this.script := script;
      this.endStream := endStream;
      this.hint := hint;
    }

    method PollFrame() returns (p: Poll<E>)
      modifies this
      ensures p == NextOutcome(old(script))
      ensures script == AfterOutcome(old(script))
      ensures endStream == EndStreamAfter(old(script), old(endStream))
      ensures hint == HintAfter(old(script), old(hint))
    {
      p := NextOutcome(script);
      endStream := EndStreamAfter(script, endStream);
      hint := HintAfter(script, hint);
      script := AfterOutcome(script);
    }
  }
}
