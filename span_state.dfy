/**
 * The span lifecycle holder (orion-tracing/src/span_state.rs): a server and
 * a client span slot, each optional, ended together by `end`.
 */
module SpanStates {
  import opened Wrappers

  /** A tracing span; all that matters here is how often it was ended. */
  class Span {
    var endCount: nat

    constructor ()
      ensures endCount == 0
    {
      endCount := 0;
    }

    /** `Span::end`: marks the span finished and hands it to the exporter. */
    method End()
      modifies this
      ensures endCount == old(endCount) + 1
    {
      endCount := endCount + 1;
    }
  }

  /** The spans in a slot, as a sequence of zero or one. */
  function SlotSpans(slot: Option<Span>): seq<Span> {
    match slot
    case None => []
    case Some(s) => [s]
  }

  class SpanState {
    var serverSpan: Option<Span>
    var clientSpan: Option<Span>
    /** Every `Span::end` this holder has made, in order. */
    ghost var ended: seq<Span>

    /** The populated slots' spans. */
    ghost function Spans(): set<Span>
      reads this
    {
      (if serverSpan.Some? then {serverSpan.value} else {}) + (if clientSpan.Some? then {clientSpan.value} else {})
    }

    /** Each slot owns its span, so the two never hold the same one. */
    ghost predicate Valid()
      reads this
    {
      serverSpan.Some? && clientSpan.Some? ==> serverSpan.value != clientSpan.value
    }

    /** `new`: the given server span, an empty client slot. */
    constructor (serverSpan: Option<Span>)
      ensures Valid()
      ensures this.serverSpan == serverSpan && clientSpan == None && ended == []
    {
      this.serverSpan := serverSpan;
      clientSpan := None;
      ended := [];
    }

    /**
     * `end`: ends the server span, then the client span, each once if its
     * slot is populated. Neither slot is cleared.
     */
    method End()
      requires Valid()
      modifies this`ended, Spans()
      ensures Valid()
      ensures serverSpan == old(serverSpan) && clientSpan == old(clientSpan)
      ensures serverSpan.Some? ==> serverSpan.value.endCount == old(serverSpan.value.endCount) + 1
      ensures clientSpan.Some? ==> clientSpan.value.endCount == old(clientSpan.value.endCount) + 1
      ensures ended == old(ended) + SlotSpans(serverSpan) + SlotSpans(clientSpan)
    {
      if serverSpan.Some? {
        var span := serverSpan.value;
        span.End();
        ended := ended + [span];
      }
      if clientSpan.Some? {
        var span := clientSpan.value;
        span.End();
        ended := ended + [span];
      }
    }
  }

  /**
   * Both slots populated: one `end` ends each span once, server first; a
   * second `end` ends both again. Both slots empty: `end` changes nothing.
   */
  method EndScenarios()
  {
    var server := new Span();
    var client := new Span();
    var state := new SpanState(Some(server));
    state.clientSpan := Some(client);
    state.End();
    assert server.endCount == 1 && client.endCount == 1;
    assert state.ended == [server, client];
    state.End();
    assert server.endCount == 2 && client.endCount == 2;
    assert state.serverSpan == Some(server);

    var empty := new SpanState(None);
    empty.End();
    assert empty.ended == [] && server.endCount == 2 && client.endCount == 2;
  }
}
