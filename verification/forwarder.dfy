/** One event stream: the goroutine between the Gateway's channel and the consumer, under every interleaving
    of the peer, the goroutine, the consumer, `Close` and cancellation. */
module Forwarder {
  import opened Wrappers
  import opened Errors
  import opened Listener

  /** What the Gateway library hands over. */
  datatype GatewayEvent = GatewayEvent(
    blockNumber: nat, transactionID: string, chaincodeName: string, eventName: string, payload: seq<bv8>)

  datatype ChaincodeEvent = ChaincodeEvent(
    blockNumber: nat, txID: string, chaincodeName: string, eventName: string, payload: seq<bv8>)

  function Converted(ev: GatewayEvent): ChaincodeEvent {
    ChaincodeEvent(ev.blockNumber, ev.transactionID, ev.chaincodeName, ev.eventName, ev.payload)
  }

  function ConvertedAll(evs: seq<GatewayEvent>): (r: seq<ChaincodeEvent>)
    ensures |r| == |evs| && forall i :: 0 <= i < |r| ==> r[i] == Converted(evs[i])
  {
    seq(|evs|, i requires 0 <= i < |evs| => Converted(evs[i]))
  }

  /** Where the goroutine stands: ranging over upstream, blocked in the select with an event in hand, looking at
      the two contexts after upstream ended, then leaving. */
  datatype PC =
    | Ranging
    | Selecting(ev: GatewayEvent)
    | CheckingContext
    | CheckingStream
    | SettingError
    | Stopping
    | ClosingChannel
    | Releasing
    | Exited

  /** `sent` is everything the peer pushed, of which `read` events were taken by the goroutine. The flags
      `contextSeenLive` and `streamSeenLive` record what the goroutine saw when upstream had ended. */
  datatype Stream = Stream(
    sent: seq<GatewayEvent>, upstreamClosed: bool, read: nat, pc: PC,
    delivered: seq<ChaincodeEvent>, closed: bool, err: Option<Error>, released: nat,
    contextEnded: bool, streamEnded: bool, contextSeenLive: bool, streamSeenLive: bool)

  datatype Event =
    | PeerSends(ev: GatewayEvent)
    | UpstreamEnds
    | ContextEnds           // the caller's context
    | Propagates            // ... which the stream's own context follows
    | ConsumerCloses        // EventStream.Close
    | Reads                 // the goroutine receives from upstream
    | RangeEnds
    | HandsOver             // the select picks the consumer
    | GivesUp               // the select picks the ended stream context
    | Leaves                // one step of the goroutine after its loop

  function Opened(): Stream {
    Stream([], false, 0, Ranging, [], false, None, 0, false, false, false, false)
  }

  predicate Enabled(s: Stream, e: Event) {
    match e
    case PeerSends(_) => !s.upstreamClosed
    case UpstreamEnds => !s.upstreamClosed
    case ContextEnds => true
    case Propagates => s.contextEnded
    case ConsumerCloses => true
    case Reads => s.pc.Ranging? && s.read < |s.sent|
    case RangeEnds => s.pc.Ranging? && s.read == |s.sent| && s.upstreamClosed
    case HandsOver => s.pc.Selecting?
    case GivesUp => s.pc.Selecting? && s.streamEnded
    case Leaves => s.pc in {CheckingContext, CheckingStream, SettingError, Stopping, ClosingChannel, Releasing}
  }

  /** One step of the goroutine after its loop, in the order of its deferred calls. */
  function LeaveStep(s: Stream): Stream {
    match s.pc
    case CheckingContext => s.(contextSeenLive := !s.contextEnded, pc := if s.contextEnded then Stopping else CheckingStream)
    case CheckingStream => s.(streamSeenLive := !s.streamEnded, pc := if s.streamEnded then Stopping else SettingError)
    case SettingError => s.(err := Some(StreamClosedError()), pc := Stopping)
    case Stopping => s.(streamEnded := true, pc := ClosingChannel)
    case ClosingChannel => s.(closed := true, pc := Releasing)
    case Releasing => s.(released := s.released + 1, pc := Exited)
    case _ => s
  }

  function Step(s: Stream, e: Event): Stream
    requires Enabled(s, e)
  {
    match e
    case PeerSends(ev) => s.(sent := s.sent + [ev])
    case UpstreamEnds => s.(upstreamClosed := true)
    case ContextEnds => s.(contextEnded := true)
    case Propagates => s.(streamEnded := true)
    case ConsumerCloses => s.(streamEnded := true)
    case Reads => s.(read := s.read + 1, pc := Selecting(s.sent[s.read]))
    case RangeEnds => s.(pc := CheckingContext)
    case HandsOver => s.(delivered := s.delivered + [Converted(s.pc.ev)], pc := Ranging)
    case GivesUp => s.(pc := ClosingChannel)
    case Leaves => LeaveStep(s)
  }

  predicate Legal(s: Stream, es: seq<Event>)
    decreases |es|
  {
    es == [] || (Enabled(s, es[0]) && Legal(Step(s, es[0]), es[1..]))
  }

  function After(s: Stream, es: seq<Event>): Stream
    requires Legal(s, es)
    decreases |es|
  {
    if es == [] then s else After(Step(s, es[0]), es[1..])
  }

  // ---- what every reachable state satisfies ----

  predicate Left(s: Stream) {
    s.pc in {ClosingChannel, Releasing, Exited}
  }

  ghost predicate Inv(s: Stream) {
    && s.read <= |s.sent|
    && |s.delivered| <= s.read <= |s.delivered| + 1
    && s.delivered == ConvertedAll(s.sent[..|s.delivered|])
    // an event in hand was read and not delivered; one is lost only by giving up
    && (s.pc.Selecting? ==> s.read == |s.delivered| + 1 && s.pc.ev == s.sent[s.read - 1])
    && (!s.pc.Selecting? && !Left(s) ==> s.read == |s.delivered|)
    && (s.read > |s.delivered| && !s.pc.Selecting? ==> s.streamEnded && !s.contextSeenLive)
    // after the loop, upstream was drained unless an event was given up
    && (s.pc in {CheckingContext, CheckingStream, SettingError, Stopping} ==> s.upstreamClosed && s.read == |s.sent|)
    && (Left(s) ==> s.streamEnded && (s.read > |s.delivered| || (s.upstreamClosed && s.read == |s.sent|)))
    // the error
    && (s.err.Some? ==> s.err == Some(StreamClosedError()) && s.contextSeenLive && s.streamSeenLive)
    && (s.contextSeenLive ==> s.pc !in {Ranging, CheckingContext} && !s.pc.Selecting?)
    && (s.streamSeenLive ==> s.contextSeenLive && s.pc != CheckingStream)
    && (s.pc == SettingError ==> s.err.None? && s.streamSeenLive)
    && (s.pc == CheckingStream ==> s.contextSeenLive)
    && (s.streamSeenLive && s.pc != SettingError ==> s.err.Some?)
    // closing and releasing
    && (s.closed <==> s.pc in {Releasing, Exited})
    && s.released == if s.pc == Exited then 1 else 0
  }

  lemma StepKeepsInv(s: Stream, e: Event)
    requires Inv(s) && Enabled(s, e)
    ensures Inv(Step(s, e))
  {
    var s' := Step(s, e);
    match e
    case PeerSends(ev) => assert s'.sent[..|s.delivered|] == s.sent[..|s.delivered|];
    case HandsOver => assert s.sent[..|s.delivered| + 1] == s.sent[..|s.delivered|] + [s.pc.ev];
    case _ =>
  }

  lemma {:induction false} ReachableInv(s: Stream, es: seq<Event>)
    requires Inv(s) && Legal(s, es)
    ensures Inv(After(s, es))
    decreases |es|
  {
    if es != [] {
      StepKeepsInv(s, es[0]);
      ReachableInv(Step(s, es[0]), es[1..]);
    }
  }

  /** Over every interleaving: the consumer gets a prefix of what the peer sent, converted field by field; at
      most one event that was read is lost, and only after the stream's context ended; the error is set exactly
      when upstream ended and both contexts were then seen live; the gateway is released at most once, and
      exactly once when the goroutine is gone. */
  lemma StreamContract(es: seq<Event>)
    requires Legal(Opened(), es)
    ensures var s := After(Opened(), es);
            && |s.delivered| <= s.read <= |s.sent| && s.delivered == ConvertedAll(s.sent[..|s.delivered|])
            && (forall i :: 0 <= i < |s.delivered| ==>
                  && s.delivered[i].blockNumber == s.sent[i].blockNumber && s.delivered[i].txID == s.sent[i].transactionID
                  && s.delivered[i].chaincodeName == s.sent[i].chaincodeName && s.delivered[i].eventName == s.sent[i].eventName
                  && s.delivered[i].payload == s.sent[i].payload)
            && s.read <= |s.delivered| + 1
            && (s.read > |s.delivered| && !s.pc.Selecting? ==> s.streamEnded)
            && (s.err.Some? ==> s.err == Some(StreamClosedError()))
            && (s.closed ==> (s.err == Some(StreamClosedError()) <==> s.contextSeenLive && s.streamSeenLive))
            && (s.err.Some? ==> s.upstreamClosed && |s.delivered| == s.read == |s.sent|)
            && s.released <= 1 && (s.released == 1 <==> s.pc == Exited) && (s.pc == Exited ==> s.closed)
  {
    assert Opened().sent[..0] == [];
    ReachableInv(Opened(), es);
  }

  /** What the consumer reads off that error: the network is unavailable, and the cause says why. */
  lemma ClosedStreamError()
    ensures var e := StreamClosedError();
            && e.kind == KindUnavailable && e.source == SourceNetwork && e.code == 503 && e.txID == ""
            && e.message.Text() == "event stream closed by the gateway" && e.cause == Plain("event stream closed by the gateway")
            && e.Retryable()
  {
  }

  /** Once the consumer sees the channel closed, nothing it can observe changes any more. */
  lemma {:induction false} FinalAfterClose(s: Stream, es: seq<Event>)
    requires Inv(s) && s.closed && Legal(s, es)
    ensures var s' := After(s, es); s'.closed && s'.err == s.err && s'.delivered == s.delivered
    decreases |es|
  {
    if es != [] {
      StepKeepsInv(s, es[0]);
      FinalAfterClose(Step(s, es[0]), es[1..]);
    }
  }

  /** Without `Close`, the stream's context ends only after the caller's, or by the goroutine's own hand. */
  predicate Quiet(s: Stream) {
    && (s.streamEnded && (s.pc == Ranging || s.pc.Selecting? || s.pc == CheckingContext || s.pc == CheckingStream) ==>
          s.contextEnded)
    && (s.err.None? && (s.pc == Stopping || Left(s)) ==> s.contextEnded)
  }

  lemma StepKeepsQuiet(s: Stream, e: Event)
    requires Quiet(s) && Enabled(s, e) && e != ConsumerCloses
    ensures Quiet(Step(s, e))
  {
  }

  lemma {:induction false} QuietThroughout(s: Stream, es: seq<Event>)
    requires Quiet(s) && Legal(s, es) && forall i :: 0 <= i < |es| ==> es[i] != ConsumerCloses
    ensures Quiet(After(s, es))
    decreases |es|
  {
    if es != [] {
      StepKeepsQuiet(s, es[0]);
      QuietThroughout(Step(s, es[0]), es[1..]);
    }
  }

  /** A stream nobody closed that ends without an error ended because the caller's context did: this is what
      lets a listener read a missing error as the end of its own context. */
  lemma EndWithoutErrorMeansContextEnded(es: seq<Event>)
    requires Legal(Opened(), es) && forall i :: 0 <= i < |es| ==> es[i] != ConsumerCloses
    ensures var s := After(Opened(), es); s.closed && s.err.None? ==> s.contextEnded
  {
    assert Opened().sent[..0] == [];
    ReachableInv(Opened(), es);
    QuietThroughout(Opened(), es);
  }

  // ---- the goroutine never leaks ----

  /** What the goroutine can do alone, once its context ended and the Gateway closed its channel. */
  function Next(s: Stream): Event {
    if s.pc.Ranging? then (if s.read < |s.sent| then Reads else RangeEnds)
    else if s.pc.Selecting? then GivesUp
    else Leaves
  }

  function StepsLeft(s: Stream): nat {
    match s.pc
    case Ranging => 7
    case CheckingContext => 6
    case CheckingStream => 5
    case SettingError => 4
    case Stopping | Selecting(_) => 3
    case ClosingChannel => 2
    case Releasing => 1
    case Exited => 0
  }

  predicate GoroutineMoves(e: Event) {
    e == Reads || e == RangeEnds || e == GivesUp || e == Leaves
  }

  predicate Orphaned(s: Stream) {
    s.streamEnded && s.upstreamClosed && s.read <= |s.sent|
  }

  lemma NextStep(s: Stream)
    requires Orphaned(s) && s.pc != Exited
    ensures Enabled(s, Next(s)) && GoroutineMoves(Next(s))
    ensures var s' := Step(s, Next(s));
            Orphaned(s') && StepsLeft(s') < StepsLeft(s) && s'.delivered == s.delivered
  {
  }

  function WayOut(s: Stream): (es: seq<Event>)
    requires Orphaned(s)
    ensures Legal(s, es) && |es| <= StepsLeft(s)
    decreases StepsLeft(s)
  {
    if s.pc == Exited then []
    else
      NextStep(s);
      [Next(s)] + WayOut(Step(s, Next(s)))
  }

  /** A consumer that stops reading costs nothing: after the stream's context ended and the Gateway closed its
      channel, the goroutine alone reaches its exit in at most seven steps, closes the channel and releases the
      gateway once, delivering nothing more. */
  lemma NoLeak(s: Stream)
    requires Inv(s) && Orphaned(s)
    ensures var s' := After(s, WayOut(s));
            && s'.pc == Exited && s'.closed && s'.released == 1 && s'.delivered == s.delivered
            && |WayOut(s)| <= 7 && forall i :: 0 <= i < |WayOut(s)| ==> GoroutineMoves(WayOut(s)[i])
  {
    ReachableInv(s, WayOut(s));
    WayOutEnds(s);
  }

  lemma {:induction false} WayOutEnds(s: Stream)
    requires Orphaned(s)
    ensures var s' := After(s, WayOut(s)); s'.pc == Exited && s'.delivered == s.delivered
    ensures forall i :: 0 <= i < |WayOut(s)| ==> GoroutineMoves(WayOut(s)[i])
    decreases StepsLeft(s)
  {
    if s.pc != Exited {
      NextStep(s);
      WayOutEnds(Step(s, Next(s)));
      assert WayOut(s)[1..] == WayOut(Step(s, Next(s)));
    }
  }
}
