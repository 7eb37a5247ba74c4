/** The resilient listeners: subscribe, hand items over, checkpoint, drop, back off, subscribe again.
    What the network, the handler, the checkpoint store, the context and the operating system do is a script;
    a process may die at any point, which is also what the end of a script means. */
module Listener {
  import opened Wrappers
  import opened Ledger
  import opened Options
  import opened Errors

  /** How a session begins. */
  datatype Opening =
    | NoGateway(e: Error)
    | Refused(err: Failure)
    | Opened(height: nat)  // the peer has committed the blocks below `height`

  /** What becomes of an item once it reaches the handler. */
  datatype Fate =
    | Kept                                           // handled and checkpointed
    | HandlerFails(err: Failure)
    | DiesAfterHandling                              // the process is killed before the checkpoint
    | CheckpointFails(err: Failure, stored: bool)    // the store reports an error, whether or not it kept the position

  /** One turn of a listener's loop. `fates` meets the items in order; the stream ends when they run out. */
  datatype Session = Session(
    opening: Opening, fates: seq<Fate>, closedByGateway: bool, contextEnded: bool, wakes: bool)

  datatype Outcome =
    | Running
    | Killed
    | Failed(failure: Failure)      // a handler or checkpoint error that ended a session
    | Returned(err: GoError)

  /** An item the handler accepted, with what happened next. */
  datatype Entry = Entry(item: Item, fate: Fate)

  datatype Listener = Listener(
    position: Position, history: seq<Entry>, backoff: Duration, slept: seq<Duration>, outcome: Outcome)

  /** `atomic` handlers advance the position in the same transaction as their data; `refusal` classifies the
      error of a refused subscription. */
  datatype Config = Config(
    mode: Mode, atomic: bool, log: seq<Item>, from: Option<nat>, min: Duration, max: Duration, refusal: Failure -> Error)

  predicate Recorded(atomic: bool, fate: Fate) {
    atomic || fate.Kept? || (fate.CheckpointFails? && fate.stored)
  }

  function StreamClosedError(): Error {
    NewError(KindUnavailable, SourceNetwork, StreamClosed).(cause := Plain(StreamClosed.Text()))
  }

  /** A listener goes on after every error but those of four kinds, even after one it cannot read a kind from. */
  predicate Reconnectable(err: GoError) {
    var kind := KindOf(err);
    kind.None? || ReconnectableKind(kind.value)
  }

  predicate ReconnectableKind(kind: Kind) {
    match kind
    case KindConfig | KindUnauthorized | KindInvalidArgument | KindNotFound => false
    case _ => true
  }

  // ---- what a listener does, one step at a time ----

  /** What the peer serves to a subscription: from the checkpoint, else from the requested block, else whatever
      is committed next. */
  function Feed(mode: Mode, log: seq<Item>, from: Option<nat>, p: Position, height: nat): seq<Item> {
    if p.Positioned() then
      var start := Requested(mode, p);
      Serve(log, start.block, start.tx, start.tx != "")
    else if from.Some? then Serve(log, from.value, "", false)
    else Serve(log, height, "", false)
  }

  /** The position once the handler is done with an item: an atomic handler moved it with its data. */
  function HandlerWrites(cfg: Config, p: Position, item: Item): Position {
    if cfg.atomic then Mark(cfg.mode, item) else p
  }

  /** The position after the listener's own checkpoint, which a dead process never makes. */
  function ListenerWrites(cfg: Config, p: Position, item: Item, fate: Fate): Position {
    if fate.Kept? || (fate.CheckpointFails? && fate.stored) then Mark(cfg.mode, item) else p
  }

  function ItemStep(cfg: Config, s: Listener, item: Item, fate: Fate): Listener {
    if fate.HandlerFails? then s.(outcome := Failed(fate.err))
    else
      var position := ListenerWrites(cfg, HandlerWrites(cfg, s.position, item), item, fate);
      var s := s.(position := position, history := s.history + [Entry(item, fate)]);
      match fate
      case Kept => s.(backoff := cfg.min)
      case DiesAfterHandling => s.(outcome := Killed)
      case CheckpointFails(err, _) => s.(outcome := Failed(err))
      case HandlerFails(_) => s
  }

  function ItemSteps(cfg: Config, s: Listener, feed: seq<Item>, fates: seq<Fate>): Listener
    decreases |fates|
  {
    if feed == [] || fates == [] || !s.outcome.Running? then s
    else ItemSteps(cfg, ItemStep(cfg, s, feed[0], fates[0]), feed[1..], fates[1..])
  }

  function SessionItems(cfg: Config, s: Listener, session: Session): Listener {
    if session.opening.Opened? then
      ItemSteps(cfg, s, Feed(cfg.mode, cfg.log, cfg.from, s.position, session.opening.height), session.fates)
    else s
  }

  /** The error a session ends with when no item failed; a block stream just ends. */
  function SessionError(cfg: Config, session: Session): GoError {
    match session.opening
    case NoGateway(e) => Sdk(e)
    case Refused(err) => Sdk(cfg.refusal(err))
    case Opened(_) => if cfg.mode.Events? && session.closedByGateway then Sdk(StreamClosedError()) else Nil
  }

  /** The chaincode listener returns an item's error at once; the block listener looks at the context first. */
  function SessionStep(cfg: Config, s: Listener, session: Session): Listener {
    var s := SessionItems(cfg, s, session);
    var err := SessionError(cfg, session);
    if s.outcome.Killed? then s
    else if cfg.mode.Events? && s.outcome.Failed? then s.(outcome := Returned(s.outcome.failure))
    else if session.contextEnded then s.(outcome := Returned(Nil))
    else if s.outcome.Failed? then s.(outcome := Returned(s.outcome.failure))
    else if !err.Nil? && !Reconnectable(err) then s.(outcome := Returned(err))
    else
      var s := s.(slept := s.slept + [s.backoff]);
      if !session.wakes then s.(outcome := Returned(Nil)) else s.(backoff := NextBackoff(s.backoff, cfg.max))
  }

  function Run(cfg: Config, s: Listener, script: seq<Session>): Listener
    decreases |script|
  {
    if script == [] || !s.outcome.Running? then s else Run(cfg, SessionStep(cfg, s, script[0]), script[1..])
  }

  function Started(cfg: Config, p: Position): Listener {
    Listener(p, [], cfg.min, [], Running)
  }

  function ConfigOf(mode: Mode, atomic: bool, log: seq<Item>, o: EventOptions): Config {
    Config(mode, atomic, log, o.startBlock, o.minBackoff, o.maxBackoff, Refusal)
  }

  /** Subscriptions are classified strictly, as read-only calls without a transaction ID. */
  function Refusal(err: Failure): Error {
    Classified(err, "", PhaseEvaluate, Strict)
  }

  /** Returned a configuration error at once. */
  predicate NeverStarted(l: Listener) {
    && l.outcome.Returned? && l.outcome.err.Sdk? && l.outcome.err.e.kind == KindConfig && l.outcome.err.e.source == SourceSDK
    && l.history == [] && l.slept == []
  }

  // ---- the loop over a stream's items, shared by both listeners ----

  datatype SessionResult = Ended(err: GoError) | ItemFailed(failure: Failure) | Died

  method Checkpoint(cp: Checkpointer, mode: Mode, item: Item)
    modifies cp
    ensures cp.Value() == Mark(mode, item)
  {
    match mode {
      case Events => cp.CheckpointTransaction(item.block, item.tx);
      case Blocks => cp.CheckpointBlock(item.block);
    }
  }

  method HandleItems(cfg: Config, cp: Checkpointer, feed: seq<Item>, fates: seq<Fate>, backoff: Duration, history: seq<Entry>)
    returns (r: SessionResult, backoff': Duration, history': seq<Entry>)
    modifies cp
    ensures r.Ended? ==> r.err == Nil
    ensures forall slept ::
              ItemSteps(cfg, Listener(old(cp.Value()), history, backoff, slept, Running), feed, fates)
              == Listener(cp.Value(), history', backoff', slept,
                          match r case Died => Killed case ItemFailed(e) => Failed(e) case Ended(_) => Running)
  {
    backoff', history' := backoff, history;
    var j := 0;
    while j < |feed| && j < |fates|
      invariant j <= |feed| && j <= |fates|
      invariant forall slept ::
                  ItemSteps(cfg, Listener(old(cp.Value()), history, backoff, slept, Running), feed, fates)
                  == ItemSteps(cfg, Listener(cp.Value(), history', backoff', slept, Running), feed[j..], fates[j..])
    {
      var item, fate := feed[j], fates[j];
      assert feed[j..][1..] == feed[j + 1..] && fates[j..][1..] == fates[j + 1..];
      if fate.HandlerFails? {
        return ItemFailed(fate.err), backoff', history';
      }
      history' := history' + [Entry(item, fate)];
      if cfg.atomic {
        Checkpoint(cp, cfg.mode, item);
      }
      if fate.DiesAfterHandling? {
        return Died, backoff', history';
      }
      if fate.CheckpointFails? {
        if fate.stored {
          Checkpoint(cp, cfg.mode, item);
        }
        return ItemFailed(fate.err), backoff', history';
      }
      Checkpoint(cp, cfg.mode, item);
      backoff' := cfg.min;
      j := j + 1;
    }
    r := Ended(Nil);
  }

  // ---- the chaincode event listener ----

  /** One subscription: the options are resolved anew, and decide what the peer will serve. */
  method ChaincodeEvents(log: seq<Item>, chaincode: string, opts: seq<EventOption>, opening: Opening)
    returns (feed: seq<Item>, err: GoError)
    ensures err == match opening
                   case NoGateway(e) => Sdk(e)
                   case Refused(raw) => Sdk(Refusal(raw))
                   case Opened(_) => Nil
    ensures opening.Opened? ==>
              var o := Resolved(chaincode, opts);
              var p := if o.checkpoint == null then Position(0, "") else o.checkpoint.Value();
              feed == Feed(Events, log, o.startBlock, p, opening.height)
  {
    var o := ResolveOptions(chaincode, opts);
    feed, err := [], Nil;
    match opening {
      case NoGateway(e) =>
        err := Sdk(e);
      case Refused(raw) =>
        var e := Classify(raw, "", PhaseEvaluate, Strict);
        err := Sdk(e.value);
      case Opened(height) =>
        var p := Position(0, "");
        if o.checkpoint != null {
          p := o.checkpoint.Value();
        }
        feed := Feed(Events, log, o.startBlock, p, height);
    }
  }

  /** `log` is everything the peer will ever have committed, `script` all that happens around the listener;
      `handler` tells whether one was given, `atomic` whether it moves the checkpoint itself. */
  method ListenChaincodeEvents(
      log: seq<Item>, chaincode: string, cp: Checkpointer?, handler: bool, atomic: bool,
      opts: seq<EventOption>, script: seq<Session>)
    returns (l: Listener)
    modifies cp
    ensures cp == null || !handler ==> NeverStarted(l)
    ensures cp != null && !handler ==> cp.Value() == old(cp.Value())
    ensures cp != null && handler ==>
              var cfg := ConfigOf(Events, atomic, log, Resolved(chaincode, opts));
              l == Run(cfg, Started(cfg, old(cp.Value())), script) && cp.Value() == l.position
  {
    if cp == null || !handler {
      var e := ConfigError(Plain("ListenChaincodeEvents needs a checkpointer and a handler"));
      return Listener(Position(0, ""), [], SECOND, [], Returned(Sdk(e)));
    }
    var o := ResolveOptions(chaincode, opts);
    var cfg := ConfigOf(Events, atomic, log, o);
    ghost var start := Started(cfg, cp.Value());
    var sessionOpts := opts + [WithCheckpointer(cp)];
    ListenerCheckpointerWins(chaincode, opts, cp);
    var backoff, history, slept := o.minBackoff, [], [];
    for i := 0 to |script|
      invariant Run(cfg, start, script) == Run(cfg, Listener(cp.Value(), history, backoff, slept, Running), script[i..])
    {
      var session := script[i];
      assert script[i..][0] == session && script[i..][1..] == script[i + 1..];
      var feed, err := ChaincodeEvents(log, chaincode, sessionOpts, session.opening);
      if err.Nil? {
        var r;
        r, backoff, history := HandleItems(cfg, cp, feed, session.fates, backoff, history);
        if r.Died? {
          return Listener(cp.Value(), history, backoff, slept, Killed);
        }
        if r.ItemFailed? {
          return Listener(cp.Value(), history, backoff, slept, Returned(r.failure));
        }
        err := if session.closedByGateway then Sdk(StreamClosedError()) else Nil;
      }
      if session.contextEnded {
        return Listener(cp.Value(), history, backoff, slept, Returned(Nil));
      }
      if !err.Nil? && !Reconnectable(err) {
        return Listener(cp.Value(), history, backoff, slept, Returned(err));
      }
      slept := slept + [backoff];
      if !session.wakes {
        return Listener(cp.Value(), history, backoff, slept, Returned(Nil));
      }
      backoff := NextBackoff(backoff, o.maxBackoff);
    }
    return Listener(cp.Value(), history, backoff, slept, Running);
  }

  // ---- the block listener ----

  method BlockSession(cfg: Config, cp: Checkpointer, backoff: Duration, history: seq<Entry>, session: Session)
    returns (r: SessionResult, backoff': Duration, history': seq<Entry>)
    requires cfg.mode.Blocks? && cfg.refusal == Refusal
    modifies cp
    ensures r.Ended? ==> r.err == SessionError(cfg, session)
    ensures forall slept ::
              SessionItems(cfg, Listener(old(cp.Value()), history, backoff, slept, Running), session)
              == Listener(cp.Value(), history', backoff', slept,
                          match r case Died => Killed case ItemFailed(e) => Failed(e) case Ended(_) => Running)
  {
    backoff', history' := backoff, history;
    match session.opening {
      case NoGateway(e) =>
        r := Ended(Sdk(e));
      case Refused(err) =>
        var e := Classify(err, "", PhaseEvaluate, Strict);
        r := Ended(Sdk(e.value));
      case Opened(height) =>
        var feed := Feed(cfg.mode, cfg.log, cfg.from, cp.Value(), height);
        r, backoff', history' := HandleItems(cfg, cp, feed, session.fates, backoff, history);
    }
  }

  method ListenBlocks(
      log: seq<Item>, chaincode: string, cp: Checkpointer?, handler: bool, atomic: bool,
      opts: seq<EventOption>, script: seq<Session>)
    returns (l: Listener)
    modifies cp
    ensures cp == null || !handler ==> NeverStarted(l)
    ensures cp != null && !handler ==> cp.Value() == old(cp.Value())
    ensures cp != null && handler ==>
              var cfg := ConfigOf(Blocks, atomic, log, Resolved(chaincode, opts));
              l == Run(cfg, Started(cfg, old(cp.Value())), script) && cp.Value() == l.position
  {
    if cp == null || !handler {
      var e := ConfigError(Plain("ListenBlocks needs a checkpointer and a handler"));
      return Listener(Position(0, ""), [], SECOND, [], Returned(Sdk(e)));
    }
    var o := ResolveOptions(chaincode, opts);
    var cfg := ConfigOf(Blocks, atomic, log, o);
    ghost var start := Started(cfg, cp.Value());
    var backoff, history, slept := o.minBackoff, [], [];
    for i := 0 to |script|
      invariant Run(cfg, start, script) == Run(cfg, Listener(cp.Value(), history, backoff, slept, Running), script[i..])
    {
      var session := script[i];
      assert script[i..][0] == session && script[i..][1..] == script[i + 1..];
      var r;
      r, backoff, history := BlockSession(cfg, cp, backoff, history, session);
      if r.Died? {
        return Listener(cp.Value(), history, backoff, slept, Killed);
      }
      if session.contextEnded {
        return Listener(cp.Value(), history, backoff, slept, Returned(Nil));
      }
      if r.ItemFailed? {
        return Listener(cp.Value(), history, backoff, slept, Returned(r.failure));
      }
      if !r.err.Nil? && !Reconnectable(r.err) {
        return Listener(cp.Value(), history, backoff, slept, Returned(r.err));
      }
      slept := slept + [backoff];
      if !session.wakes {
        return Listener(cp.Value(), history, backoff, slept, Returned(Nil));
      }
      backoff := NextBackoff(backoff, o.maxBackoff);
    }
    return Listener(cp.Value(), history, backoff, slept, Running);
  }
}
