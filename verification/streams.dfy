/** A stream as the listener's loop sees it: what the goroutine forwards is what a session hands over. */
module Streams {
  import opened Wrappers
  import opened Ledger
  import opened Errors
  import Listener
  import Forwarder

  function ItemOf(ev: Forwarder.GatewayEvent): Item {
    Item(ev.blockNumber, ev.transactionID)
  }

  function Sent(evs: seq<Forwarder.GatewayEvent>): (r: seq<Item>)
    ensures |r| == |evs| && forall i :: 0 <= i < |r| ==> r[i] == ItemOf(evs[i])
  {
    seq(|evs|, i requires 0 <= i < |evs| => ItemOf(evs[i]))
  }

  function Received(evs: seq<Forwarder.ChaincodeEvent>): (r: seq<Item>)
    ensures |r| == |evs| && forall i :: 0 <= i < |r| ==> r[i] == Item(evs[i].blockNumber, evs[i].txID)
  {
    seq(|evs|, i requires 0 <= i < |evs| => Item(evs[i].blockNumber, evs[i].txID))
  }

  /** The session a listener makes of a stream whose delivered items met these fates. */
  function SessionOf(s: Forwarder.Stream, height: nat, fates: seq<Listener.Fate>, wakes: bool): Listener.Session {
    Listener.Session(Listener.Opened(height), fates, s.err.Some?, s.contextEnded, wakes)
  }

  lemma {:induction false} OnlyMetItemsCount(cfg: Listener.Config, l: Listener.Listener,
                                             feed: seq<Item>, received: seq<Item>, fates: seq<Listener.Fate>)
    requires received <= feed && |fates| <= |received|
    ensures Listener.ItemSteps(cfg, l, received, fates) == Listener.ItemSteps(cfg, l, feed, fates)
    decreases |fates|
  {
    if fates != [] && l.outcome.Running? {
      OnlyMetItemsCount(cfg, Listener.ItemStep(cfg, l, feed[0], fates[0]), feed[1..], received[1..], fates[1..]);
    }
  }

  lemma ReceivedInOrder(es: seq<Forwarder.Event>, feed: seq<Item>)
    requires Forwarder.Legal(Forwarder.Opened(), es) && Sent(Forwarder.After(Forwarder.Opened(), es).sent) <= feed
    ensures Received(Forwarder.After(Forwarder.Opened(), es).delivered) <= feed
  {
    var s := Forwarder.After(Forwarder.Opened(), es);
    Forwarder.StreamContract(es);
    assert Received(s.delivered) == Sent(s.sent[..|s.delivered|]);
    assert Sent(s.sent[..|s.delivered|]) == Sent(s.sent)[..|s.delivered|];
  }

  /** Whatever peer, goroutine and contexts do, in any order: if the peer sends what a subscription is served, the
      consumer receives a prefix of it; handling what was received is handling the session's items; and a stream
      that ended by itself ended with the session's error, or with none and then the caller's context is over. */
  lemma StreamIsASession(cfg: Listener.Config, l: Listener.Listener, es: seq<Forwarder.Event>,
                         height: nat, fates: seq<Listener.Fate>, wakes: bool)
    requires cfg.mode.Events? && Forwarder.Legal(Forwarder.Opened(), es)
    requires var s := Forwarder.After(Forwarder.Opened(), es);
             && Sent(s.sent) <= Listener.Feed(cfg.mode, cfg.log, cfg.from, l.position, height)
             && |fates| <= |s.delivered|
    ensures var s := Forwarder.After(Forwarder.Opened(), es);
            var session := SessionOf(s, height, fates, wakes);
            && Received(s.delivered) <= Listener.Feed(cfg.mode, cfg.log, cfg.from, l.position, height)
            && Listener.ItemSteps(cfg, l, Received(s.delivered), fates) == Listener.SessionItems(cfg, l, session)
            && (s.closed && Forwarder.ConsumerCloses !in es ==>
                  && Listener.SessionError(cfg, session) == (if s.err.Some? then Sdk(s.err.value) else Nil)
                  && (s.err.None? ==> session.contextEnded))
  {
    var s := Forwarder.After(Forwarder.Opened(), es);
    var feed := Listener.Feed(cfg.mode, cfg.log, cfg.from, l.position, height);
    ReceivedInOrder(es, feed);
    OnlyMetItemsCount(cfg, l, feed, Received(s.delivered), fates);
    if s.closed && Forwarder.ConsumerCloses !in es {
      EndOfStream(cfg, es, height, fates, wakes);
    }
  }

  lemma EndOfStream(cfg: Listener.Config, es: seq<Forwarder.Event>, height: nat, fates: seq<Listener.Fate>, wakes: bool)
    requires cfg.mode.Events? && Forwarder.Legal(Forwarder.Opened(), es)
    requires Forwarder.After(Forwarder.Opened(), es).closed && Forwarder.ConsumerCloses !in es
    ensures var s := Forwarder.After(Forwarder.Opened(), es);
            var session := SessionOf(s, height, fates, wakes);
            && Listener.SessionError(cfg, session) == (if s.err.Some? then Sdk(s.err.value) else Nil)
            && (s.err.None? ==> session.contextEnded)
  {
    Forwarder.StreamContract(es);
    Forwarder.EndWithoutErrorMeansContextEnded(es);
  }
}
