/** Who holds a gateway: calls in flight, pending transactions, event streams and block sessions, running
    concurrently on one client that may be closed under them. */
module Gateways {
  import opened Wrappers
  import Errors
  import Contract

  datatype Kind = Query | Submission | EventStream | BlockSession

  /** `Admitted` once the client was seen open, which does not keep it open; `InFlight` with a gateway, until the
      call returns (or the stream's goroutine ends); a submission that succeeds becomes `Kept` by its pending
      transaction; `done` is that transaction's `sync.Once`. `Refused` when connecting failed. */
  datatype Stage = Admitted | Refused | InFlight | Kept(done: bool) | Over

  /** `releases` counts how often the release function handed out with this gateway has run. */
  datatype Holder = Holder(kind: Kind, own: bool, stage: Stage, releases: nat)

  datatype State = State(
    holders: map<nat, Holder>, connected: nat, disconnected: nat, closed: bool, sharedCloses: nat)

  datatype Event =
    | Admits(id: nat, kind: Kind, own: bool)   // the test for a closed client
    | Connects(id: nat)
    | FailsToConnect(id: nat)    // only another identity's gateway is connected at all
    | Finishes(id: nat)          // a deferred release: every path of a call but a successful submission
    | Keeps(id: nat)             // a submission returns its pending transaction
    | WaitsDefinitely(id: nat)   // a wait on it learned the status
    | ReleasesPending(id: nat)
    | ClosesClient

  function New(): State {
    State(map[], 0, 0, false, 0)
  }

  predicate Enabled(s: State, e: Event) {
    match e
    case Admits(id, _, _) => id !in s.holders && !s.closed
    case Connects(id) => id in s.holders && s.holders[id].stage.Admitted?
    case FailsToConnect(id) => id in s.holders && s.holders[id].stage.Admitted? && s.holders[id].own
    case Finishes(id) => id in s.holders && s.holders[id].stage.InFlight?
    case Keeps(id) => id in s.holders && s.holders[id].stage.InFlight? && s.holders[id].kind.Submission?
    case WaitsDefinitely(id) => id in s.holders && s.holders[id].stage.Kept?
    case ReleasesPending(id) => id in s.holders && s.holders[id].stage.Kept?
    case ClosesClient => true
  }

  /** Runs the release function of a gateway: it disconnects one that was connected for this holder, and does
      nothing to the shared one. */
  function Released(s: State, id: nat, stage: Stage): State
    requires id in s.holders
  {
    var h := s.holders[id];
    s.(holders := s.holders[id := h.(stage := stage, releases := h.releases + 1)],
       disconnected := s.disconnected + if h.own then 1 else 0)
  }

  function Step(s: State, e: Event): State
    requires Enabled(s, e)
  {
    match e
    case Admits(id, kind, own) => s.(holders := s.holders[id := Holder(kind, own, Admitted, 0)])
    case Connects(id) =>
      s.(holders := s.holders[id := s.holders[id].(stage := InFlight)],
         connected := s.connected + if s.holders[id].own then 1 else 0)
    case FailsToConnect(id) => s.(holders := s.holders[id := s.holders[id].(stage := Refused)])
    case Finishes(id) => Released(s, id, Over)
    case Keeps(id) => s.(holders := s.holders[id := s.holders[id].(stage := Kept(false))])
    case WaitsDefinitely(id) => if s.holders[id].stage.done then s else Released(s, id, Kept(true))
    case ReleasesPending(id) => if s.holders[id].stage.done then s else Released(s, id, Kept(true))
    case ClosesClient => if s.closed then s else s.(closed := true, sharedCloses := s.sharedCloses + 1)
  }

  predicate Legal(s: State, es: seq<Event>)
    decreases |es|
  {
    es == [] || (Enabled(s, es[0]) && Legal(Step(s, es[0]), es[1..]))
  }

  function Run(s: State, es: seq<Event>): State
    requires Legal(s, es)
    decreases |es|
  {
    if es == [] then s else Run(Step(s, es[0]), es[1..])
  }

  /** Still entitled to a gateway. */
  predicate Holding(h: Holder) {
    h.stage.InFlight? || (h.stage.Kept? && !h.stage.done)
  }

  /** Through with a gateway it had. */
  predicate Through(h: Holder) {
    h.stage.Over? || (h.stage.Kept? && h.stage.done)
  }

  function Live(s: State): set<nat> {
    set id | id in s.holders && s.holders[id].own && Holding(s.holders[id])
  }

  ghost predicate Inv(s: State) {
    && s.connected == s.disconnected + |Live(s)|
    && s.sharedCloses == (if s.closed then 1 else 0)
    && forall id :: id in s.holders ==> s.holders[id].releases == if Through(s.holders[id]) then 1 else 0
  }

  lemma ReleaseKeepsInv(s: State, id: nat, stage: Stage)
    requires Inv(s) && id in s.holders && Holding(s.holders[id])
    requires stage == Over || stage == Kept(true)
    ensures Inv(Released(s, id, stage))
  {
    var s' := Released(s, id, stage);
    if s.holders[id].own {
      assert Live(s) == Live(s') + {id};
    } else {
      assert Live(s) == Live(s');
    }
  }

  lemma StepKeepsInv(s: State, e: Event)
    requires Inv(s) && Enabled(s, e)
    ensures Inv(Step(s, e))
  {
    var s' := Step(s, e);
    match e
    case Admits(_, _, _) => assert Live(s') == Live(s);
    case FailsToConnect(_) => assert Live(s') == Live(s);
    case Connects(id) =>
      if s.holders[id].own {
        assert Live(s') == Live(s) + {id};
      } else {
        assert Live(s') == Live(s);
      }
    case Finishes(id) => ReleaseKeepsInv(s, id, Over);
    case Keeps(id) => assert Live(s') == Live(s);
    case WaitsDefinitely(id) =>
      if !s.holders[id].stage.done {
        ReleaseKeepsInv(s, id, Kept(true));
      }
    case ReleasesPending(id) =>
      if !s.holders[id].stage.done {
        ReleaseKeepsInv(s, id, Kept(true));
      }
    case ClosesClient => assert Live(s') == Live(s);
  }

  lemma {:induction false} RunKeepsInv(s: State, es: seq<Event>)
    requires Inv(s) && Legal(s, es)
    ensures Inv(Run(s, es))
    decreases |es|
  {
    if es != [] {
      StepKeepsInv(s, es[0]);
      RunKeepsInv(Step(s, es[0]), es[1..]);
    }
  }

  /** The events of a submission that waits by itself. */
  function SubmissionEvents(id: nat, own: bool, ordered: bool, definite: bool): seq<Event> {
    [Admits(id, Submission, own), Connects(id)] +
    if !ordered then [Finishes(id)] else [Keeps(id)] + if definite then [WaitsDefinitely(id)] else []
  }

  lemma Uncons(s: State, e: Event, es: seq<Event>)
    requires Enabled(s, e) && Legal(Step(s, e), es)
    ensures Legal(s, [e] + es) && Run(s, [e] + es) == Run(Step(s, e), es)
  {
    assert ([e] + es)[1..] == es;
  }

  lemma Started(s: State, id: nat, own: bool, es: seq<Event>)
    requires id !in s.holders && !s.closed
    requires Legal(Step(Step(s, Admits(id, Submission, own)), Connects(id)), es)
    ensures Legal(s, [Admits(id, Submission, own), Connects(id)] + es)
    ensures Run(s, [Admits(id, Submission, own), Connects(id)] + es)
         == Run(Step(Step(s, Admits(id, Submission, own)), Connects(id)), es)
  {
    Uncons(Step(s, Admits(id, Submission, own)), Connects(id), es);
    Uncons(s, Admits(id, Submission, own), [Connects(id)] + es);
    assert [Admits(id, Submission, own), Connects(id)] + es == [Admits(id, Submission, own)] + ([Connects(id)] + es);
  }

  /** One `SubmitWith`, whatever its phases answered, is a run of the holders: it moves as many gateways as the
      method's contract says, and leaves its holder entitled to one exactly after an unconfirmed status. */
  lemma SubmitWithIsARun(s: State, id: nat, h: Contract.Handle, calls: Contract.Submission, status: Contract.StatusReply,
                         fallback: Errors.Fallback)
    requires id !in s.holders && !s.closed
    ensures var ordered := Contract.SubmitAsyncResult(Success(h), calls, fallback).Success?;
            var es := SubmissionEvents(id, h.Own?, ordered, status.Committed?);
            && Legal(s, es)
            && var s' := Run(s, es);
               && s'.connected == s.connected + (if h.Own? then 1 else 0)
               && s'.connected - s'.disconnected
                  == s.connected - s.disconnected + (if ordered && status.StatusFails? && h.Own? then 1 else 0)
               && id in s'.holders && (Holding(s'.holders[id]) <==> ordered && status.StatusFails?)
  {
    var s1 := Step(Step(s, Admits(id, Submission, h.Own?)), Connects(id));
    if Contract.SubmitAsyncResult(Success(h), calls, fallback).Success? {
      var s2 := Step(s1, Keeps(id));
      if status.Committed? {
        Uncons(s2, WaitsDefinitely(id), []);
        assert [WaitsDefinitely(id)] + [] == [WaitsDefinitely(id)];
      }
      var rest := if status.Committed? then [WaitsDefinitely(id)] else [];
      Uncons(s1, Keeps(id), rest);
      Started(s, id, h.Own?, [Keeps(id)] + rest);
    } else {
      Uncons(s1, Finishes(id), []);
      assert [Finishes(id)] + [] == [Finishes(id)];
      Started(s, id, h.Own?, [Finishes(id)]);
    }
  }

  /** Conservation: in every reachable state, gateways connected minus disconnected are exactly the holders that
      are in flight or kept by an unreleased pending transaction, even when the client is closed while a call
      connects; each release function has run exactly once if its holder is through with its gateway, and never
      otherwise; the shared gateway is closed by the client alone, once. */
  lemma GatewaysAreConserved(es: seq<Event>)
    requires Legal(New(), es)
    ensures var s := Run(New(), es);
            && s.connected - s.disconnected == |Live(s)|
            && (forall id :: id in s.holders ==>
                  s.holders[id].releases <= 1 && (s.holders[id].releases == 1 <==> Through(s.holders[id])))
            && s.sharedCloses == if ClosesClient in es then 1 else 0
  {
    assert Live(New()) == {};
    RunKeepsInv(New(), es);
    ClosedByClientOnly(New(), es);
  }

  lemma {:induction false} ClosedByClientOnly(s: State, es: seq<Event>)
    requires Legal(s, es)
    ensures Run(s, es).closed <==> s.closed || ClosesClient in es
    decreases |es|
  {
    if es != [] {
      ClosedByClientOnly(Step(s, es[0]), es[1..]);
      assert es == [es[0]] + es[1..];
    }
  }

  // ---- closing under a call ----

  /** A closed client admits nobody new; but a call that was admitted before may still connect a gateway, and
      then has to release it like any other. */
  lemma {:induction false} ClosedAdmitsNobody(s: State, es: seq<Event>)
    requires s.closed && Legal(s, es)
    ensures var s' := Run(s, es);
            s'.closed && s'.holders.Keys == s.holders.Keys && s'.connected <= s.connected + |Waiting(s)|
    decreases |es|
  {
    if es != [] {
      WaitingShrinks(s, es[0]);
      ClosedAdmitsNobody(Step(s, es[0]), es[1..]);
    }
  }

  /** Admitted, and to be given a gateway of its own. */
  function Waiting(s: State): set<nat> {
    set id | id in s.holders && s.holders[id].own && s.holders[id].stage.Admitted?
  }

  lemma WaitingShrinks(s: State, e: Event)
    requires s.closed && Enabled(s, e)
    ensures var s' := Step(s, e);
            && s'.closed && s'.holders.Keys == s.holders.Keys
            && s'.connected + |Waiting(s')| <= s.connected + |Waiting(s)|
  {
    var s' := Step(s, e);
    if e.Connects? && s.holders[e.id].own {
      assert Waiting(s) == Waiting(s') + {e.id};
    } else if e.FailsToConnect? {
      assert Waiting(s) == Waiting(s') + {e.id};
    } else {
      assert Waiting(s') == Waiting(s);
    }
  }

  /** That bound is reached from every state: whoever waits can be connected. */
  lemma {:induction false} EveryWaiterConnects(s: State) returns (es: seq<Event>)
    ensures Legal(s, es) && Run(s, es).connected == s.connected + |Waiting(s)|
    decreases |Waiting(s)|
  {
    es := [];
    if Waiting(s) != {} {
      var id :| id in Waiting(s);
      var s' := Step(s, Connects(id));
      assert Waiting(s) == Waiting(s') + {id};
      es := EveryWaiterConnects(s');
      Uncons(s, Connects(id), es);
      es := [Connects(id)] + es;
    }
  }

  /** Nothing is connected after `Close` exactly when no call was waiting for its gateway then. */
  lemma NothingConnectsExactlyWhenNobodyWaits(s: State)
    requires s.closed
    ensures (forall es :: Legal(s, es) ==> Run(s, es).connected == s.connected) <==> Waiting(s) == {}
  {
    if Waiting(s) == {} {
      forall es | Legal(s, es) ensures Run(s, es).connected == s.connected {
        ClosedAdmitsNobody(s, es);
        ConnectedGrows(s, es);
      }
    } else {
      var es := EveryWaiterConnects(s);
      assert |Waiting(s)| > 0;
    }
  }

  lemma {:induction false} ConnectedGrows(s: State, es: seq<Event>)
    requires Legal(s, es)
    ensures Run(s, es).connected >= s.connected
    decreases |es|
  {
    if es != [] {
      ConnectedGrows(Step(s, es[0]), es[1..]);
    }
  }

  /** Such a state can be reached: `Close` can come between the test and the connection. */
  lemma ConnectsAfterClose()
    ensures var es := [Admits(0, Query, true), ClosesClient, Connects(0)];
            && Legal(New(), es)
            && var s := Run(New(), es);
               s.closed && s.connected == 1 && s.disconnected == 0
  {
    var s1 := Step(New(), Admits(0, Query, true));
    var s2 := Step(s1, ClosesClient);
    var s3 := Step(s2, Connects(0));
    Uncons(s2, Connects(0), []);
    Uncons(s1, ClosesClient, [Connects(0)] + []);
    Uncons(New(), Admits(0, Query, true), [ClosesClient] + ([Connects(0)] + []));
    assert [Admits(0, Query, true)] + ([ClosesClient] + ([Connects(0)] + []))
        == [Admits(0, Query, true), ClosesClient, Connects(0)];
  }
}
