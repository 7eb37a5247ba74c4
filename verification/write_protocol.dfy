/** A client that writes by the SDK's guidance: submit under a fresh transaction ID, resubmit only while the error
    is retryable, and settle an unknown outcome by looking the transaction up. The orderer, the ledger and the
    replies are nondeterministic; a broadcast may be ordered long after its reply was lost. */
module WriteProtocol {
  import opened Wrappers
  import opened Errors
  import opened Contract
  import Text
  import Classification

  datatype Block = Block(tx: string, code: ValidationCode)

  datatype Client =
    | Idle
    | Endorsing(tx: string)
    | Submitting(tx: string)
    | Committing(tx: string)
    | Unsure(e: Error, pending: bool)  // the outcome is unknown; a pending transaction can be awaited again
    | Done(tx: string)
    | Stopped(e: Error)                // an error that is not retryable

  /** `wire` holds broadcasts that may still be ordered, `chain` what was ordered, with its immutable verdict;
      the queried peer has committed the first `height` of it. */
  datatype State = State(client: Client, used: set<string>, wire: set<string>, chain: seq<Block>, height: nat)

  /** What the client does about an unknown outcome. */
  datatype Policy =
    | AwaitOnly          // await the commit status again, look nothing up
    | Reconcile          // look the transaction up; resend only when it is found invalid
    | ResendWhenAbsent   // look the transaction up; resend also when it is not found

  /** What is assumed of the errors the library returns: those of a broadcast, and those of a wait, were not
      classified before; a rejection by the orderer means that nothing was ordered or will be. Nothing is assumed
      of the errors of an endorsement. */
  datatype Setting = Setting(
    policy: Policy, freshAtSubmit: bool, freshAtCommit: bool, rejectionsDefinite: bool, fallback: Fallback)

  datatype Event =
    | Begin(tx: string)
    | Endorsed(endorsed: CallReply)
    | Submitted(submitted: SubmitReply)
    | StatusReplied(status: StatusReply)
    | QueryReplied(query: QueryReply)
    | Order(tx: string, code: ValidationCode)
    | PeerCommits

  function Start(): State {
    State(Idle, {}, {}, [], 0)
  }

  predicate Recorded(blocks: seq<Block>, tx: string, code: ValidationCode) {
    Block(tx, code) in blocks
  }

  /** Whether an event can happen: the client takes the steps its state allows, and an answer is truthful about
      the chain, but may come late, be an error instead, or not come at all. */
  predicate Enabled(m: Setting, s: State, e: Event) {
    match e
    case Begin(tx) => s.client.Idle? && tx !in s.used
    case Endorsed(_) => s.client.Endorsing?
    case Submitted(reply) =>
      && s.client.Submitting?
      && (reply.SubmitFails? && m.freshAtSubmit ==> Classification.Fresh(reply.err))
      && (reply.SubmitFails? && Rejects(m, reply.err) ==> s.client.tx in s.wire)
    case StatusReplied(reply) =>
      && (s.client.Committing? || (s.client.Unsure? && s.client.pending))
      && (match reply
          case StatusFails(err) => m.freshAtCommit ==> Classification.Fresh(err)
          case Committed(code, _) => Recorded(s.chain, Subject(s.client), code))
    case QueryReplied(reply) =>
      && s.client.Unsure? && !m.policy.AwaitOnly?
      && (match reply
          case QueryFails(err) => true
          case Garbled(_) => true
          case Processed(code) => s.height <= |s.chain| && Recorded(s.chain[..s.height], Subject(s.client), code))
    case Order(tx, _) => tx in s.wire
    case PeerCommits => s.height < |s.chain|
  }

  /** The transaction a client is concerned with, as its error tells when the call has already returned. */
  function Subject(c: Client): string {
    match c
    case Endorsing(tx) => tx
    case Submitting(tx) => tx
    case Committing(tx) => tx
    case Done(tx) => tx
    case Unsure(e, _) => e.txID
    case Stopped(e) => e.txID
    case Idle => ""
  }

  /** An orderer's refusal that keeps the transaction out of the chain for good. */
  predicate Rejects(m: Setting, err: Failure) {
    m.rejectionsDefinite && (err.Rpc? || err.Plain?) && IsRejection(Convert(err).code)
  }

  /** What the guidance says to do with a failed call. */
  function After(e: Error, pending: bool): Client {
    if e.outcomeUnknown then Unsure(e, pending) else if e.Retryable() then Idle else Stopped(e)
  }

  function Step(m: Setting, s: State, e: Event): State
    requires Enabled(m, s, e)
  {
    match e
    case Begin(tx) => s.(client := Endorsing(tx), used := s.used + {tx})
    case Endorsed(reply) =>
      (match AfterEndorse(s.client.tx, reply, m.fallback)
       case Failure(err) => s.(client := After(err, false))
       case Success(_) => s.(client := Submitting(s.client.tx), wire := s.wire + {s.client.tx}))
    case Submitted(reply) =>
      (match AfterSubmit(s.client.tx, reply, m.fallback)
       case Some(err) => s.(client := After(err, false), wire := if Rejects(m, reply.err) then s.wire - {s.client.tx} else s.wire)
       case None => s.(client := Committing(s.client.tx)))
    case StatusReplied(reply) =>
      (match AfterStatus(Subject(s.client), [], reply)
       case Failure(err) => s.(client := After(err, true))
       case Success(r) => s.(client := Done(r.txID)))
    case QueryReplied(reply) =>
      (match AfterQuery(Subject(s.client), reply)
       case Failure(_) => s
       case Success(ts) =>
         if ts.found && ts.valid then s.(client := Done(ts.txID))
         else if ts.found || m.policy.ResendWhenAbsent? then s.(client := Idle)
         else s)
    case Order(tx, code) => s.(wire := s.wire - {tx}, chain := s.chain + [Block(tx, code)])
    case PeerCommits => s.(height := s.height + 1)
  }

  predicate Legal(m: Setting, s: State, es: seq<Event>)
    decreases |es|
  {
    es == [] || (Enabled(m, s, es[0]) && Legal(m, Step(m, s, es[0]), es[1..]))
  }

  function Run(m: Setting, s: State, es: seq<Event>): State
    requires Legal(m, s, es)
    decreases |es|
  {
    if es == [] then s else Run(m, Step(m, s, es[0]), es[1..])
  }

  // ---- safety ----

  ghost predicate AtMostOneValid(s: State) {
    forall i, j :: 0 <= i < j < |s.chain| ==> s.chain[i].code != VALID || s.chain[j].code != VALID
  }

  /** No transaction but possibly `tx` was, or still can be, applied. */
  ghost predicate Only(s: State, tx: string) {
    && s.wire <= {tx}
    && forall i :: 0 <= i < |s.chain| && s.chain[i].code == VALID ==> s.chain[i].tx == tx
  }

  ghost predicate NothingApplied(s: State) {
    && s.wire == {}
    && forall i :: 0 <= i < |s.chain| ==> s.chain[i].code != VALID
  }

  ghost predicate OncePerChain(s: State) {
    && (forall tx :: tx in s.wire ==> tx in s.used)
    && (forall i :: 0 <= i < |s.chain| ==> s.chain[i].tx in s.used && s.chain[i].tx !in s.wire)
    && (forall i, j :: 0 <= i < j < |s.chain| ==> s.chain[i].tx != s.chain[j].tx)
  }

  ghost predicate Inv(s: State) {
    && s.height <= |s.chain|
    && OncePerChain(s)
    && match s.client
       case Idle => NothingApplied(s)
       case Endorsing(tx) => NothingApplied(s) && tx in s.used && forall i :: 0 <= i < |s.chain| ==> s.chain[i].tx != tx
       case Submitting(tx) => Only(s, tx)
       case Committing(tx) => Only(s, tx)
       case Unsure(e, _) => Only(s, e.txID) && e.outcomeUnknown
       case Done(tx) => Only(s, tx) && Recorded(s.chain, tx, VALID)
       case Stopped(e) => NothingApplied(s) && !e.outcomeUnknown && !e.Retryable()
  }

  predicate Sound(m: Setting) {
    !m.policy.ResendWhenAbsent? && m.freshAtSubmit && m.freshAtCommit && m.rejectionsDefinite
  }

  lemma OrderKeepsInv(s: State, tx: string, code: ValidationCode)
    requires Inv(s) && tx in s.wire
    ensures Inv(s.(wire := s.wire - {tx}, chain := s.chain + [Block(tx, code)]))
  {
  }

  /** A transaction found invalid is settled: it has left the wire, and nothing else was on it. */
  lemma FoundInvalid(s: State, tx: string, code: ValidationCode)
    requires OncePerChain(s) && Only(s, tx) && Recorded(s.chain, tx, code) && code != VALID
    ensures NothingApplied(s)
  {
    var i :| 0 <= i < |s.chain| && s.chain[i] == Block(tx, code);
    assert s.chain[i].tx == tx;
  }

  lemma FoundEarlier(blocks: seq<Block>, height: nat, tx: string, code: ValidationCode)
    requires height <= |blocks| && Recorded(blocks[..height], tx, code)
    ensures Recorded(blocks, tx, code)
  {
  }

  lemma RejectionLeavesNothing(s: State, tx: string)
    requires OncePerChain(s) && Only(s, tx) && tx in s.wire
    ensures NothingApplied(s.(wire := s.wire - {tx}))
  {
  }

  lemma SubmitReplyKeepsInv(m: Setting, s: State, reply: SubmitReply)
    requires Sound(m) && Inv(s) && Enabled(m, s, Submitted(reply))
    ensures Inv(Step(m, s, Submitted(reply)))
  {
    if reply.SubmitFails? {
      Classification.RetryGuidance(reply.err, s.client.tx, PhaseSubmit, m.fallback);
      if Rejects(m, reply.err) {
        RejectionLeavesNothing(s, s.client.tx);
      }
    }
  }

  lemma StatusFailureKeepsInv(m: Setting, s: State, err: Failure)
    requires Sound(m) && Inv(s) && Enabled(m, s, StatusReplied(StatusFails(err)))
    ensures Inv(Step(m, s, StatusReplied(StatusFails(err))))
  {
    Classification.RetryGuidance(err, Subject(s.client), PhaseCommitStatus, Strict);
  }

  lemma CommitKeepsInv(m: Setting, s: State, code: ValidationCode, blockNumber: nat)
    requires Sound(m) && Inv(s) && Enabled(m, s, StatusReplied(Committed(code, blockNumber)))
    ensures Inv(Step(m, s, StatusReplied(Committed(code, blockNumber))))
  {
    var tx := Subject(s.client);
    if code != VALID {
      Classification.CommitFailureGuidance(tx, code, Nil);
      FoundInvalid(s, tx, code);
    }
  }

  lemma QueryReplyKeepsInv(m: Setting, s: State, reply: QueryReply)
    requires Sound(m) && Inv(s) && Enabled(m, s, QueryReplied(reply))
    ensures Inv(Step(m, s, QueryReplied(reply)))
  {
    if reply.Processed? {
      FoundEarlier(s.chain, s.height, Subject(s.client), reply.code);
      if reply.code != VALID {
        FoundInvalid(s, Subject(s.client), reply.code);
      }
    }
  }

  lemma StepKeepsInv(m: Setting, s: State, e: Event)
    requires Sound(m) && Inv(s) && Enabled(m, s, e)
    ensures Inv(Step(m, s, e))
  {
    match e
    case Begin(_) =>
    case Endorsed(_) =>
    case Submitted(reply) => SubmitReplyKeepsInv(m, s, reply);
    case StatusReplied(StatusFails(err)) => StatusFailureKeepsInv(m, s, err);
    case StatusReplied(Committed(code, blockNumber)) => CommitKeepsInv(m, s, code, blockNumber);
    case QueryReplied(reply) => QueryReplyKeepsInv(m, s, reply);
    case Order(tx, code) => OrderKeepsInv(s, tx, code);
    case PeerCommits =>
  }

  lemma {:induction false} RunKeepsInv(m: Setting, s: State, es: seq<Event>)
    requires Sound(m) && Inv(s) && Legal(m, s, es)
    ensures Inv(Run(m, s, es))
    decreases |es|
  {
    if es != [] {
      StepKeepsInv(m, s, es[0]);
      RunKeepsInv(m, Step(m, s, es[0]), es[1..]);
    }
  }

  /** Obeying the guidance, over any number of attempts and any behaviour of the network: at most one attempt is
      ever applied; success means exactly the reported one is, and nothing more can be; an unknown outcome means
      that only the transaction its error names was, or still can be; a definite failure means none was or can be. */
  lemma GuidanceIsSafe(m: Setting, es: seq<Event>)
    requires Sound(m) && Legal(m, Start(), es)
    ensures var s := Run(m, Start(), es);
            && AtMostOneValid(s)
            && (s.client.Done? ==> Recorded(s.chain, s.client.tx, VALID) && Only(s, s.client.tx) && s.wire == {})
            && (s.client.Unsure? ==> Only(s, s.client.e.txID))
            && (s.client.Stopped? ==> NothingApplied(s))
  {
    RunKeepsInv(m, Start(), es);
    var s := Run(m, Start(), es);
    AppliedOnce(s);
  }

  lemma AppliedOnce(s: State)
    requires Inv(s)
    ensures AtMostOneValid(s) && (s.client.Done? ==> s.wire == {})
  {
    forall i, j | 0 <= i < j < |s.chain| ensures s.chain[i].code != VALID || s.chain[j].code != VALID {
      assert s.chain[i].tx != s.chain[j].tx;
    }
    if s.client.Done? {
      var i :| 0 <= i < |s.chain| && s.chain[i] == Block(s.client.tx, VALID);
      assert s.chain[i].tx !in s.wire;
    }
  }

  // ---- a call is a run ----

  /** The steps of one `SubmitWith`, as far as its replies let it get. */
  function CallEvents(tx: string, endorse: CallReply, submit: SubmitReply, status: StatusReply): seq<Event> {
    var await := if submit.SubmitFails? then [] else [StatusReplied(status)] + [];
    var broadcast := if endorse.CallFails? then [] else [Submitted(submit)] + await;
    [Begin(tx)] + ([Endorsed(endorse)] + broadcast)
  }

  lemma Uncons(m: Setting, s: State, e: Event, es: seq<Event>)
    requires Legal(m, s, [e] + es)
    ensures Enabled(m, s, e) && Legal(m, Step(m, s, e), es) && Run(m, s, [e] + es) == Run(m, Step(m, s, e), es)
  {
    assert ([e] + es)[1..] == es && ([e] + es)[0] == e;
  }

  /** The client's state after a call is what the call's result says. */
  function Settled(r: Result<TxResult, Error>, awaited: bool): Client {
    match r
    case Success(result) => Done(result.txID)
    case Failure(e) => After(e, awaited)
  }

  /** One `SubmitWith` is one attempt of the protocol: whatever it returns is what the client then acts on. */
  lemma SubmitWithIsAnAttempt(m: Setting, s: State, h: Handle, tx: string,
                              endorse: CallReply, submit: SubmitReply, status: StatusReply)
    requires s.client.Idle? && Legal(m, s, CallEvents(tx, endorse, submit, status))
    ensures var ordered := SubmitAsyncResult(Success(h), Submission(None, Proposed(tx), endorse, submit), m.fallback);
            var r := if ordered.Failure? then Failure(ordered.error)
                     else AfterStatus(ordered.value.0, ordered.value.1, status);
            var client := Run(m, s, CallEvents(tx, endorse, submit, status)).client;
            && client == Settled(r, ordered.Success?)
            && (client.Done? <==> r.Success?) && (r.Success? ==> client.tx == r.value.txID)
            && (client.Idle? <==> r.Failure? && r.error.Retryable())
            && (client.Unsure? <==> r.Failure? && r.error.outcomeUnknown)
            && (client.Stopped? <==> r.Failure? && !r.error.Retryable() && !r.error.outcomeUnknown)
  {
    var await := if submit.SubmitFails? then [] else [StatusReplied(status)] + [];
    var broadcast := if endorse.CallFails? then [] else [Submitted(submit)] + await;
    Uncons(m, s, Begin(tx), [Endorsed(endorse)] + broadcast);
    var s1 := Step(m, s, Begin(tx));
    Uncons(m, s1, Endorsed(endorse), broadcast);
    var s2 := Step(m, s1, Endorsed(endorse));
    if endorse.CallReturns? {
      Uncons(m, s2, Submitted(submit), await);
      var s3 := Step(m, s2, Submitted(submit));
      if submit.Accepted? {
        Uncons(m, s3, StatusReplied(status), []);
      }
    }
  }

  /** What a look-up settles: a transaction found valid is done, one found invalid may be sent again; not found
      settles nothing, unless the client takes it for "not ordered". */
  lemma LookUpSettles(m: Setting, s: State, reply: QueryReply)
    requires Enabled(m, s, QueryReplied(reply))
    ensures var s' := Step(m, s, QueryReplied(reply));
            match reply
            case Processed(code) => s' == s.(client := if code == VALID then Done(Subject(s.client)) else Idle)
            case QueryFails(err) =>
              s' == if Reported(err, "no such transaction ID") && m.policy == ResendWhenAbsent then s.(client := Idle) else s
            case Garbled(_) => s' == s
  {
    if reply.QueryFails? {
      MentionedMeansReported(reply.err, NO_SUCH_TX);
    }
  }

  // ---- an open outcome needs a broadcast ----

  predicate FreshEndorsement(e: Event) {
    e.Endorsed? && e.endorsed.CallFails? ==> Classification.Fresh(e.endorsed.err)
  }

  /** As long as nothing was broadcast, no outcome is open: with fresh endorsement errors, a client is unsure only on
      a run on which a broadcast was answered. */
  lemma UnsureNeedsBroadcast(m: Setting, es: seq<Event>)
    requires Legal(m, Start(), es) && forall i :: 0 <= i < |es| ==> FreshEndorsement(es[i])
    requires Run(m, Start(), es).client.Unsure?
    ensures exists i :: 0 <= i < |es| && es[i].Submitted?
  {
    if forall i :: 0 <= i < |es| ==> !es[i].Submitted? {
      SureBeforeBroadcast(m, Start(), es);
    }
  }

  predicate Sure(c: Client) {
    c.Idle? || c.Endorsing? || c.Submitting? || c.Stopped?
  }

  lemma {:induction false} SureBeforeBroadcast(m: Setting, s: State, es: seq<Event>)
    requires Legal(m, s, es) && Sure(s.client)
    requires forall i :: 0 <= i < |es| ==> FreshEndorsement(es[i]) && !es[i].Submitted?
    ensures Sure(Run(m, s, es).client)
    decreases |es|
  {
    if es != [] {
      assert FreshEndorsement(es[0]);
      StaysSure(m, s, es[0]);
      SureBeforeBroadcast(m, Step(m, s, es[0]), es[1..]);
    }
  }

  lemma StaysSure(m: Setting, s: State, e: Event)
    requires Enabled(m, s, e) && Sure(s.client) && FreshEndorsement(e) && !e.Submitted?
    ensures Sure(Step(m, s, e).client)
  {
    if e.Endorsed? && e.endorsed.CallFails? {
      Classification.RetryGuidance(e.endorsed.err, s.client.tx, PhaseEndorse, m.fallback);
    }
  }

  // ---- every assumption is needed ----

  lemma Cons(m: Setting, s: State, e: Event, es: seq<Event>)
    requires Enabled(m, s, e) && Legal(m, Step(m, s, e), es)
    ensures Legal(m, s, [e] + es) && Run(m, s, [e] + es) == Run(m, Step(m, s, e), es)
  {
    assert ([e] + es)[1..] == es;
  }

  /** A client that is free to resubmit while "a" may still be ordered. */
  function Premature(): State {
    State(Idle, {"a"}, {"a"}, [], 0)
  }

  /** From there, both attempts can be applied. */
  lemma BothApplied(m: Setting) returns (es: seq<Event>)
    ensures Legal(m, Premature(), es) && !AtMostOneValid(Run(m, Premature(), es))
  {
    var s0 := Premature();
    var s1 := Step(m, s0, Begin("b"));
    var s2 := Step(m, s1, Endorsed(CallReturns([])));
    assert s2.wire == {"a", "b"};
    var s3 := Step(m, s2, Order("a", VALID));
    var s4 := Step(m, s3, Order("b", VALID));
    assert s4.chain == [Block("a", VALID), Block("b", VALID)];
    Cons(m, s3, Order("b", VALID), []);
    Cons(m, s2, Order("a", VALID), [Order("b", VALID)]);
    es := [Order("a", VALID)] + ([Order("b", VALID)] + []);
    assert es == [Order("a", VALID)] + [Order("b", VALID)];
    Cons(m, s1, Endorsed(CallReturns([])), es);
    es := [Endorsed(CallReturns([]))] + es;
    Cons(m, s0, Begin("b"), es);
    es := [Begin("b")] + es;
    assert s4.chain[0].code == VALID && s4.chain[1].code == VALID;
  }

  /** "a" was broadcast and its submit call is about to return. */
  function Broadcast(): State {
    State(Submitting("a"), {"a"}, {"a"}, [], 0)
  }

  lemma FromStart(m: Setting, es: seq<Event>) returns (all: seq<Event>)
    requires Legal(m, Broadcast(), es)
    ensures Legal(m, Start(), all) && Run(m, Start(), all) == Run(m, Broadcast(), es)
  {
    var s1 := Step(m, Start(), Begin("a"));
    assert s1.used == {"a"};
    assert Step(m, s1, Endorsed(CallReturns([]))) == Broadcast();
    Cons(m, s1, Endorsed(CallReturns([])), es);
    Cons(m, Start(), Begin("a"), [Endorsed(CallReturns([]))] + es);
    all := [Begin("a")] + ([Endorsed(CallReturns([]))] + es);
  }

  function Lost(code: Code): Failure {
    Rpc(Status(code, "", []), false, false, "")
  }

  /** Without one of the assumptions, the client resubmits while its first attempt may still be ordered: it takes
      a silent peer for an answer, or an error classified elsewhere (of its broadcast or of its wait), or a
      rejection that was none. */
  lemma ResubmitsTooEarly(m: Setting) returns (es: seq<Event>)
    requires !Sound(m)
    ensures Legal(m, Broadcast(), es) && Run(m, Broadcast(), es) == Premature()
  {
    if m.policy.ResendWhenAbsent? {
      var first := Submitted(SubmitFails(Lost(Unavailable)));
      var second := QueryReplied(QueryFails(Plain(NO_SUCH_TX)));
      LostReply(m);
      var s1 := Step(m, Broadcast(), first);
      NotFoundIsMentioned();
      assert Step(m, s1, second) == Premature();
      Cons(m, s1, second, []);
      Cons(m, Broadcast(), first, [second] + []);
      es := [first] + ([second] + []);
    } else if !m.freshAtCommit {
      var first, second := Submitted(Accepted), StatusReplied(StatusFails(Foreign()));
      var s1 := Step(m, Broadcast(), first);
      assert Step(m, s1, second) == Premature();
      Cons(m, s1, second, []);
      Cons(m, Broadcast(), first, [second] + []);
      es := [first] + ([second] + []);
    } else {
      var err := MisleadingError(m);
      var e := Submitted(SubmitFails(err));
      Cons(m, Broadcast(), e, []);
      es := [e] + [];
    }
  }

  /** An error that was classified elsewhere, as one of a call that never left. */
  function Foreign(): Failure {
    Sdk(NewError(KindUnavailable, SourceNetwork, Verbatim("")))
  }

  lemma LostReply(m: Setting)
    ensures var e := Submitted(SubmitFails(Lost(Unavailable)));
            && Enabled(m, Broadcast(), e)
            && var s := Step(m, Broadcast(), e);
               s.client.Unsure? && s == Broadcast().(client := s.client)
  {
    Classification.RetryGuidance(Lost(Unavailable), "a", PhaseSubmit, m.fallback);
  }

  lemma MisleadingError(m: Setting) returns (err: Failure)
    requires !m.freshAtSubmit || !m.rejectionsDefinite
    ensures var e := Submitted(SubmitFails(err)); Enabled(m, Broadcast(), e) && Step(m, Broadcast(), e) == Premature()
  {
    if !m.freshAtSubmit {
      err := Foreign();
    } else {
      err := Lost(Aborted);
      Classification.RetryGuidance(err, "a", PhaseSubmit, m.fallback);
    }
  }

  lemma NotFoundIsMentioned()
    ensures Mentions(Plain(NO_SUCH_TX), NO_SUCH_TX)
  {
    Text.ContainsInContext("", NO_SUCH_TX, "", NO_SUCH_TX);
  }

  lemma {:induction false} Joined(m: Setting, s: State, es: seq<Event>, more: seq<Event>)
    requires Legal(m, s, es) && Legal(m, Run(m, s, es), more)
    ensures Legal(m, s, es + more) && Run(m, s, es + more) == Run(m, Run(m, s, es), more)
    decreases |es|
  {
    if es == [] {
      assert es + more == more;
    } else {
      Joined(m, Step(m, s, es[0]), es[1..], more);
      assert (es + more)[1..] == es[1..] + more;
    }
  }

  ghost predicate Safe(m: Setting) {
    forall es :: Legal(m, Start(), es) ==> AtMostOneValid(Run(m, Start(), es))
  }

  /** At most one attempt is applied on every run exactly when the client does not read "not found" as "not
      ordered" and all three assumptions about the library's errors hold. */
  lemma SafeExactlyWhenSound(m: Setting)
    ensures Safe(m) <==> Sound(m)
  {
    if Sound(m) {
      forall es | Legal(m, Start(), es) ensures AtMostOneValid(Run(m, Start(), es)) {
        GuidanceIsSafe(m, es);
      }
    } else {
      var early := ResubmitsTooEarly(m);
      var both := BothApplied(m);
      Joined(m, Broadcast(), early, both);
      var es := FromStart(m, early + both);
      assert Legal(m, Start(), es) && !AtMostOneValid(Run(m, Start(), es));
    }
  }
}
