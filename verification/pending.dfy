/** A pending transaction shared by goroutines that wait on it, release it and look it up, in any interleaving:
    `Wait` holds the mutex, `Release` does not, and both run the release function through one `sync.Once`. */
module Pending {
  import opened Wrappers
  import opened Errors
  import opened Contract
  import Classification

  /** Where the goroutine that holds the mutex stands. */
  datatype Waiter =
    | Free
    | Waiting
    | Answered(reply: StatusReply)
    | Settled(reply: StatusReply)   // past the call that releases

  /** `verdict` is what the ledger says once the transaction is committed; it never changes. */
  datatype State = State(
    verdict: Option<ValidationCode>, waiter: Waiter, done: bool, releases: nat,
    answers: seq<Result<TxResult, Error>>, lookups: seq<TxStatus>)

  datatype Event =
    | Commits(code: ValidationCode)
    | Locks
    | Answers(reply: StatusReply)
    | Settles
    | Returns
    | Releases
    | LooksUp(query: QueryReply)

  function Accepted(): State {
    State(None, Free, false, 0, [], [])
  }

  predicate Enabled(s: State, e: Event) {
    match e
    case Commits(_) => s.verdict.None?
    case Locks => s.waiter.Free?
    case Answers(reply) =>
      s.waiter.Waiting? && if reply.Committed? then s.verdict == Some(reply.code) else Classification.Fresh(reply.err)
    case Settles => s.waiter.Answered?
    case Returns => s.waiter.Settled?
    case Releases => true
    case LooksUp(query) => query.Processed? ==> s.verdict == Some(query.code)
  }

  /** `once.Do(release)`. */
  function Once(s: State): State {
    if s.done then s else s.(done := true, releases := s.releases + 1)
  }

  function Step(tx: string, payload: Bytes, s: State, e: Event): State
    requires Enabled(s, e)
  {
    match e
    case Commits(code) => s.(verdict := Some(code))
    case Locks => s.(waiter := Waiting)
    case Answers(reply) => s.(waiter := Answered(reply))
    case Settles => (if s.waiter.reply.Committed? then Once(s) else s).(waiter := Settled(s.waiter.reply))
    case Returns => s.(waiter := Free, answers := s.answers + [AfterStatus(tx, payload, s.waiter.reply)])
    case Releases => Once(s)
    case LooksUp(query) =>
      match AfterQuery(tx, query)
      case Failure(_) => s
      case Success(ts) => s.(lookups := s.lookups + [ts])
  }

  predicate Legal(tx: string, payload: Bytes, s: State, es: seq<Event>)
    decreases |es|
  {
    es == [] || (Enabled(s, es[0]) && Legal(tx, payload, Step(tx, payload, s, es[0]), es[1..]))
  }

  function Run(tx: string, payload: Bytes, s: State, es: seq<Event>): State
    requires Legal(tx, payload, s, es)
    decreases |es|
  {
    if es == [] then s else Run(tx, payload, Step(tx, payload, s, es[0]), es[1..])
  }

  /** A wait nobody interferes with does to the machine what the method's contract says. */
  lemma WaitIsARun(tx: string, payload: Bytes, s: State, reply: StatusReply)
    requires s.waiter.Free? && Enabled(s.(waiter := Waiting), Answers(reply))
    ensures var es := [Locks, Answers(reply), Settles, Returns];
            && Legal(tx, payload, s, es)
            && var s' := Run(tx, payload, s, es);
               && s'.answers == s.answers + [AfterStatus(tx, payload, reply)]
               && s'.done == (s.done || reply.Committed?) && s'.waiter.Free?
               && s'.releases == s.releases + if !s.done && s'.done then 1 else 0
  {
    var es := [Locks, Answers(reply), Settles, Returns];
    assert es[1..] == [Answers(reply), Settles, Returns] && es[1..][1..] == [Settles, Returns];
    assert es[1..][1..][1..] == [Returns] && [Returns][1..] == [];
    var s1 := Step(tx, payload, s, Locks);
    var s2 := Step(tx, payload, s1, Answers(reply));
    var s3 := Step(tx, payload, s2, Settles);
    var s4 := Step(tx, payload, s3, Returns);
    assert Legal(tx, payload, s4, []) && Run(tx, payload, s4, []) == s4;
    assert Legal(tx, payload, s3, [Returns]) && Run(tx, payload, s3, [Returns]) == s4;
    assert Legal(tx, payload, s2, [Settles, Returns]) && Run(tx, payload, s2, [Settles, Returns]) == s4;
  }

  /** An answer that settles the transaction. */
  predicate Definite(r: Result<TxResult, Error>) {
    r.Success? || !r.error.outcomeUnknown
  }

  predicate AnswerMatches(tx: string, payload: Bytes, verdict: Option<ValidationCode>, r: Result<TxResult, Error>) {
    match r
    case Success(result) => verdict == Some(VALID) && result.txID == tx && result.payload == payload
    case Failure(e) =>
      e.txID == tx && if e.outcomeUnknown then !e.Retryable() else e.validationCode != VALID && verdict == Some(e.validationCode)
  }

  predicate LookupMatches(tx: string, verdict: Option<ValidationCode>, ts: TxStatus) {
    ts.txID == tx && (ts.found ==> verdict == Some(ts.validationCode)) && (ts.valid <==> ts.found && ts.validationCode == VALID)
  }

  ghost predicate Inv(tx: string, payload: Bytes, s: State) {
    && s.releases == (if s.done then 1 else 0)
    && (s.waiter.Answered? || s.waiter.Settled? ==>
          if s.waiter.reply.Committed? then s.verdict == Some(s.waiter.reply.code) else Classification.Fresh(s.waiter.reply.err))
    && (s.waiter.Settled? && s.waiter.reply.Committed? ==> s.done)
    && (forall i :: 0 <= i < |s.answers| ==>
          AnswerMatches(tx, payload, s.verdict, s.answers[i]) && (Definite(s.answers[i]) ==> s.done))
    && (forall i :: 0 <= i < |s.lookups| ==> LookupMatches(tx, s.verdict, s.lookups[i]))
  }

  lemma ReplyMatches(tx: string, payload: Bytes, verdict: Option<ValidationCode>, reply: StatusReply)
    requires if reply.Committed? then verdict == Some(reply.code) else Classification.Fresh(reply.err)
    ensures AnswerMatches(tx, payload, verdict, AfterStatus(tx, payload, reply))
    ensures Definite(AfterStatus(tx, payload, reply)) <==> reply.Committed?
  {
    match reply
    case StatusFails(err) => Classification.RetryGuidance(err, tx, PhaseCommitStatus, Strict);
    case Committed(code, _) => Classification.CommitFailureGuidance(tx, code, Nil);
  }

  lemma StepKeepsInv(tx: string, payload: Bytes, s: State, e: Event)
    requires Inv(tx, payload, s) && Enabled(s, e)
    ensures Inv(tx, payload, Step(tx, payload, s, e))
  {
    if e.Returns? {
      ReplyMatches(tx, payload, s.verdict, s.waiter.reply);
    } else if e.Commits? {
      forall i | 0 <= i < |s.answers|
        ensures AnswerMatches(tx, payload, Some(e.code), s.answers[i])
      {
        assert AnswerMatches(tx, payload, None, s.answers[i]);
      }
    }
  }

  lemma {:induction false} RunKeepsInv(tx: string, payload: Bytes, s: State, es: seq<Event>)
    requires Inv(tx, payload, s) && Legal(tx, payload, s, es)
    ensures Inv(tx, payload, Run(tx, payload, s, es))
    decreases |es|
  {
    if es != [] {
      StepKeepsInv(tx, payload, s, es[0]);
      RunKeepsInv(tx, payload, Step(tx, payload, s, es[0]), es[1..]);
    }
  }

  /** Over every interleaving: the gateway is given back at most once, and has been by the time any wait returned
      a definite answer; after any number of unknown outcomes, all definite answers and all successful look-ups
      agree with one another and carry the transaction's ID. */
  lemma AnswersAgree(tx: string, payload: Bytes, es: seq<Event>, i: nat, j: nat, k: nat)
    requires Legal(tx, payload, Accepted(), es)
    ensures var s := Run(tx, payload, Accepted(), es);
            && s.releases <= 1
            && (i < |s.answers| && Definite(s.answers[i]) ==> s.releases == 1)
            && (i < |s.answers| && j < |s.answers| && Definite(s.answers[i]) && Definite(s.answers[j]) ==>
                  && (s.answers[i].Success? <==> s.answers[j].Success?)
                  && (s.answers[i].Failure? && s.answers[j].Failure? ==>
                        s.answers[i].error.validationCode == s.answers[j].error.validationCode))
            && (i < |s.answers| && k < |s.lookups| && Definite(s.answers[i]) && s.lookups[k].found ==>
                  && (s.answers[i].Success? <==> s.lookups[k].valid)
                  && (s.answers[i].Failure? ==> s.answers[i].error.validationCode == s.lookups[k].validationCode))
  {
    RunKeepsInv(tx, payload, Accepted(), es);
  }
}
