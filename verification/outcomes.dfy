/** How every session of a run ends, in terms of what peer, handler and context did. */
module Outcomes {
  import opened Wrappers
  import opened Options
  import opened Errors
  import opened Listener
  import Classification
  import Delivery

  /** The kinds that say the request itself is wrong. */
  predicate SaysNo(k: Kind) {
    k == KindConfig || k == KindUnauthorized || k == KindInvalidArgument || k == KindNotFound
  }

  /** The subscription was denied, not merely interrupted: no gateway for it, one of four status codes, or a coded
      text that says so. */
  predicate Denied(opening: Opening) {
    match opening
    case Opened(_) => false
    case NoGateway(e) => SaysNo(e.kind)
    case Refused(err) =>
      if err.Sdk? then SaysNo(err.e.kind) else !err.Commit? && DeniedByStatus(Convert(err).code, CodedIn(Classification.Texts(err)))
  }

  predicate DeniedByStatus(code: Code, coded: Option<Error>) {
    || code == InvalidArgument || code == PermissionDenied || code == Unauthenticated || code == NotFound
    || ((code == Aborted || code == Unknown) && coded.Some?
        && (coded.value.kind == KindInvalidArgument || coded.value.kind == KindUnauthorized || coded.value.kind == KindNotFound))
  }

  /** What the caller is told then. */
  function Denial(opening: Opening): GoError {
    match opening
    case Opened(_) => Nil
    case NoGateway(e) => Sdk(e)
    case Refused(err) => Sdk(Classified(err, "", PhaseEvaluate, Strict))
  }

  lemma DeniedOpening(cfg: Config, session: Session)
    requires cfg.refusal == Refusal
    ensures Denied(session.opening) <==> !SessionError(cfg, session).Nil? && !Reconnectable(SessionError(cfg, session))
    ensures Denied(session.opening) ==> SessionError(cfg, session) == Denial(session.opening)
  {
    match session.opening
    case Opened(_) => Delivery.ClosedStreamIsReconnectable(cfg, session);
    case NoGateway(_) =>
    case Refused(err) => DeniedRefusal(err);
  }

  lemma DeniedRefusal(err: Failure)
    ensures Denied(Refused(err)) <==> !Reconnectable(Sdk(Refusal(err)))
  {
    if Classification.Fresh(err) {
      Delivery.GivesUpExactlyOn(err);
      Classification.CodedIsChaincode(Classification.Texts(err));
    }
  }

  lemma RunEndsOrGoesOn(cfg: Config, s: Listener, script: seq<Session>, n: nat)
    requires n < |script| && Run(cfg, s, script[..n]).outcome == Running
    ensures var s' := SessionStep(cfg, Run(cfg, s, script[..n]), script[n]);
            && Run(cfg, s, script[..n + 1]) == s'
            && (!s'.outcome.Running? ==> Run(cfg, s, script) == s')
  {
    Delivery.RunSplits(cfg, s, script, n);
    assert script[n..][0] == script[n];
    Delivery.RunSplits(cfg, s, script[..n + 1], n);
    assert script[..n + 1][..n] == script[..n] && script[..n + 1][n..] == [script[n]];
    assert [script[n]][1..] == [];
  }

  /** Every session whose items went well, at any point of any run: an ended context ends the run with nil; else a
      denied subscription ends it with that very error, without another sleep or another item; else the listener
      sleeps once, a sleep cut short ends the run with nil, and otherwise the run goes on with the next delay. */
  lemma SessionIsSettled(cfg: Config, s: Listener, script: seq<Session>, n: nat)
    requires cfg.refusal == Refusal && n < |script| && Run(cfg, s, script[..n]).outcome == Running
    requires SessionItems(cfg, Run(cfg, s, script[..n]), script[n]).outcome == Running
    ensures var items := SessionItems(cfg, Run(cfg, s, script[..n]), script[n]);
            var slept := items.slept + [items.backoff];
            if script[n].contextEnded then Run(cfg, s, script) == items.(outcome := Returned(Nil))
            else if Denied(script[n].opening) then
              Run(cfg, s, script) == items.(outcome := Returned(Denial(script[n].opening)))
            else if !script[n].wakes then Run(cfg, s, script) == items.(slept := slept, outcome := Returned(Nil))
            else Run(cfg, s, script[..n + 1]) == items.(slept := slept, backoff := NextBackoff(items.backoff, cfg.max))
  {
    RunEndsOrGoesOn(cfg, s, script, n);
    DeniedOpening(cfg, script[n]);
  }

  /** A process that dies while handling an item is gone, whatever the context or the stream did. */
  lemma DeathIsFinal(cfg: Config, s: Listener, script: seq<Session>, n: nat)
    requires n < |script| && Run(cfg, s, script[..n]).outcome == Running
    requires SessionItems(cfg, Run(cfg, s, script[..n]), script[n]).outcome == Killed
    ensures Run(cfg, s, script) == SessionItems(cfg, Run(cfg, s, script[..n]), script[n])
  {
    RunEndsOrGoesOn(cfg, s, script, n);
  }

  /** A session accepts nothing and sleeps not at all once its subscription failed. */
  lemma NothingWithoutStream(cfg: Config, s: Listener, session: Session)
    requires !session.opening.Opened?
    ensures SessionItems(cfg, s, session) == s
  {
  }

  /** So a listener that may not subscribe, or whose client is closed, gives up at once: with what it had accepted
      and slept so far, and with exactly that error. */
  lemma DeniedListenerGivesUp(cfg: Config, s: Listener, script: seq<Session>, n: nat)
    requires cfg.refusal == Refusal && n < |script| && Run(cfg, s, script[..n]).outcome == Running
    requires !script[n].contextEnded && Denied(script[n].opening)
    ensures Run(cfg, s, script) == Run(cfg, s, script[..n]).(outcome := Returned(Denial(script[n].opening)))
    ensures Denial(script[n].opening).Sdk? && SaysNo(Denial(script[n].opening).e.kind)
  {
    SessionIsSettled(cfg, s, script, n);
    DeniedOpening(cfg, script[n]);
  }
}
