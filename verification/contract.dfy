/** Calls through a handle: evaluate, the submit phases, pending transactions and ledger look-ups. The answers of
    the network are parameters; gateways connected for other identities are counted as they open and close. */
module Contract {
  import opened Wrappers
  import opened Text
  import opened Errors

  type Bytes = seq<bv8>

  /** A gateway in use: the client's shared one, or one connected for this call's identity. */
  datatype Handle = Shared | Own

  datatype TxResult = TxResult(txID: string, blockNumber: nat, payload: Bytes)

  datatype TxStatus = TxStatus(txID: string, found: bool, validationCode: ValidationCode, valid: bool)

  // ---- answers of the network ----

  datatype Proposal = NoProposal(err: Failure) | Proposed(txID: string)

  datatype CallReply = CallFails(err: Failure) | CallReturns(payload: Bytes)

  datatype SubmitReply = SubmitFails(err: Failure) | Accepted

  datatype StatusReply = StatusFails(err: Failure) | Committed(code: ValidationCode, blockNumber: nat)

  datatype QueryReply = QueryFails(err: Failure) | Processed(code: ValidationCode) | Garbled(err: Failure)

  // ---- what each phase makes of its answer ----

  function GatewayFor(closed: bool, default: nat, id: Option<nat>, connect: Option<Error>): Result<Handle, Error> {
    if closed then Failure(NewError(KindConfig, SourceSDK, ClientClosed))
    else if id.None? then Failure(ConfigError(Plain("identity is nil")))
    else if id.value == default then Success(Shared)
    else if connect.Some? then Failure(connect.value)
    else Success(Own)
  }

  function AfterEndorse(txID: string, reply: CallReply, fallback: Fallback): Result<Bytes, Error> {
    match reply
    case CallFails(err) => Failure(Classified(err, txID, PhaseEndorse, fallback))
    case CallReturns(payload) => Success(payload)
  }

  function AfterSubmit(txID: string, reply: SubmitReply, fallback: Fallback): Option<Error> {
    match reply
    case SubmitFails(err) => Some(Classified(err, txID, PhaseSubmit, fallback))
    case Accepted => None
  }

  function AfterStatus(txID: string, payload: Bytes, reply: StatusReply): Result<TxResult, Error> {
    match reply
    case StatusFails(err) => Failure(Classified(err, txID, PhaseCommitStatus, Strict))
    case Committed(code, block) =>
      if code == VALID then Success(TxResult(txID, block, payload)) else Failure(CommitFailure(txID, code, Nil))
  }

  const NO_SUCH_TX := "no such transaction ID"

  /** Three places are searched: the status message, every detail the Gateway added, and the error's own wording. */
  predicate Mentions(err: Failure, text: string) {
    var st := if err.Rpc? then err.status else Status(Unknown, ErrorText(err), []);
    || Contains(st.message, text)
    || (exists d :: d in GatewayDetails(st.details) && Contains(d.message, text))
    || Contains(ErrorText(err), text)
  }

  /** A text occurs in the status message, in the message of a detail the Gateway added, or in the error's own
      wording. */
  ghost predicate Reported(err: Failure, text: string) {
    || (err.Rpc? && Occurs(err.status.message, text))
    || (err.Rpc? && exists i :: 0 <= i < |err.status.details| && DetailSays(err.status.details[i], text))
    || Occurs(ErrorText(err), text)
  }

  ghost predicate DetailSays(d: AnyDetail, text: string) {
    d.Gateway? && Occurs(d.detail.message, text)
  }

  /** What is searched is all of these, and nothing more. */
  lemma MentionedMeansReported(err: Failure, text: string)
    ensures Mentions(err, text) <==> Reported(err, text)
  {
    ContainsMeansOccurs(ErrorText(err), text);
    if err.Rpc? {
      ContainsMeansOccurs(err.status.message, text);
      DetailsMention(err.status.details, text);
    }
  }

  lemma {:induction false} DetailsMention(raw: seq<AnyDetail>, text: string)
    ensures (exists d :: d in GatewayDetails(raw) && Contains(d.message, text))
       <==> exists i :: 0 <= i < |raw| && DetailSays(raw[i], text)
  {
    if raw != [] {
      var front, last := raw[..|raw| - 1], raw[|raw| - 1];
      DetailsMention(front, text);
      if last.Gateway? {
        ContainsMeansOccurs(last.detail.message, text);
      }
      assert forall i :: 0 <= i < |front| ==> raw[i] == front[i];
      assert DetailSays(last, text) ==> DetailSays(raw[|raw| - 1], text);
    }
  }

  function AfterQuery(txID: string, reply: QueryReply): Result<TxStatus, Error> {
    match reply
    case QueryFails(err) =>
      if Mentions(err, NO_SUCH_TX) then Success(TxStatus(txID, false, VALID, false))
      else Failure(Classified(err, "", PhaseEvaluate, Strict))
    case Garbled(err) =>
      Failure(NewError(KindInternal, SourceSDK, UndecodableTransaction).(cause := err))
    case Processed(code) => Success(TxStatus(txID, true, code, code == VALID))
  }

  /** Everything that happens to one submission before its commit is awaited. */
  datatype Submission = Submission(connect: Option<Error>, proposal: Proposal, endorse: CallReply, submit: SubmitReply)

  function SubmitAsyncResult(gateway: Result<Handle, Error>, s: Submission, fallback: Fallback): Result<(string, Bytes), Error> {
    if gateway.Failure? then Failure(gateway.error)
    else match s.proposal
      case NoProposal(err) => Failure(ConfigError(err))
      case Proposed(txID) =>
        var endorsed := AfterEndorse(txID, s.endorse, fallback);
        if endorsed.Failure? then Failure(endorsed.error)
        else
          var refused := AfterSubmit(txID, s.submit, fallback);
          if refused.Some? then Failure(refused.value) else Success((txID, endorsed.value))
  }

  // ---- the client and its gateways ----

  class FabricClient {
    const id: nat
    const fallback: Fallback
    var closed: bool
    var connected: nat          // gateways connected for other identities so far
    var released: nat        // those of them closed again
    var sharedClosed: nat    // how often the shared gateway was closed

    constructor (id: nat, strict: bool)
      ensures this.id == id && fallback == FallbackFor(strict) && !closed
      ensures connected == 0 && released == 0 && sharedClosed == 0
    {
      this.id, this.fallback, closed := id, FallbackFor(strict), false;
      connected, released, sharedClosed := 0, 0, 0;
    }

    function Live(): int
      reads this
    {
      connected - released
    }

    /** Returns a gateway for an identity; only another identity's is newly connected. */
    method Gateway(id: Option<nat>, connect: Option<Error>) returns (r: Result<Handle, Error>)
      modifies this`connected
      ensures r == GatewayFor(closed, this.id, id, connect)
      ensures r == Success(Shared) <==> !closed && id == Some(this.id)
      ensures r == Success(Own) <==> !closed && id.Some? && id.value != this.id && connect.None?
      ensures closed || id.None? ==> r.Failure? && r.error.kind == KindConfig && r.error.source == SourceSDK
      ensures closed ==> r.error.message.Text() == "client is closed"
      ensures !closed && id.Some? && id.value != this.id && connect.Some? ==> r == Failure(connect.value)
      ensures connected == old(connected) + if r == Success(Own) then 1 else 0
    {
      if closed {
        return Failure(NewError(KindConfig, SourceSDK, ClientClosed));
      }
      if id.None? {
        return Failure(ConfigError(Plain("identity is nil")));
      }
      if id.value == this.id {
        return Success(Shared);
      }
      if connect.Some? {
        return Failure(connect.value);
      }
      connected := connected + 1;
      return Success(Own);
    }

    /** The release function that goes with a handle: the shared gateway is never closed by it. */
    method Release(h: Handle)
      modifies this`released
      ensures released == old(released) + if h.Own? then 1 else 0
    {
      if h.Own? {
        released := released + 1;
      }
    }

    method Close()
      modifies this`closed, this`sharedClosed
      ensures closed && sharedClosed == old(sharedClosed) + if old(closed) then 0 else 1
    {
      if !closed {
        closed := true;
        sharedClosed := sharedClosed + 1;
      }
    }

    /** A read-only query: its gateway is always given back. */
    method Evaluate(id: Option<nat>, connect: Option<Error>, proposal: Proposal, reply: CallReply)
      returns (r: Result<Bytes, Error>)
      modifies this`connected, this`released
      ensures Live() == old(Live())
      ensures var g := GatewayFor(closed, this.id, id, connect);
              r == if g.Failure? then Failure(g.error)
                   else if proposal.NoProposal? then Failure(ConfigError(proposal.err))
                   else match reply
                        case CallFails(err) => Failure(Classified(err, proposal.txID, PhaseEvaluate, fallback))
                        case CallReturns(payload) => Success(payload)
    {
      var g := Gateway(id, connect);
      if g.Failure? {
        return Failure(g.error);
      }
      if proposal.NoProposal? {
        Release(g.value);
        return Failure(ConfigError(proposal.err));
      }
      if reply.CallFails? {
        var e := Classify(reply.err, proposal.txID, PhaseEvaluate, fallback);
        Release(g.value);
        return Failure(e.value);
      }
      Release(g.value);
      return Success(reply.payload);
    }

    /** The ledger state of a transaction; a failed connection or proposal is an error like any other. */
    method LookUp(id: Option<nat>, connect: Option<Error>, proposal: Proposal, txID: string, reply: QueryReply)
      returns (r: Result<TxStatus, Error>)
      modifies this`connected, this`released
      ensures Live() == old(Live())
      ensures var g := GatewayFor(closed, this.id, id, connect);
              r == AfterQuery(txID, if g.Failure? then QueryFails(Sdk(g.error))
                                    else if proposal.NoProposal? then QueryFails(Sdk(ConfigError(proposal.err)))
                                    else reply)
      ensures !closed && id.Some? && (id.value == this.id || connect.None?) && proposal.Proposed? ==>
                && ((r.Success? && !r.value.found) <==> reply.QueryFails? && Reported(reply.err, "no such transaction ID"))
                && (reply.Processed? ==> r == Success(TxStatus(txID, true, reply.code, reply.code == VALID)))
                && (reply.Garbled? ==> r.Failure? && r.error.kind == KindInternal && r.error.cause == reply.err)
                && (reply.QueryFails? && r.Success? ==> r == Success(TxStatus(txID, false, VALID, false)))
    {
      var answer := reply;
      var g := Gateway(id, connect);
      if g.Failure? {
        answer := QueryFails(Sdk(g.error));
      } else {
        if proposal.NoProposal? {
          answer := QueryFails(Sdk(ConfigError(proposal.err)));
        }
        Release(g.value);
      }
      match answer {
        case QueryFails(err) =>
          MentionedMeansReported(err, NO_SUCH_TX);
          if Mentions(err, NO_SUCH_TX) {
            return Success(TxStatus(txID, false, VALID, false));
          }
          var e := Classify(err, "", PhaseEvaluate, Strict);
          return Failure(e.value);
        case Garbled(err) =>
          return Failure(NewError(KindInternal, SourceSDK, UndecodableTransaction).(cause := err));
        case Processed(code) =>
          return Success(TxStatus(txID, true, code, code == VALID));
      }
    }

    /** Endorses and orders a transaction. Its gateway is given back on every path but the successful one, where
        the pending transaction keeps it. */
    method SubmitAsync(id: Option<nat>, s: Submission) returns (pending: PendingTx?, err: Option<Error>)
      modifies this`connected, this`released
      ensures var g := GatewayFor(closed, this.id, id, s.connect);
              var r := SubmitAsyncResult(g, s, fallback);
              && (pending != null <==> r.Success?) && (err.None? <==> r.Success?)
              && (r.Failure? ==> err == Some(r.error) && Live() == old(Live()))
              && (r.Success? ==>
                    && fresh(pending) && pending.client == this && pending.handle == g.value && !pending.done
                    && (pending.txID, pending.payload) == r.value
                    && Live() == old(Live()) + if g.value.Own? then 1 else 0)
    {
      var g := Gateway(id, s.connect);
      if g.Failure? {
        return null, Some(g.error);
      }
      var keep := false;
      pending, err := null, None;
      if s.proposal.NoProposal? {
        err := Some(ConfigError(s.proposal.err));
      } else {
        var txID := s.proposal.txID;
        if s.endorse.CallFails? {
          err := Classify(s.endorse.err, txID, PhaseEndorse, fallback);
        } else if s.submit.SubmitFails? {
          err := Classify(s.submit.err, txID, PhaseSubmit, fallback);
        } else {
          keep := true;
          pending := new PendingTx(this, g.value, txID, s.endorse.payload);
        }
      }
      if !keep {
        Release(g.value);
      }
    }

    /** Submits and waits. The wait gives the gateway back once the status is definite; when it cannot be
        confirmed, nobody is left who could: another identity's gateway then stays open. */
    method SubmitWith(id: Option<nat>, s: Submission, status: StatusReply) returns (r: Result<TxResult, Error>)
      modifies this`connected, this`released
      ensures var g := GatewayFor(closed, this.id, id, s.connect);
              var ordered := SubmitAsyncResult(g, s, fallback);
              && r == (if ordered.Failure? then Failure(ordered.error)
                       else AfterStatus(ordered.value.0, ordered.value.1, status))
              && Live() == old(Live()) + if ordered.Success? && status.StatusFails? && g.value.Own? then 1 else 0
    {
      var pending, err := SubmitAsync(id, s);
      if err.Some? {
        return Failure(err.value);
      }
      r := pending.Wait(status);
    }
  }

  /** A transaction the orderer accepted, whose commit is not confirmed yet. */
  class PendingTx {
    const client: FabricClient
    const handle: Handle
    const txID: string
    const payload: Bytes
    var done: bool  // whether the release function has run

    constructor (client: FabricClient, handle: Handle, txID: string, payload: Bytes)
      ensures this.client == client && this.handle == handle && this.txID == txID && this.payload == payload && !done
    {
      this.client, this.handle, this.txID, this.payload, done := client, handle, txID, payload, false;
    }

    /** Gives the gateway back, the first time only. */
    method Release()
      modifies this, client`released
      ensures done && client.released == old(client.released) + if !old(done) && handle.Own? then 1 else 0
    {
      if !done {
        done := true;
        client.Release(handle);
      }
    }

    /** May be called again after an unconfirmed status; a definite one gives the gateway back. */
    method Wait(reply: StatusReply) returns (r: Result<TxResult, Error>)
      modifies this, client`released
      ensures r == AfterStatus(txID, payload, reply)
      ensures done == (old(done) || reply.Committed?)
      ensures client.released == old(client.released) + if !old(done) && done && handle.Own? then 1 else 0
    {
      if reply.StatusFails? {
        var e := Classify(reply.err, txID, PhaseCommitStatus, Strict);
        return Failure(e.value);
      }
      Release();
      if reply.code != VALID {
        return Failure(CommitFailure(txID, reply.code, Nil));
      }
      return Success(TxResult(txID, reply.blockNumber, payload));
    }
  }
}
