/** What callers read off an error, spelled out: kinds by status code, numbers by kind, codes by name, and the
    errors of every phase of a submission. */
module Guidance {
  import opened Wrappers
  import opened Text
  import opened Errors
  import opened Classification
  import opened Contract
  import Ccerr

  // ---- numbers ----

  /** The HTTP number a kind stands for. */
  predicate HasItsNumber(e: Error) {
    && (e.code == 400 <==> e.kind == KindInvalidArgument || e.kind == KindChaincode)
    && (e.code == 403 <==> e.kind == KindUnauthorized)
    && (e.code == 404 <==> e.kind == KindNotFound)
    && (e.code == 409 <==> e.kind == KindAlreadyExists || e.kind == KindConflict)
    && (e.code == 422 <==> e.kind == KindFailedPrecondition)
    && (e.code == 499 <==> e.kind == KindCanceled)
    && (e.code == 500 <==> e.kind == KindCommitFailed || e.kind == KindConfig || e.kind == KindInternal)
    && (e.code == 502 <==> e.kind == KindEndorsement || e.kind == KindSubmit)
    && (e.code == 503 <==> e.kind == KindUnavailable)
    && (e.code == 504 <==> e.kind == KindOutcomeUnknown || e.kind == KindTimeout)
  }

  lemma NumberOfKind(e: Error)
    requires e.code == KindCode(e.kind)
    ensures HasItsNumber(e)
  {
  }

  /** Every error the classifier makes has its number. */
  lemma EveryErrorHasItsNumber(err: GoError, txID: string, ph: Phase, fallback: Fallback)
    requires !err.Nil? && !err.Sdk?
    ensures HasItsNumber(Classified(err, txID, ph, fallback))
  {
    if err.Commit? {
      CommitFailureGuidance(err.txID, err.vc, err);
    } else {
      RetryGuidance(err, txID, ph, fallback);
    }
    NumberOfKind(Classified(err, txID, ph, fallback));
  }

  // ---- before submit, without chaincode wording ----

  predicate NoWording(err: GoError, fallback: Fallback) {
    Fresh(err) && ChaincodeVerdict(Convert(err), Details(err), fallback).None?
  }

  predicate KindFollowsCode(k: Kind, code: Code) {
    && (k == KindInvalidArgument <==> code == InvalidArgument)
    && (k == KindUnauthorized <==> code == PermissionDenied || code == Unauthenticated)
    && (k == KindNotFound <==> code == NotFound)
    && (k == KindTimeout <==> code == DeadlineExceeded)
    && (k == KindCanceled <==> code == Canceled)
    && (k == KindUnavailable <==> code == Unavailable)
    && (k == KindFailedPrecondition <==> code == FailedPrecondition)
    && (k == KindEndorsement <==> code == Aborted || code == Unknown)
    && (k == KindInternal <==> (code == OK || code == AlreadyExists || code == ResourceExhausted || code == OutOfRange
                                || code == Unimplemented || code == Internal || code == DataLoss || code.Unlisted?))
  }

  /** The kind per status code, and with it what may be sent again: what met a deadline, a missing peer, or a failed
      endorsement, and nothing else. */
  lemma KindPerCode(err: GoError, txID: string, ph: Phase, fallback: Fallback)
    requires BeforeSubmit(ph) && NoWording(err, fallback)
    ensures var e, code := Classified(err, txID, ph, fallback), Convert(err).code;
            && KindFollowsCode(e.kind, code)
            && (e.Retryable() <==> code == DeadlineExceeded || code == Unavailable || code == Aborted || code == Unknown)
            && e.source == SourceNetwork && e.message.Text() == Convert(err).message
  {
    KindOfCode(Convert(err).code, ph);
    assert Classified(err, txID, ph, fallback).kind == KindFromCode(Convert(err).code, ph);
  }

  lemma KindOfCode(code: Code, ph: Phase)
    requires BeforeSubmit(ph)
    ensures KindFollowsCode(KindFromCode(code, ph), code)
    ensures RetryableKind(KindFromCode(code, ph))
       <==> code == DeadlineExceeded || code == Unavailable || code == Aborted || code == Unknown
  {
  }

  /** Only the codes under which chaincode errors travel can have wording at all. */
  lemma OtherCodesHaveNoWording(err: GoError, fallback: Fallback)
    requires Fresh(err) && Convert(err).code != Aborted && Convert(err).code != Unknown
    ensures NoWording(err, fallback)
  {
  }

  /** An error without a code of its own counts as canceled, or as past its deadline, exactly when its context did
      so; a code of its own always stands, and its details with it. */
  lemma ContextDecidesUnknown(err: GoError, txID: string, ph: Phase, fallback: Fallback)
    requires err.Rpc?
    ensures var e := Classified(err, txID, ph, fallback);
            && (err.status.code != Unknown ==> e.grpcCode == err.status.code)
            && (err.status.code == Unknown ==>
                  && (e.grpcCode == Canceled <==> err.isCanceled)
                  && (e.grpcCode == DeadlineExceeded <==> err.isDeadlineExceeded && !err.isCanceled)
                  && (e.grpcCode == Unknown <==> !err.isCanceled && !err.isDeadlineExceeded)
                  && (e.grpcCode == Canceled && BeforeSubmit(ph) ==>
                        e.kind == KindCanceled && e.message.Text() == err.text && !e.Retryable())
                  && (e.grpcCode == DeadlineExceeded && BeforeSubmit(ph) ==>
                        e.kind == KindTimeout && e.message.Text() == err.text && e.Retryable()))
            && (e.grpcCode == err.status.code ==> e.details == GatewayDetails(err.status.details))
  {
    RetryGuidance(err, txID, ph, fallback);
    if BeforeSubmit(ph) && (Convert(err).code == Canceled || Convert(err).code == DeadlineExceeded) {
      OtherCodesHaveNoWording(err, fallback);
      KindPerCode(err, txID, ph, fallback);
    }
  }

  // ---- from submit on ----

  predicate Rejection(code: Code) {
    code == InvalidArgument || code == FailedPrecondition || code == Aborted
  }

  lemma KindAfterBroadcast(err: GoError, txID: string, ph: Phase, fallback: Fallback)
    requires Fresh(err) && !BeforeSubmit(ph)
    ensures var e, st := Classified(err, txID, ph, fallback), Convert(err);
            && e.source == SourceNetwork
            && (e.kind == KindSubmit <==> ph == PhaseSubmit && Rejection(st.code))
            && (e.kind == KindOutcomeUnknown <==> e.outcomeUnknown)
            && (e.outcomeUnknown <==> ph == PhaseCommitStatus || !Rejection(st.code))
            && e.message.Text() == (if ph == PhaseCommitStatus then "could not confirm commit status: " + st.message
                                    else if Rejection(st.code) then st.message
                                    else "submit to orderer did not complete: " + st.message)
  {
  }

  /** An error the SDK made already passes through untouched; a commit error of the library keeps its own ID. */
  lemma KnownErrorsPass(err: GoError, txID: string, ph: Phase, fallback: Fallback)
    requires err.Sdk? || err.Commit?
    ensures var e := Classified(err, txID, ph, fallback);
            && (err.Sdk? ==> e == err.e)
            && (err.Commit? ==> CommitFailed(e, err.txID, err.vc) && e.cause == err)
  {
    if err.Commit? {
      FailedCommit(err.txID, err.vc, err);
    }
  }

  predicate CommitFailed(e: Error, txID: string, vc: ValidationCode) {
    && e.kind == (if vc == MVCC_READ_CONFLICT || vc == PHANTOM_READ_CONFLICT then KindConflict else KindCommitFailed)
    && e.source == SourceNetwork && e.txID == txID && e.validationCode == vc && !e.outcomeUnknown && HasItsNumber(e)
    && e.message.Text()
       == if vc == MVCC_READ_CONFLICT || vc == PHANTOM_READ_CONFLICT
          then "transaction invalidated at commit by " + vc.Name() + "; re-read and retry"
          else "transaction committed as invalid: " + vc.Name() + " (" + Signed(vc.Number()) + ")"
  }

  lemma FailedCommit(txID: string, vc: ValidationCode, cause: GoError)
    ensures CommitFailed(CommitFailure(txID, vc, cause), txID, vc)
  {
    CommitFailureGuidance(txID, vc, cause);
    NumberOfKind(CommitFailure(txID, vc, cause));
  }

  /** The number in that wording reads back as the verdict's. */
  lemma {:induction false} DecimalReadsBack(n: nat)
    ensures Decimal(n) != "" && ValueOf(Decimal(n)) == n
  {
    if n >= 10 {
      DecimalReadsBack(n / 10);
      assert Decimal(n)[..|Decimal(n)| - 1] == Decimal(n / 10);
    }
  }

  function ValueOf(digits: string): int {
    if digits == "" then 0 else 10 * ValueOf(digits[..|digits| - 1]) + (digits[|digits| - 1] as int - '0' as int)
  }

  lemma ConflictNames()
    ensures MVCC_READ_CONFLICT.Name() == "MVCC_READ_CONFLICT" && MVCC_READ_CONFLICT.Number() == 11
    ensures PHANTOM_READ_CONFLICT.Name() == "PHANTOM_READ_CONFLICT" && PHANTOM_READ_CONFLICT.Number() == 12
  {
  }

  /** Whoever searches an error's rendering finds what its message and its transaction ID say. */
  lemma RenderingSaysIt(e: Error, text: string)
    requires Occurs(e.message.Text(), text) || Occurs(e.txID, text)
    ensures Occurs(e.Render(), text) || text == ""
  {
    RenderedSaysIt("fabricsdk: " + e.kind.Name(), e.txID, e.message.Text(), text);
  }

  lemma RenderedSaysIt(head: string, txID: string, message: string, text: string)
    requires Occurs(message, text) || Occurs(txID, text)
    ensures Occurs(Rendered(head, txID, message), text) || text == ""
  {
    var middle := if txID != "" then " (tx " + txID + ")" else "";
    var back := if message != "" then ": " + message else "";
    if text != "" && Occurs(message, text) {
      OccursInside(head + middle + ": ", message, "", text);
      assert Rendered(head, txID, message) == head + middle + ": " + message + "";
    } else if text != "" {
      OccursInside(head + " (tx ", txID, ")" + back, text);
      assert Rendered(head, txID, message) == head + " (tx " + txID + (")" + back);
    }
  }

  lemma OccursInside(left: string, s: string, right: string, text: string)
    requires Occurs(s, text)
    ensures Occurs(left + s + right, text)
  {
    var i :| OccursAt(s, text, i);
    assert OccursAt(left + s + right, text, |left| + i);
  }

  // ---- the six codes ----

  /** The codes a chaincode can send, by name. */
  lemma SixCodes(c: string)
    ensures c in Ccerr.KNOWN
       <==> || c == "INVALID_ARGUMENT" || c == "NOT_FOUND" || c == "ALREADY_EXISTS" || c == "CONFLICT"
            || c == "UNAUTHORIZED" || c == "FAILED_PRECONDITION"
  {
  }

  predicate KindOfSix(c: string, k: Kind) {
    && (c == "INVALID_ARGUMENT" ==> k == KindInvalidArgument)
    && (c == "NOT_FOUND" ==> k == KindNotFound)
    && (c == "ALREADY_EXISTS" ==> k == KindAlreadyExists)
    && (c == "CONFLICT" ==> k == KindConflict)
    && (c == "UNAUTHORIZED" ==> k == KindUnauthorized)
    && (c == "FAILED_PRECONDITION" ==> k == KindFailedPrecondition)
  }

  lemma SixKinds(c: string)
    requires c in Ccerr.KNOWN
    ensures KindOfSix(c, CcKind(c)) && (RetryableKind(CcKind(c)) <==> c == "CONFLICT")
  {
  }

  /** "CODE: message", or the same behind "chaincode response NNN, ". */
  predicate OnTheWire(text: string, number: string, c: string, message: string) {
    || text == c + ": " + message
    || (text == "chaincode response " + number + ", " + (c + ": " + message) && !Contains(number, ", "))
  }

  lemma WireIsCarried(text: string, number: string, c: string, message: string)
    requires OnTheWire(text, number, c, message)
    ensures Carries(text, number, c, message)
  {
  }

  /** From the wire to the caller: a report with one of the six codes, before which none parses, gives the kind of
      that code, with the trimmed message, and only a conflict is worth another attempt. */
  lemma ReportedCode(err: GoError, ph: Phase, txID: string, fallback: Fallback, i: nat, number: string, c: string, message: string)
    requires MayBeChaincode(err, ph) && i < |Details(err)| && c in Ccerr.KNOWN
    requires forall j :: 0 <= j < i ==> !Coded(Details(err)[j].message)
    requires OnTheWire(Details(err)[i].message, number, c, message)
    ensures var e := Classified(err, txID, ph, fallback);
            && KindOfSix(c, e.kind) && e.source == SourceChaincode && e.message.Text() == TrimSpace(message)
            && e.txID == txID && (e.Retryable() <==> c == "CONFLICT")
  {
    WireIsCarried(Details(err)[i].message, number, c, message);
    CodedErrorReachesItsKind(err, ph, txID, fallback, i, number, c, message);
    SixKinds(c);
  }

  // ---- the phases of a submission ----

  /** What fails before anything is sent: no gateway, or no proposal, which is a configuration error. */
  lemma FailsBeforeSending(gateway: Result<Handle, Error>, s: Submission, fallback: Fallback)
    requires gateway.Failure? || s.proposal.NoProposal?
    ensures var r := SubmitAsyncResult(gateway, s, fallback);
            && r.Failure? && (gateway.Failure? ==> r.error == gateway.error)
            && (gateway.Success? ==> r.error.kind == KindConfig && r.error.source == SourceSDK && r.error.cause == s.proposal.err
                                     && HasItsNumber(r.error) && !r.error.Retryable() && !r.error.outcomeUnknown
                                     && r.error.message.Text() == "invalid configuration: " + ErrorText(s.proposal.err))
  {
    if gateway.Success? {
      NumberOfKind(SubmitAsyncResult(gateway, s, fallback).error);
    }
  }

  predicate EndorsementFails(s: Submission) {
    s.proposal.Proposed? && s.endorse.CallFails? && Fresh(s.endorse.err)
  }

  /** A failed endorsement never leaves the outcome open, whatever was said of it; without chaincode wording its
      kind follows its code, and a missing peer or a passed deadline invites another attempt. */
  lemma FailedEndorsement(h: Handle, s: Submission, fallback: Fallback)
    requires EndorsementFails(s)
    ensures var r := SubmitAsyncResult(Success(h), s, fallback);
            var code := Convert(s.endorse.err).code;
            && r.Failure? && !r.error.outcomeUnknown && r.error.kind != KindOutcomeUnknown && r.error.kind != KindSubmit
            && r.error.txID == s.proposal.txID && r.error.cause == s.endorse.err && r.error.grpcCode == code
            && (code == Unavailable ==> r.error.kind == KindUnavailable && r.error.Retryable())
            && (code == DeadlineExceeded ==> r.error.kind == KindTimeout && r.error.Retryable())
            && (code == Canceled ==> r.error.kind == KindCanceled && !r.error.Retryable())
            && (NoWording(s.endorse.err, fallback) && (code == Aborted || code == Unknown) ==>
                  r.error.kind == KindEndorsement && r.error.Retryable() && r.error.source == SourceNetwork)
  {
    var err := s.endorse.err;
    RetryGuidance(err, s.proposal.txID, PhaseEndorse, fallback);
    if Convert(err).code != Aborted && Convert(err).code != Unknown {
      OtherCodesHaveNoWording(err, fallback);
    }
    if NoWording(err, fallback) {
      KindPerCode(err, s.proposal.txID, PhaseEndorse, fallback);
    } else {
      VerdictIsChaincode(Convert(err), Details(err), fallback);
    }
  }

  /** A coded report on it decides kind and source. */
  lemma ReportedEndorsement(h: Handle, s: Submission, fallback: Fallback, i: nat, number: string, c: string, message: string)
    requires EndorsementFails(s) && MayBeChaincode(s.endorse.err, PhaseEndorse)
    requires i < |Details(s.endorse.err)| && c in Ccerr.KNOWN
    requires forall j :: 0 <= j < i ==> !Coded(Details(s.endorse.err)[j].message)
    requires OnTheWire(Details(s.endorse.err)[i].message, number, c, message)
    ensures var r := SubmitAsyncResult(Success(h), s, fallback);
            && r.Failure? && KindOfSix(c, r.error.kind) && r.error.source == SourceChaincode
            && r.error.message.Text() == TrimSpace(message) && (r.error.Retryable() <==> c == "CONFLICT")
  {
    ReportedCode(s.endorse.err, PhaseEndorse, s.proposal.txID, fallback, i, number, c, message);
  }

  /** A failed broadcast leaves the outcome open unless the orderer rejected it; a rejection may be sent again. */
  lemma FailedBroadcast(h: Handle, s: Submission, fallback: Fallback)
    requires s.proposal.Proposed? && s.endorse.CallReturns? && s.submit.SubmitFails? && Fresh(s.submit.err)
    ensures var r := SubmitAsyncResult(Success(h), s, fallback);
            && r.Failure? && r.error.txID == s.proposal.txID && r.error.cause == s.submit.err
            && (r.error.outcomeUnknown <==> !Rejection(Convert(s.submit.err).code))
            && (r.error.Retryable() <==> Rejection(Convert(s.submit.err).code))
            && r.error.kind == if Rejection(Convert(s.submit.err).code) then KindSubmit else KindOutcomeUnknown
  {
    KindAfterBroadcast(s.submit.err, s.proposal.txID, PhaseSubmit, fallback);
    RetryGuidance(s.submit.err, s.proposal.txID, PhaseSubmit, fallback);
  }

  /** An accepted one has the proposal's ID and the endorsed payload. */
  lemma AcceptedBroadcast(h: Handle, s: Submission, fallback: Fallback)
    requires s.proposal.Proposed? && s.endorse.CallReturns? && s.submit.Accepted?
    ensures SubmitAsyncResult(Success(h), s, fallback) == Success((s.proposal.txID, s.endorse.payload))
  {
  }

  /** A look-up that fails otherwise than by "no such transaction ID" names no transaction and leaves nothing open,
      since it is a read. */
  lemma FailedLookUp(txID: string, err: Failure)
    requires Fresh(err) && !Reported(err, "no such transaction ID")
    ensures var r := AfterQuery(txID, QueryFails(err));
            && r.Failure? && !r.error.outcomeUnknown && r.error.txID == "" && r.error.cause == err
            && (NoWording(err, Strict) ==> KindFollowsCode(r.error.kind, Convert(err).code))
  {
    MentionedMeansReported(err, NO_SUCH_TX);
    RetryGuidance(err, "", PhaseEvaluate, Strict);
    if NoWording(err, Strict) {
      KindPerCode(err, "", PhaseEvaluate, Strict);
    }
  }

  /** What a wait answers: a transaction committed as valid with its block, a failed commit by its verdict, and an
      open outcome, which names the transaction, in all other cases. */
  lemma AnswerOfWait(txID: string, payload: Bytes, reply: StatusReply)
    requires reply.StatusFails? ==> Fresh(reply.err)
    ensures match AfterStatus(txID, payload, reply)
            case Success(result) =>
              reply.Committed? && reply.code == VALID && result == TxResult(txID, reply.blockNumber, payload)
            case Failure(e) =>
              if reply.Committed? then reply.code != VALID && CommitFailed(e, txID, reply.code)
              else e.outcomeUnknown && e.kind == KindOutcomeUnknown && e.txID == txID && e.cause == reply.err
  {
    match reply
    case StatusFails(err) => RetryGuidance(err, txID, PhaseCommitStatus, Strict);
    case Committed(code, _) => FailedCommit(txID, code, Nil);
  }
}
