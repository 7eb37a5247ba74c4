/** The SDK's structured errors and the classifier that builds them from Gateway errors. */
module Errors {
  import opened Wrappers
  import opened Text
  import Ccerr

  datatype Kind =
    | KindInvalidArgument | KindNotFound | KindAlreadyExists | KindConflict | KindUnauthorized
    | KindFailedPrecondition | KindChaincode
    | KindEndorsement | KindSubmit | KindCommitFailed | KindOutcomeUnknown | KindTimeout
    | KindUnavailable | KindCanceled | KindConfig | KindInternal
  {
    function Name(): string {
      match this
      case KindInvalidArgument => "invalid_argument"
      case KindNotFound => "not_found"
      case KindAlreadyExists => "already_exists"
      case KindConflict => "conflict"
      case KindUnauthorized => "unauthorized"
      case KindFailedPrecondition => "failed_precondition"
      case KindChaincode => "chaincode"
      case KindEndorsement => "endorsement"
      case KindSubmit => "submit"
      case KindCommitFailed => "commit_failed"
      case KindOutcomeUnknown => "outcome_unknown"
      case KindTimeout => "timeout"
      case KindUnavailable => "unavailable"
      case KindCanceled => "canceled"
      case KindConfig => "config"
      case KindInternal => "internal"
    }
  }

  datatype Source = SourceSDK | SourceChaincode | SourceNetwork

  /** The gRPC status codes; `Unlisted` stands for numbers gRPC does not define. */
  datatype Code =
    | OK | Canceled | Unknown | InvalidArgument | DeadlineExceeded | NotFound | AlreadyExists
    | PermissionDenied | ResourceExhausted | FailedPrecondition | Aborted | OutOfRange | Unimplemented
    | Internal | Unavailable | DataLoss | Unauthenticated | Unlisted(number: nat)

  /** The verdict a committing peer writes next to a transaction. */
  datatype ValidationCode = VALID | MVCC_READ_CONFLICT | PHANTOM_READ_CONFLICT | Invalid(name: string, number: int) {
    function Name(): string {
      match this
      case VALID => "VALID"
      case MVCC_READ_CONFLICT => "MVCC_READ_CONFLICT"
      case PHANTOM_READ_CONFLICT => "PHANTOM_READ_CONFLICT"
      case Invalid(name, _) => name
    }

    function Number(): int {
      match this
      case VALID => 0
      case MVCC_READ_CONFLICT => 11
      case PHANTOM_READ_CONFLICT => 12
      case Invalid(_, number) => number
    }
  }

  datatype ErrorDetail = ErrorDetail(address: string, mspID: string, message: string)

  /** A status carries arbitrary messages; only the Gateway's own details are kept. */
  datatype AnyDetail = Gateway(detail: ErrorDetail) | Foreign(typeURL: string)

  datatype Status = Status(code: Code, message: string, details: seq<AnyDetail>)

  /** A message: someone else's text as it is, or with the wording the SDK puts around it. */
  datatype Message =
    | Verbatim(text: string)
    | BadConfiguration(text: string)
    | ClientClosed
    | StreamClosed
    | UndecodableTransaction
    | CommitUnconfirmed(text: string)
    | SubmitIncomplete(text: string)
    | ReadConflict(vc: ValidationCode)
    | CommittedInvalid(vc: ValidationCode)
  {
    function Text(): string {
      match this
      case Verbatim(text) => text
      case BadConfiguration(text) => "invalid configuration: " + text
      case ClientClosed => "client is closed"
      case StreamClosed => "event stream closed by the gateway"
      case UndecodableTransaction => "decode ProcessedTransaction"
      case CommitUnconfirmed(text) => "could not confirm commit status: " + text
      case SubmitIncomplete(text) => "submit to orderer did not complete: " + text
      case ReadConflict(vc) => "transaction invalidated at commit by " + vc.Name() + "; re-read and retry"
      case CommittedInvalid(vc) => "transaction committed as invalid: " + vc.Name() + " (" + Signed(vc.Number()) + ")"
    }
  }

  function Signed(n: int): string {
    if n < 0 then "-" + Decimal(-n) else Decimal(n)
  }

  /** A number in decimal, the last digit last. */
  function Decimal(n: nat): string {
    (if n < 10 then "" else Decimal(n / 10)) + ['0' + (n % 10) as char]
  }

  function Rendered(head: string, txID: string, text: string): string {
    head + (if txID != "" then " (tx " + txID + ")" else "") + (if text != "" then ": " + text else "")
  }

  predicate RetryableKind(k: Kind) {
    match k
    case KindConflict | KindUnavailable | KindTimeout | KindEndorsement | KindSubmit => true
    case _ => false
  }

  datatype Error = Error(
    kind: Kind, source: Source, code: int, message: Message, txID: string, validationCode: ValidationCode,
    grpcCode: Code, details: seq<ErrorDetail>, outcomeUnknown: bool, cause: GoError)
  {
    /** The guidance callers act on: never with an open outcome, otherwise by the kind alone. */
    predicate Retryable() {
      !outcomeUnknown && RetryableKind(kind)
    }

    function Render(): string {
      Rendered("fabricsdk: " + kind.Name(), txID, message.Text())
    }
  }

  /** A Go error as `errors.As`, `errors.Is` and `status.Convert` see it: anything wrapping an SDK error or a
      commit error, a plain error, or an error of the Gateway library with its status. */
  datatype GoError =
    | Nil
    | Sdk(e: Error)
    | Commit(txID: string, vc: ValidationCode, text: string)
    | Plain(text: string)
    | Rpc(status: Status, isCanceled: bool, isDeadlineExceeded: bool, text: string)

  /** A returned error that is not nil. */
  type Failure = e: GoError | !e.Nil? witness Plain("")

  datatype Phase = PhaseEvaluate | PhaseEndorse | PhaseSubmit | PhaseCommitStatus

  function KindCode(kind: Kind): int {
    match kind
    case KindInvalidArgument | KindChaincode => 400
    case KindUnauthorized => 403
    case KindNotFound => 404
    case KindAlreadyExists | KindConflict => 409
    case KindFailedPrecondition => 422
    case KindCanceled => 499
    case KindCommitFailed | KindConfig | KindInternal => 500
    case KindEndorsement | KindSubmit => 502
    case KindUnavailable => 503
    case KindOutcomeUnknown | KindTimeout => 504
  }

  function CcKind(code: string): Kind
    requires code in Ccerr.KNOWN
  {
    if code == Ccerr.INVALID_ARGUMENT then KindInvalidArgument
    else if code == Ccerr.NOT_FOUND then KindNotFound
    else if code == Ccerr.ALREADY_EXISTS then KindAlreadyExists
    else if code == Ccerr.CONFLICT then KindConflict
    else if code == Ccerr.UNAUTHORIZED then KindUnauthorized
    else KindFailedPrecondition
  }

  function NewError(kind: Kind, source: Source, message: Message): Error {
    Error(kind, source, KindCode(kind), message, "", VALID, OK, [], false, Nil)
  }

  function ConfigError(cause: GoError): Error {
    NewError(KindConfig, SourceSDK, BadConfiguration(ErrorText(cause))).(cause := cause)
  }

  function ErrorText(err: GoError): string {
    match err
    case Nil => "<nil>"
    case Sdk(e) => e.Render()
    case Commit(_, _, text) => text
    case Plain(text) => text
    case Rpc(_, _, _, text) => text
  }

  function KindOf(err: GoError): Option<Kind> {
    if err.Sdk? then Some(err.e.kind) else None
  }

  // ---- keyword fallback ----

  const PEER_SIDE_PHRASES: seq<string> := [
    "make sure the chaincode",
    "error in simulation",
    "could not launch chaincode",
    "failed to execute transaction",
    "transaction returned with failure",
    "channel '",
    "has not been initialized",
    "does not require initialization",
    "is already initialized",
    "access denied",
    "chaincode definition"
  ]

  predicate IsKeywordKind(k: Kind) {
    k == KindConflict || k == KindAlreadyExists || k == KindNotFound || k == KindUnauthorized
  }

  type KeywordKind = k: Kind | IsKeywordKind(k) witness KindConflict

  /** The keywords in the order they are tried. */
  const KEYWORDS: seq<(string, KeywordKind)> := [
    ("version conflict", KindConflict),
    ("already exists", KindAlreadyExists),
    ("not found", KindNotFound),
    ("does not exist", KindNotFound),
    ("unauthorized", KindUnauthorized),
    ("forbidden", KindUnauthorized),
    ("permission denied", KindUnauthorized)
  ]

  predicate MentionsAny(m: string, phrases: seq<string>) {
    phrases != [] && (Contains(m, phrases[0]) || MentionsAny(m, phrases[1..]))
  }

  function FirstKeyword(m: string, table: seq<(string, KeywordKind)>): Option<KeywordKind> {
    if table == [] then None
    else if Contains(m, table[0].0) then Some(table[0].1)
    else FirstKeyword(m, table[1..])
  }

  function LegacyKind(msg: string): Option<KeywordKind> {
    var m := ToLower(msg);
    if MentionsAny(m, PEER_SIDE_PHRASES) then None else FirstKeyword(m, KEYWORDS)
  }

  /** How text without a code is classified: not at all, or by keywords. */
  datatype Fallback = Strict | Keywords(kindOf: string -> Option<KeywordKind>)

  function FallbackFor(strict: bool): Fallback {
    if strict then Strict else Keywords(LegacyKind)
  }

  // ---- what the search through the candidate messages should find ----

  function GatewayDetails(details: seq<AnyDetail>): seq<ErrorDetail> {
    if details == [] then []
    else
      var last := details[|details| - 1];
      GatewayDetails(details[..|details| - 1]) + if last.Gateway? then [last.detail] else []
  }

  const EVALUATE_PREFIX := "evaluate call to endorser returned error: "

  function Messages(details: seq<ErrorDetail>): (r: seq<string>)
    ensures |r| == |details| && forall i :: 0 <= i < |r| ==> r[i] == details[i].message
  {
    seq(|details|, i requires 0 <= i < |details| => details[i].message)
  }

  function Candidates(st: Status, details: seq<ErrorDetail>): seq<string> {
    Messages(details) + if st.message != "" then [TrimPrefix(st.message, EVALUATE_PREFIX)] else []
  }

  /** The position of the first text that satisfies `p`, or the length when none does. */
  function FirstWhere(texts: seq<string>, p: string -> bool): nat {
    if texts == [] || p(texts[0]) then 0 else 1 + FirstWhere(texts[1..], p)
  }

  lemma {:induction false} FirstWhereSpec(texts: seq<string>, p: string -> bool)
    ensures var i := FirstWhere(texts, p); i <= |texts| && (i < |texts| ==> p(texts[i]))
    ensures forall j :: 0 <= j < FirstWhere(texts, p) ==> !p(texts[j])
  {
    if texts != [] && !p(texts[0]) {
      FirstWhereSpec(texts[1..], p);
      assert forall j :: 0 < j < FirstWhere(texts, p) ==> texts[j] == texts[1..][j - 1];
    }
  }

  lemma {:induction false} FirstIs(texts: seq<string>, p: string -> bool, i: nat)
    requires i <= |texts| && (i < |texts| ==> p(texts[i]))
    requires forall j :: 0 <= j < i ==> !p(texts[j])
    ensures FirstWhere(texts, p) == i
  {
    if i > 0 {
      FirstIs(texts[1..], p, i - 1);
    }
  }

  predicate Coded(m: string) {
    Ccerr.Parse(m).ok
  }

  predicate IsResponse(m: string) {
    HasPrefix(m, Ccerr.RESPONSE_PREFIX)
  }

  function CodedError(m: string): Error
    requires Coded(m)
  {
    Ccerr.ParseFailure(m);
    NewError(CcKind(Ccerr.Parse(m).code), SourceChaincode, Verbatim(Ccerr.Parse(m).text))
  }

  /** The error of the first coded text, if there is one. */
  function CodedIn(texts: seq<string>): Option<Error> {
    var i := FirstWhere(texts, Coded);
    FirstWhereSpec(texts, Coded);
    if i < |texts| then Some(CodedError(texts[i])) else None
  }

  function ResponseError(text: string, fallback: Fallback): Error {
    var keyword := if fallback.Strict? then None else fallback.kindOf(text);
    NewError(if keyword.Some? then keyword.value else KindChaincode, SourceChaincode, Verbatim(text))
  }

  /** The priority the search promises: the first coded candidate; failing that, the first
      "chaincode response" candidate; failing that, unless strict, the first detail with a keyword. */
  function ChaincodeVerdict(st: Status, details: seq<ErrorDetail>, fallback: Fallback): Option<Error> {
    if st.code != Aborted && st.code != Unknown then None
    else
      var texts := Candidates(st, details);
      var coded := CodedIn(texts);
      if coded.Some? then coded else UncodedVerdict(texts, Messages(details), fallback)
  }

  function UncodedVerdict(texts: seq<string>, messages: seq<string>, fallback: Fallback): Option<Error> {
    var i := FirstWhere(texts, IsResponse);
    if i < |texts| then Some(ResponseError(Cut(texts[i], ", ").1, fallback))
    else if fallback.Strict? then None
    else KeywordVerdict(messages, fallback)
  }

  function KeywordVerdict(messages: seq<string>, fallback: Fallback): Option<Error>
    requires fallback.Keywords?
  {
    var p := (m: string) => fallback.kindOf(m).Some?;
    var k := FirstWhere(messages, p);
    FirstWhereSpec(messages, p);
    if k < |messages| then Some(NewError(fallback.kindOf(messages[k]).value, SourceChaincode, Verbatim(messages[k]))) else None
  }

  // ---- classification ----

  function Convert(err: GoError): Status {
    var st := match err
      case Rpc(status, _, _, _) => status
      case _ => Status(Unknown, ErrorText(err), []);
    if err.Rpc? && err.isCanceled && st.code == Unknown then Status(Canceled, err.text, [])
    else if err.Rpc? && err.isDeadlineExceeded && st.code == Unknown then Status(DeadlineExceeded, err.text, [])
    else st
  }

  function KindFromCode(code: Code, ph: Phase): Kind {
    match code
    case InvalidArgument => KindInvalidArgument
    case PermissionDenied | Unauthenticated => KindUnauthorized
    case NotFound => KindNotFound
    case DeadlineExceeded => KindTimeout
    case Canceled => KindCanceled
    case Unavailable => KindUnavailable
    case FailedPrecondition => KindFailedPrecondition
    case Aborted | Unknown => if ph == PhaseEndorse || ph == PhaseEvaluate then KindEndorsement else KindInternal
    case _ => KindInternal
  }

  /** The codes with which the orderer says that nothing was ordered. */
  predicate IsRejection(code: Code) {
    code == InvalidArgument || code == FailedPrecondition || code == Aborted
  }

  /** An error without any chaincode wording. */
  function NetworkError(st: Status, ph: Phase): Error {
    match ph
    case PhaseCommitStatus =>
      NewError(KindOutcomeUnknown, SourceNetwork, CommitUnconfirmed(st.message)).(outcomeUnknown := true)
    case PhaseSubmit =>
      if IsRejection(st.code) then NewError(KindSubmit, SourceNetwork, Verbatim(st.message))
      else NewError(KindOutcomeUnknown, SourceNetwork, SubmitIncomplete(st.message)).(outcomeUnknown := true)
    case _ => NewError(KindFromCode(st.code, ph), SourceNetwork, Verbatim(st.message))
  }

  function CommitFailure(txID: string, vc: ValidationCode, cause: GoError): Error {
    var e := match vc
      case MVCC_READ_CONFLICT => NewError(KindConflict, SourceNetwork, ReadConflict(vc))
      case PHANTOM_READ_CONFLICT => NewError(KindConflict, SourceNetwork, ReadConflict(vc))
      case _ => NewError(KindCommitFailed, SourceNetwork, CommittedInvalid(vc));
    e.(txID := txID, validationCode := vc, cause := cause)
  }

  /** What `classify` returns for a non-nil error. */
  function Classified(err: GoError, txID: string, ph: Phase, fallback: Fallback): Error
    requires !err.Nil?
  {
    if err.Sdk? then err.e
    else if err.Commit? then CommitFailure(err.txID, err.vc, err)
    else
      var st := Convert(err);
      var details := GatewayDetails(st.details);
      var found := if ph == PhaseEvaluate || ph == PhaseEndorse then ChaincodeVerdict(st, details, fallback) else None;
      var e := if found.Some? then found.value else NetworkError(st, ph);
      e.(txID := txID, grpcCode := st.code, details := details, cause := err)
  }

  // ---- the classifier as the source runs it ----

  method CollectDetails(st: Status) returns (out: seq<ErrorDetail>)
    ensures out == GatewayDetails(st.details)
  {
    out := [];
    for i := 0 to |st.details|
      invariant out == GatewayDetails(st.details[..i])
    {
      assert st.details[..i + 1][..i] == st.details[..i];
      match st.details[i] {
        case Gateway(detail) => out := out + [detail];
        case Foreign(_) =>
      }
    }
    assert st.details[..|st.details|] == st.details;
  }

  method ChaincodeError(st: Status, details: seq<ErrorDetail>, fallback: Fallback) returns (e: Option<Error>)
    ensures e == ChaincodeVerdict(st, details, fallback)
  {
    if st.code != Aborted && st.code != Unknown {
      return None;
    }
    var candidates: seq<string> := [];
    for i := 0 to |details|
      invariant candidates == Messages(details)[..i]
    {
      candidates := candidates + [details[i].message];
    }
    if st.message != "" {
      candidates := candidates + [TrimPrefix(st.message, EVALUATE_PREFIX)];
    }
    assert candidates == Candidates(st, details);
    e := CodedCandidate(candidates);
    if e.None? {
      e := ResponseCandidate(candidates, fallback);
      if e.None? && !(fallback.Strict? || |details| == 0) {
        e := KeywordDetail(details, fallback.kindOf);
      }
    }
  }

  /** The first stage of the search: a code is authoritative. */
  method CodedCandidate(candidates: seq<string>) returns (e: Option<Error>)
    ensures e == CodedIn(candidates)
  {
    var i := Position(candidates, Coded);
    FirstWhereSpec(candidates, Coded);
    return if i < |candidates| then Some(CodedError(candidates[i])) else None;
  }

  /** The loop of the first two stages. */
  method Position(texts: seq<string>, p: string -> bool) returns (i: nat)
    ensures i == FirstWhere(texts, p)
  {
    i := 0;
    while i < |texts| && !p(texts[i])
      invariant i <= |texts| && forall j :: 0 <= j < i ==> !p(texts[j])
    {
      i := i + 1;
    }
    FirstIs(texts, p, i);
  }

  /** The second stage: a response with a status is always the chaincode's. */
  method ResponseCandidate(candidates: seq<string>, fallback: Fallback) returns (e: Option<Error>)
    ensures var i := FirstWhere(candidates, IsResponse);
            && i <= |candidates|
            && e == if i < |candidates| then Some(ResponseError(Cut(candidates[i], ", ").1, fallback)) else None
  {
    var i := Position(candidates, IsResponse);
    FirstWhereSpec(candidates, IsResponse);
    if i == |candidates| {
      return None;
    }
    var (_, text, _) := Cut(candidates[i], ", ");
    if fallback.Keywords? {
      var k := fallback.kindOf(text);
      if k.Some? {
        return Some(NewError(k.value, SourceChaincode, Verbatim(text)));
      }
    }
    return Some(NewError(KindChaincode, SourceChaincode, Verbatim(text)));
  }

  /** The third stage: keywords in the peers' own messages. */
  method KeywordDetail(details: seq<ErrorDetail>, kindOf: string -> Option<KeywordKind>) returns (e: Option<Error>)
    ensures var p := (m: string) => kindOf(m).Some?;
            var i := FirstWhere(Messages(details), p);
            && i <= |details| && (i < |details| ==> kindOf(details[i].message).Some?)
            && e == if i < |details|
                    then Some(NewError(kindOf(details[i].message).value, SourceChaincode, Verbatim(details[i].message)))
                    else None
  {
    ghost var p := (m: string) => kindOf(m).Some?;
    for i := 0 to |details|
      invariant forall j :: 0 <= j < i ==> !p(Messages(details)[j])
    {
      var k := kindOf(details[i].message);
      if k.Some? {
        FirstIs(Messages(details), p, i);
        return Some(NewError(k.value, SourceChaincode, Verbatim(details[i].message)));
      }
    }
    FirstIs(Messages(details), p, |details|);
    return None;
  }

  method Classify(err: GoError, txID: string, ph: Phase, fallback: Fallback) returns (r: Option<Error>)
    ensures r == if err.Nil? then None else Some(Classified(err, txID, ph, fallback))
  {
    if err.Nil? {
      return None;
    }
    if err.Sdk? {
      return Some(err.e);
    }
    if err.Commit? {
      return Some(CommitFailure(err.txID, err.vc, err));
    }
    var st := if err.Rpc? then err.status else Status(Unknown, ErrorText(err), []);
    if err.Rpc? && err.isCanceled && st.code == Unknown {
      st := Status(Canceled, err.text, []);
    } else if err.Rpc? && err.isDeadlineExceeded && st.code == Unknown {
      st := Status(DeadlineExceeded, err.text, []);
    }
    var code := st.code;
    var details := CollectDetails(st);

    if ph == PhaseEvaluate || ph == PhaseEndorse {
      var found := ChaincodeError(st, details, fallback);
      if found.Some? {
        var e := found.value;
        return Some(e.(txID := txID, grpcCode := code, details := details, cause := err));
      }
    }
    var e: Error;
    match ph {
      case PhaseCommitStatus =>
        e := NewError(KindOutcomeUnknown, SourceNetwork, CommitUnconfirmed(st.message));
        e := e.(outcomeUnknown := true);
      case PhaseSubmit =>
        if code == InvalidArgument || code == FailedPrecondition || code == Aborted {
          e := NewError(KindSubmit, SourceNetwork, Verbatim(st.message));
        } else {
          e := NewError(KindOutcomeUnknown, SourceNetwork, SubmitIncomplete(st.message));
          e := e.(outcomeUnknown := true);
        }
      case _ =>
        e := NewError(KindFromCode(code, ph), SourceNetwork, Verbatim(st.message));
    }
    e := e.(txID := txID, grpcCode := code, details := details, cause := err);
    return Some(e);
  }
}
