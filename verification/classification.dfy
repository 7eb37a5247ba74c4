/** What the classifier promises, over every status code, phase, strictness and list of details. */
module Classification {
  import opened Wrappers
  import opened Text
  import opened Errors
  import Ccerr

  /** The library's own errors: nothing in them was classified before. */
  predicate Fresh(err: GoError) {
    err.Rpc? || err.Plain?
  }

  predicate BeforeSubmit(ph: Phase) {
    ph == PhaseEvaluate || ph == PhaseEndorse
  }

  predicate MayBeChaincode(err: GoError, ph: Phase) {
    Fresh(err) && BeforeSubmit(ph) && (Convert(err).code == Aborted || Convert(err).code == Unknown)
  }

  function Details(err: GoError): seq<ErrorDetail> {
    GatewayDetails(Convert(err).details)
  }

  function Texts(err: GoError): seq<string> {
    Candidates(Convert(err), Details(err))
  }

  // ---- retry guidance ----

  predicate ChaincodeKind(k: Kind) {
    match k
    case KindInvalidArgument | KindNotFound | KindAlreadyExists | KindConflict | KindUnauthorized
       | KindFailedPrecondition | KindChaincode => true
    case _ => false
  }

  /** What every error the search finds in chaincode wording looks like. */
  predicate FromChaincode(e: Error) {
    e.source == SourceChaincode && !e.outcomeUnknown && e.code == KindCode(e.kind) && e.validationCode == VALID
    && ChaincodeKind(e.kind)
  }

  lemma VerdictIsChaincode(st: Status, details: seq<ErrorDetail>, fallback: Fallback)
    ensures var found := ChaincodeVerdict(st, details, fallback); found.Some? ==> FromChaincode(found.value)
  {
    CodedIsChaincode(Candidates(st, details));
    UncodedIsChaincode(Candidates(st, details), Messages(details), fallback);
  }

  lemma CodedIsChaincode(texts: seq<string>)
    ensures var found := CodedIn(texts); found.Some? ==> FromChaincode(found.value)
  {
    var i := FirstWhere(texts, Coded);
    FirstWhereSpec(texts, Coded);
    if i < |texts| {
      CodeIsChaincode(texts[i]);
    }
  }

  lemma CodeIsChaincode(m: string)
    requires Coded(m)
    ensures FromChaincode(CodedError(m))
  {
  }

  lemma CodedWhenSome(texts: seq<string>)
    ensures CodedIn(texts).Some? <==> exists m :: m in texts && Coded(m)
  {
    FirstWhereFinds(texts, Coded);
  }

  lemma UncodedIsChaincode(texts: seq<string>, messages: seq<string>, fallback: Fallback)
    ensures var found := UncodedVerdict(texts, messages, fallback); found.Some? ==> FromChaincode(found.value)
  {
    var i := FirstWhere(texts, IsResponse);
    if i < |texts| {
      FallbackKind(fallback, Cut(texts[i], ", ").1);
    } else if fallback.Keywords? {
      var p := (m: string) => fallback.kindOf(m).Some?;
      FirstWhereSpec(messages, p);
      if FirstWhere(messages, p) < |messages| {
        FallbackKind(fallback, messages[FirstWhere(messages, p)]);
      }
    }
  }

  lemma FallbackKind(fallback: Fallback, m: string)
    ensures fallback.Keywords? && fallback.kindOf(m).Some? ==> IsKeywordKind(fallback.kindOf(m).value)
  {
    if fallback.Keywords? && fallback.kindOf(m).Some? {
      var k: KeywordKind := fallback.kindOf(m).value;
    }
  }

  /** The outcome is open exactly after the orderer may have taken the transaction; such an error is never
      retryable, and the kinds that invite a retry of the network call arise only before submit. */
  lemma RetryGuidance(err: GoError, txID: string, ph: Phase, fallback: Fallback)
    requires Fresh(err)
    ensures var e := Classified(err, txID, ph, fallback);
            && (e.outcomeUnknown <==> ph == PhaseCommitStatus || (ph == PhaseSubmit && !IsRejection(Convert(err).code)))
            && (e.outcomeUnknown <==> e.kind == KindOutcomeUnknown)
            && (e.outcomeUnknown ==> !e.Retryable())
            && (e.kind == KindTimeout || e.kind == KindUnavailable || e.kind == KindEndorsement ==> BeforeSubmit(ph))
            && (ph == PhaseSubmit ==> (e.Retryable() <==> IsRejection(Convert(err).code)))
            && e.code == KindCode(e.kind) && e.txID == txID && e.cause == err
            && e.grpcCode == Convert(err).code && e.details == Details(err) && e.validationCode == VALID
  {
    var st := Convert(err);
    var found := if BeforeSubmit(ph) then ChaincodeVerdict(st, Details(err), fallback) else None;
    VerdictIsChaincode(st, Details(err), fallback);
    GuidanceOf(st, ph, if found.Some? then found.value else NetworkError(st, ph), found.Some?);
  }

  lemma GuidanceOf(st: Status, ph: Phase, e: Error, fromChaincode: bool)
    requires fromChaincode ==> BeforeSubmit(ph) && FromChaincode(e)
    requires !fromChaincode ==> e == NetworkError(st, ph)
    ensures && (e.outcomeUnknown <==> ph == PhaseCommitStatus || (ph == PhaseSubmit && !IsRejection(st.code)))
            && (e.outcomeUnknown <==> e.kind == KindOutcomeUnknown)
            && (e.outcomeUnknown ==> !e.Retryable())
            && (e.kind == KindTimeout || e.kind == KindUnavailable || e.kind == KindEndorsement ==> BeforeSubmit(ph))
            && (ph == PhaseSubmit ==> (e.Retryable() <==> IsRejection(st.code)))
            && e.code == KindCode(e.kind) && e.validationCode == VALID
  {
  }

  /** A failed commit is retryable exactly when it was a read conflict. */
  lemma CommitFailureGuidance(txID: string, vc: ValidationCode, cause: GoError)
    ensures var e := CommitFailure(txID, vc, cause);
            && !e.outcomeUnknown && e.txID == txID && e.validationCode == vc && e.code == KindCode(e.kind)
            && (e.Retryable() <==> vc == MVCC_READ_CONFLICT || vc == PHANTOM_READ_CONFLICT)
  {
  }

  // ---- order of details ----

  lemma FirstWhereFinds(texts: seq<string>, p: string -> bool)
    ensures FirstWhere(texts, p) < |texts| <==> exists m :: m in texts && p(m)
  {
    FirstWhereSpec(texts, p);
    var i := FirstWhere(texts, p);
    if i < |texts| {
      assert texts[i] in texts;
    }
  }

  lemma SourceByVerdict(err: GoError, txID: string, ph: Phase, fallback: Fallback)
    requires Fresh(err)
    ensures Classified(err, txID, ph, fallback).source
         == if BeforeSubmit(ph) && ChaincodeVerdict(Convert(err), Details(err), fallback).Some? then SourceChaincode
            else SourceNetwork
  {
    VerdictIsChaincode(Convert(err), Details(err), fallback);
  }

  lemma {:induction false} DetailsOf(raw: seq<AnyDetail>, d: ErrorDetail)
    ensures d in GatewayDetails(raw) <==> Gateway(d) in raw
  {
    if raw != [] {
      DetailsOf(raw[..|raw| - 1], d);
      assert raw == raw[..|raw| - 1] + [raw[|raw| - 1]];
    }
  }

  /** Which layer an error is blamed on does not depend on the order in which peers reported. */
  lemma SourceIgnoresDetailOrder(err: GoError, shuffled: seq<AnyDetail>, txID: string, ph: Phase, fallback: Fallback)
    requires err.Rpc? && multiset(shuffled) == multiset(err.status.details)
    ensures var other := err.(status := err.status.(details := shuffled));
            Classified(other, txID, ph, fallback).source == Classified(err, txID, ph, fallback).source
  {
    var other := err.(status := err.status.(details := shuffled));
    SourceByVerdict(err, txID, ph, fallback);
    SourceByVerdict(other, txID, ph, fallback);
    forall d: AnyDetail ensures d in shuffled <==> d in err.status.details {
      assert d in multiset(shuffled) <==> d in multiset(err.status.details);
    }
    SameConversion(err, other);
    SameMessages(Details(err), Details(other));
    SameVerdictKind(Convert(err), Details(err), Convert(other), Details(other), fallback);
  }

  lemma SameConversion(err: GoError, other: GoError)
    requires err.Rpc? && other.Rpc? && other == err.(status := err.status.(details := other.status.details))
    requires forall d :: d in err.status.details <==> d in other.status.details
    ensures Convert(other).code == Convert(err).code && Convert(other).message == Convert(err).message
    ensures forall d :: d in Details(err) <==> d in Details(other)
  {
    forall d ensures d in Details(err) <==> d in Details(other) {
      DetailsOf(Convert(err).details, d);
      DetailsOf(Convert(other).details, d);
    }
  }

  lemma SameMessages(ds: seq<ErrorDetail>, ds': seq<ErrorDetail>)
    requires forall d :: d in ds <==> d in ds'
    ensures forall m :: m in Messages(ds) <==> m in Messages(ds')
  {
    forall m | m in Messages(ds) ensures m in Messages(ds') {
      MessageStays(ds, ds', m);
    }
    forall m | m in Messages(ds') ensures m in Messages(ds) {
      MessageStays(ds', ds, m);
    }
  }

  lemma MessageStays(ds: seq<ErrorDetail>, ds': seq<ErrorDetail>, m: string)
    requires m in Messages(ds) && forall d :: d in ds ==> d in ds'
    ensures m in Messages(ds')
  {
    var i :| 0 <= i < |ds| && Messages(ds)[i] == m;
    assert ds[i] in ds;
    var j :| 0 <= j < |ds'| && ds'[j] == ds[i];
    assert Messages(ds')[j] == m;
  }

  lemma SameVerdictKind(st: Status, ds: seq<ErrorDetail>, st': Status, ds': seq<ErrorDetail>, fallback: Fallback)
    requires st.code == st'.code
    requires st.message == st'.message && forall m :: m in Messages(ds) <==> m in Messages(ds')
    ensures ChaincodeVerdict(st, ds, fallback).Some? <==> ChaincodeVerdict(st', ds', fallback).Some?
  {
    var texts, texts' := Candidates(st, ds), Candidates(st', ds');
    forall m ensures m in texts <==> m in texts' {}
    CodedWhenSome(texts);
    CodedWhenSome(texts');
    SameUncoded(texts, Messages(ds), texts', Messages(ds'), fallback);
  }

  lemma SameUncoded(texts: seq<string>, messages: seq<string>, texts': seq<string>, messages': seq<string>, fallback: Fallback)
    requires forall m :: m in texts <==> m in texts'
    requires forall m :: m in messages <==> m in messages'
    ensures UncodedVerdict(texts, messages, fallback).Some? <==> UncodedVerdict(texts', messages', fallback).Some?
  {
    FirstWhereFinds(texts, IsResponse);
    FirstWhereFinds(texts', IsResponse);
    if fallback.Keywords? {
      var p := (m: string) => fallback.kindOf(m).Some?;
      FirstWhereFinds(messages, p);
      FirstWhereFinds(messages', p);
    }
  }

  // ---- strict against lenient ----

  /** The keyword search decides: no coded candidate, and the first response's text has a keyword, or there
      is no response and some detail has one. */
  predicate KeywordDecides(err: GoError, ph: Phase, kindOf: string -> Option<KeywordKind>) {
    && MayBeChaincode(err, ph)
    && CodedIn(Texts(err)).None?
    && KeywordAmong(Texts(err), Messages(Details(err)), kindOf)
  }

  predicate KeywordAmong(texts: seq<string>, messages: seq<string>, kindOf: string -> Option<KeywordKind>) {
    var i := FirstWhere(texts, IsResponse);
    if i < |texts| then kindOf(Cut(texts[i], ", ").1).Some?
    else FirstWhere(messages, (m: string) => kindOf(m).Some?) < |messages|
  }

  lemma UncodedStrictness(texts: seq<string>, messages: seq<string>, kindOf: string -> Option<KeywordKind>)
    ensures var s, l := UncodedVerdict(texts, messages, Strict), UncodedVerdict(texts, messages, Keywords(kindOf));
            && (s != l <==> KeywordAmong(texts, messages, kindOf))
            && (s != l ==> l.Some? && IsKeywordKind(l.value.kind) && l.value.source == SourceChaincode && !l.value.outcomeUnknown)
            && (s != l && s.Some? ==> s.value == l.value.(kind := KindChaincode, code := KindCode(KindChaincode)))
  {
    UncodedIsChaincode(texts, messages, Keywords(kindOf));
    var i := FirstWhere(texts, IsResponse);
    var p := (m: string) => kindOf(m).Some?;
    FirstWhereSpec(messages, p);
    if i < |texts| {
      FallbackKind(Keywords(kindOf), Cut(texts[i], ", ").1);
    } else if FirstWhere(messages, p) < |messages| {
      FallbackKind(Keywords(kindOf), messages[FirstWhere(messages, p)]);
    }
  }

  /** Strictness matters exactly when a keyword decides, whatever the keywords. It then turns the keyword's kind
      into `chaincode` with the same text, or into `endorsement`, and touches nothing a caller reconciles by. */
  lemma StrictOnlyDropsKeywords(err: GoError, txID: string, ph: Phase, kindOf: string -> Option<KeywordKind>)
    requires !err.Nil?
    ensures var s, l := Classified(err, txID, ph, Strict), Classified(err, txID, ph, Keywords(kindOf));
            && (s != l <==> KeywordDecides(err, ph, kindOf))
            && (s != l ==> IsKeywordKind(l.kind) && l.source == SourceChaincode)
            && (s != l ==> || (s.kind == KindChaincode && s.source == SourceChaincode && s.message == l.message)
                           || (s.kind == KindEndorsement && s.source == SourceNetwork
                               && s.message == Verbatim(Convert(err).message)))
            && s.txID == l.txID && s.grpcCode == l.grpcCode && s.details == l.details && s.cause == l.cause
            && s.outcomeUnknown == l.outcomeUnknown && s.validationCode == l.validationCode
  {
    if MayBeChaincode(err, ph) {
      VerdictStrictness(Convert(err), Details(err), kindOf);
    }
  }

  lemma VerdictStrictness(st: Status, details: seq<ErrorDetail>, kindOf: string -> Option<KeywordKind>)
    requires st.code == Aborted || st.code == Unknown
    ensures var s, l := ChaincodeVerdict(st, details, Strict), ChaincodeVerdict(st, details, Keywords(kindOf));
            && (s != l <==> CodedIn(Candidates(st, details)).None?
                            && KeywordAmong(Candidates(st, details), Messages(details), kindOf))
            && (s != l ==> l.Some? && IsKeywordKind(l.value.kind) && l.value.source == SourceChaincode && !l.value.outcomeUnknown)
            && (s != l && s.Some? ==> s.value == l.value.(kind := KindChaincode, code := KindCode(KindChaincode)))
  {
    UncodedStrictness(Candidates(st, details), Messages(details), kindOf);
  }

  // ---- the keywords themselves ----

  /** Upper or lower case makes no difference to the keyword search. */
  lemma KeywordsIgnoreCase(msg: string)
    ensures LegacyKind(ToLower(msg)) == LegacyKind(msg)
  {
    assert forall c :: LowerChar(LowerChar(c)) == LowerChar(c);
    assert ToLower(ToLower(msg)) == ToLower(msg);
  }

  lemma {:induction false} MentionsAnyOf(m: string, phrases: seq<string>, p: string)
    requires p in phrases && Contains(m, p)
    ensures MentionsAny(m, phrases)
  {
    if phrases[0] != p {
      MentionsAnyOf(m, phrases[1..], p);
    }
  }

  /** Peer-side wording anywhere in a message, in any case, keeps it from being read as chaincode wording. */
  lemma PeerWordingIsNeverClassified(left: string, p: string, right: string, msg: string)
    requires p in PEER_SIDE_PHRASES && ToLower(msg) == left + p + right
    ensures LegacyKind(msg).None?
  {
    assert p[..] == p;
    assert OccursAt(p, p, 0);
    ContainsInContext(left, p, right, p);
    MentionsAnyOf(ToLower(msg), PEER_SIDE_PHRASES, p);
  }

  // ---- end to end ----

  /** A text is a rendered chaincode error, bare or behind a response prefix. */
  predicate Carries(text: string, number: string, c: string, message: string) {
    var rendered := Ccerr.Error(c, message).Render();
    text == rendered || (text == Ccerr.RESPONSE_PREFIX + number + ", " + rendered && !Contains(number, ", "))
  }

  /** A chaincode that returns `ccerr.New(c, message)` is seen by the caller as the kind of `c` with the
      trimmed message, bare or behind "chaincode response NNN, ", unless an earlier detail already parses. */
  lemma CodedErrorReachesItsKind(err: GoError, ph: Phase, txID: string, fallback: Fallback,
                                 i: nat, number: string, c: string, message: string)
    requires MayBeChaincode(err, ph) && i < |Details(err)| && c in Ccerr.KNOWN
    requires forall j :: 0 <= j < i ==> !Coded(Details(err)[j].message)
    requires Carries(Details(err)[i].message, number, c, message)
    ensures var e := Classified(err, txID, ph, fallback);
            && e.kind == CcKind(c) && e.source == SourceChaincode && e.message == Verbatim(TrimSpace(message))
            && e.txID == txID && !e.outcomeUnknown
  {
    Ccerr.ParseRendered(c, message);
    Ccerr.ParseWrapped(number, c, message);
    CodedDetailDecides(err, ph, txID, fallback, i);
  }

  /** The same for a status text, with or without the wording an evaluate call puts in front, when no detail
      parses. */
  lemma CodedStatusReachesItsKind(err: GoError, ph: Phase, txID: string, fallback: Fallback,
                                  text: string, number: string, c: string, message: string)
    requires MayBeChaincode(err, ph) && c in Ccerr.KNOWN && Carries(text, number, c, message)
    requires Convert(err).message == text || Convert(err).message == "evaluate call to endorser returned error: " + text
    requires forall j :: 0 <= j < |Details(err)| ==> !Coded(Details(err)[j].message)
    ensures var e := Classified(err, txID, ph, fallback);
            && e.kind == CcKind(c) && e.source == SourceChaincode && e.message == Verbatim(TrimSpace(message))
            && e.txID == txID && !e.outcomeUnknown
  {
    Ccerr.ParseRendered(c, message);
    Ccerr.ParseWrapped(number, c, message);
    CarriedStart(text, number, c, message);
    Unprefixed(text, EVALUATE_PREFIX);
    CodedStatusDecides(err, ph, txID, fallback, text);
  }

  lemma CarriedStart(text: string, number: string, c: string, message: string)
    requires c in Ccerr.KNOWN && Carries(text, number, c, message)
    ensures text != "" && text[0] != EVALUATE_PREFIX[0]
  {
    Ccerr.KnownIsWord(c);
  }

  lemma Unprefixed(text: string, prefix: string)
    requires text != "" && prefix != "" && text[0] != prefix[0]
    ensures TrimPrefix(text, prefix) == text && TrimPrefix(prefix + text, prefix) == text
  {
    Ccerr.FirstCharDiffers(text, prefix);
    assert (prefix + text)[..|prefix|] == prefix;
  }

  lemma CodedStatusDecides(err: GoError, ph: Phase, txID: string, fallback: Fallback, text: string)
    requires MayBeChaincode(err, ph) && Coded(text)
    requires Convert(err).message != "" && TrimPrefix(Convert(err).message, EVALUATE_PREFIX) == text
    requires forall j :: 0 <= j < |Details(err)| ==> !Coded(Details(err)[j].message)
    ensures var e, coded := Classified(err, txID, ph, fallback), CodedError(text);
            e.kind == coded.kind && e.source == coded.source && e.message == coded.message && e.txID == txID && !e.outcomeUnknown
  {
    LastCandidate(Convert(err), Details(err), text);
    FirstIs(Texts(err), Coded, |Details(err)|);
  }

  lemma LastCandidate(st: Status, details: seq<ErrorDetail>, text: string)
    requires st.message != "" && TrimPrefix(st.message, EVALUATE_PREFIX) == text
    ensures var texts := Candidates(st, details);
            && |texts| == |details| + 1 && texts[|details|] == text
            && forall j :: 0 <= j < |details| ==> texts[j] == details[j].message
  {
  }

  lemma CodedDetailDecides(err: GoError, ph: Phase, txID: string, fallback: Fallback, i: nat)
    requires MayBeChaincode(err, ph) && i < |Details(err)| && Coded(Details(err)[i].message)
    requires forall j :: 0 <= j < i ==> !Coded(Details(err)[j].message)
    ensures var e, coded := Classified(err, txID, ph, fallback), CodedError(Details(err)[i].message);
            e.kind == coded.kind && e.source == coded.source && e.message == coded.message && e.txID == txID && !e.outcomeUnknown
  {
    FirstDetail(Convert(err), Details(err), i);
    FirstIs(Texts(err), Coded, i);
  }

  lemma FirstDetail(st: Status, details: seq<ErrorDetail>, i: nat)
    requires i < |details|
    ensures |Candidates(st, details)| >= |details|
    ensures forall j :: 0 <= j <= i ==> Candidates(st, details)[j] == details[j].message
  {
  }

  function Reports(first: ErrorDetail, second: ErrorDetail): GoError {
    Rpc(Status(Aborted, "", [Gateway(first), Gateway(second)]), false, false, "")
  }

  /** Kinds, unlike sources, follow the order: the same two peer reports, swapped, turn a retryable conflict
      into a permanent error. */
  lemma RetryGuidanceFollowsDetailOrder(a: ErrorDetail, b: ErrorDetail, txID: string, fallback: Fallback)
    requires a.message == Ccerr.Error(Ccerr.CONFLICT, "v").Render()
    requires b.message == Ccerr.Error(Ccerr.NOT_FOUND, "k").Render()
    ensures Classified(Reports(a, b), txID, PhaseEndorse, fallback).Retryable()
    ensures !Classified(Reports(b, a), txID, PhaseEndorse, fallback).Retryable()
  {
    FirstReportDecides(a, b, txID, fallback, Ccerr.CONFLICT, "v");
    FirstReportDecides(b, a, txID, fallback, Ccerr.NOT_FOUND, "k");
  }

  lemma FirstReportDecides(a: ErrorDetail, b: ErrorDetail, txID: string, fallback: Fallback, c: string, message: string)
    requires c in Ccerr.KNOWN && a.message == Ccerr.Error(c, message).Render()
    ensures var e := Classified(Reports(a, b), txID, PhaseEndorse, fallback);
            e.kind == CcKind(c) && !e.outcomeUnknown
  {
    TwoDetails(a, b);
    CodedErrorReachesItsKind(Reports(a, b), PhaseEndorse, txID, fallback, 0, "", c, message);
  }

  lemma TwoDetails(a: ErrorDetail, b: ErrorDetail)
    ensures GatewayDetails([Gateway(a), Gateway(b)]) == [a, b]
  {
    assert GatewayDetails([]) == [];
    assert [Gateway(a)][..0] == [] && GatewayDetails([Gateway(a)]) == [a];
    assert [Gateway(a), Gateway(b)][..1] == [Gateway(a)];
  }
}
