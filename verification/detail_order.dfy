/** How much of a classified error depends on the order in which the peers' reports arrive. */
module DetailOrder {
  import opened Wrappers
  import opened Text
  import opened Errors
  import opened Classification

  // ---- a search in stages, whatever it looks for ----

  /** What the first text that yields something yields. */
  function FirstSome<T>(texts: seq<string>, f: string -> Option<T>): Option<T> {
    if texts == [] then None
    else if f(texts[0]).Some? then f(texts[0])
    else FirstSome(texts[1..], f)
  }

  /** What a text yields at each of the three stages. */
  datatype Stages<T> = Stages(coded: string -> Option<T>, response: string -> Option<T>, keyword: string -> Option<T>)

  function Search<T>(stages: Stages<T>, reported: seq<string>, status: seq<string>): Option<T> {
    var coded := FirstSome(reported + status, stages.coded);
    if coded.Some? then coded
    else
      var response := FirstSome(reported + status, stages.response);
      if response.Some? then response else FirstSome(reported, stages.keyword)
  }

  ghost predicate Found<T>(texts: seq<string>, f: string -> Option<T>) {
    exists m :: m in texts && f(m).Some?
  }

  ghost predicate Agree<T>(texts: seq<string>, f: string -> Option<T>) {
    forall m, m' :: m in texts && m' in texts && f(m).Some? && f(m').Some? ==> f(m) == f(m')
  }

  /** Reports decide at the first stage that finds one, unless the status text decides at that stage already
      without them; then all reports this stage finds agree. */
  ghost predicate DecidersAgree<T>(stages: Stages<T>, reported: seq<string>, status: seq<string>) {
    if Found(reported, stages.coded) then Agree(reported, stages.coded)
    else if Found(status, stages.coded) then true
    else if Found(reported, stages.response) then Agree(reported, stages.response)
    else if Found(status, stages.response) then true
    else Agree(reported, stages.keyword)
  }

  ghost predicate SameTexts(texts: seq<string>, texts': seq<string>) {
    forall m :: m in texts <==> m in texts'
  }

  lemma {:induction false} FirstSomeFinds<T>(texts: seq<string>, f: string -> Option<T>)
    ensures FirstSome(texts, f).Some? <==> Found(texts, f)
    ensures FirstSome(texts, f).Some? ==> exists m :: m in texts && f(m) == FirstSome(texts, f)
  {
    if texts != [] {
      FirstSomeFinds(texts[1..], f);
      assert texts == [texts[0]] + texts[1..];
    }
  }

  lemma {:induction false} FirstSomeOf<T>(texts: seq<string>, more: seq<string>, f: string -> Option<T>)
    ensures FirstSome(texts + more, f) == if Found(texts, f) then FirstSome(texts, f) else FirstSome(more, f)
  {
    if texts == [] {
      assert texts + more == more;
    } else {
      FirstSomeOf(texts[1..], more, f);
      assert (texts + more)[1..] == texts[1..] + more;
      assert texts == [texts[0]] + texts[1..];
    }
  }

  /** Texts that agree yield the same in any order. */
  lemma AgreeingTexts<T>(texts: seq<string>, texts': seq<string>, f: string -> Option<T>)
    requires SameTexts(texts, texts') && Agree(texts, f)
    ensures FirstSome(texts, f) == FirstSome(texts', f)
  {
    FirstSomeFinds(texts, f);
    FirstSomeFinds(texts', f);
  }

  lemma SearchByStage<T>(stages: Stages<T>, reported: seq<string>, status: seq<string>)
    ensures Search(stages, reported, status)
         == if Found(reported, stages.coded) then FirstSome(reported, stages.coded)
            else if Found(status, stages.coded) then FirstSome(status, stages.coded)
            else if Found(reported, stages.response) then FirstSome(reported, stages.response)
            else if Found(status, stages.response) then FirstSome(status, stages.response)
            else FirstSome(reported, stages.keyword)
  {
    FirstSomeOf(reported, status, stages.coded);
    FirstSomeOf(reported, status, stages.response);
    FirstSomeFinds(reported, stages.coded);
    FirstSomeFinds(status, stages.coded);
    FirstSomeFinds(reported, stages.response);
    FirstSomeFinds(status, stages.response);
  }

  lemma AgreementMeansSameSearch<T>(stages: Stages<T>, reported: seq<string>, reported': seq<string>, status: seq<string>)
    requires SameTexts(reported, reported') && DecidersAgree(stages, reported, status)
    ensures Search(stages, reported, status) == Search(stages, reported', status)
  {
    SearchByStage(stages, reported, status);
    SearchByStage(stages, reported', status);
    if Found(reported, stages.coded) {
      AgreeingTexts(reported, reported', stages.coded);
    } else if Found(status, stages.coded) {
    } else if Found(reported, stages.response) {
      AgreeingTexts(reported, reported', stages.response);
    } else if Found(status, stages.response) {
    } else {
      AgreeingTexts(reported, reported', stages.keyword);
    }
  }

  /** A text that yields something else than the first one does. */
  lemma Dissenter<T>(texts: seq<string>, f: string -> Option<T>) returns (m: string)
    requires !Agree(texts, f)
    ensures m in texts && f(m).Some? && f(m) != FirstSome(texts, f) && FirstSome(texts, f).Some? && Found(texts, f)
  {
    FirstSomeFinds(texts, f);
    var m1, m2 :| m1 in texts && m2 in texts && f(m1).Some? && f(m2).Some? && f(m1) != f(m2);
    m := if f(m1) == FirstSome(texts, f) then m2 else m1;
  }

  /** When the deciders disagree, some report changes the outcome by coming first. */
  lemma DisagreementShows<T>(stages: Stages<T>, reported: seq<string>, status: seq<string>) returns (m: string)
    requires !DecidersAgree(stages, reported, status)
    ensures m in reported && Search(stages, reported, status).Some?
    ensures forall others: seq<string> | SameTexts([m] + others, reported) ::
              Search(stages, [m] + others, status).Some? && Search(stages, [m] + others, status) != Search(stages, reported, status)
  {
    SearchByStage(stages, reported, status);
    var f := if Found(reported, stages.coded) then stages.coded
             else if Found(reported, stages.response) then stages.response
             else stages.keyword;
    m := Dissenter(reported, f);
    forall others: seq<string> | SameTexts([m] + others, reported)
      ensures Search(stages, [m] + others, status).Some? && Search(stages, [m] + others, status) != Search(stages, reported, status)
    {
      SearchByStage(stages, [m] + others, status);
      assert m in [m] + others;
    }
  }

  // ---- the classifier is such a search ----

  /** What is seen of the kind each stage gives a text. */
  function StagesOf<T>(fallback: Fallback, look: Kind -> T): Stages<T> {
    Stages(
      m => if Coded(m) then Some(look(CodedError(m).kind)) else None,
      m => if IsResponse(m) then Some(look(ResponseError(Cut(m, ", ").1, fallback).kind)) else None,
      m => if fallback.Keywords? && fallback.kindOf(m).Some? then Some(look(fallback.kindOf(m).value)) else None)
  }

  function StatusTexts(st: Status): seq<string> {
    if st.message != "" then [TrimPrefix(st.message, EVALUATE_PREFIX)] else []
  }

  lemma {:induction false} FirstSomeIsFirstWhere<T>(texts: seq<string>, f: string -> Option<T>, p: string -> bool)
    requires forall m :: p(m) <==> f(m).Some?
    ensures var i := FirstWhere(texts, p);
            i <= |texts| && FirstSome(texts, f) == if i < |texts| then f(texts[i]) else None
  {
    if texts != [] && !p(texts[0]) {
      FirstSomeIsFirstWhere(texts[1..], f, p);
    }
  }

  function Seen<T>(found: Option<Error>, look: Kind -> T): Option<T> {
    if found.Some? then Some(look(found.value.kind)) else None
  }

  lemma CodedStage<T>(texts: seq<string>, fallback: Fallback, look: Kind -> T)
    ensures FirstSome(texts, StagesOf(fallback, look).coded) == Seen(CodedIn(texts), look)
  {
    FirstSomeIsFirstWhere(texts, StagesOf(fallback, look).coded, Coded);
  }

  lemma ResponseStage<T>(texts: seq<string>, fallback: Fallback, look: Kind -> T)
    ensures var i := FirstWhere(texts, IsResponse);
            && i <= |texts|
            && FirstSome(texts, StagesOf(fallback, look).response)
               == if i < |texts| then Some(look(ResponseError(Cut(texts[i], ", ").1, fallback).kind)) else None
  {
    FirstSomeIsFirstWhere(texts, StagesOf(fallback, look).response, IsResponse);
  }

  lemma KeywordStage<T>(messages: seq<string>, fallback: Fallback, look: Kind -> T)
    ensures FirstSome(messages, StagesOf(fallback, look).keyword)
         == if fallback.Strict? then None else Seen(KeywordVerdict(messages, fallback), look)
  {
    if fallback.Keywords? {
      FirstSomeIsFirstWhere(messages, StagesOf(fallback, look).keyword, (m: string) => fallback.kindOf(m).Some?);
    } else {
      FirstSomeFinds(messages, StagesOf(fallback, look).keyword);
    }
  }

  lemma UncodedStages<T>(texts: seq<string>, messages: seq<string>, fallback: Fallback, look: Kind -> T)
    ensures var stages := StagesOf(fallback, look);
            var response := FirstSome(texts, stages.response);
            Seen(UncodedVerdict(texts, messages, fallback), look)
            == if response.Some? then response else FirstSome(messages, stages.keyword)
  {
    ResponseStage(texts, fallback, look);
    KeywordStage(messages, fallback, look);
  }

  lemma VerdictIsSearch<T>(st: Status, details: seq<ErrorDetail>, fallback: Fallback, look: Kind -> T)
    requires st.code == Aborted || st.code == Unknown
    ensures Seen(ChaincodeVerdict(st, details, fallback), look)
         == Search(StagesOf(fallback, look), Messages(details), StatusTexts(st))
  {
    CodedStage(Candidates(st, details), fallback, look);
    UncodedStages(Candidates(st, details), Messages(details), fallback, look);
  }

  // ---- permuting the reports ----

  function Reordered(err: GoError, shuffled: seq<AnyDetail>): GoError
    requires err.Rpc?
  {
    err.(status := err.status.(details := shuffled))
  }

  /** Nothing seen of the kind depends on the order of the details. */
  ghost predicate OrderFree<T>(err: GoError, txID: string, ph: Phase, fallback: Fallback, look: Kind -> T)
    requires err.Rpc?
  {
    forall shuffled :: multiset(shuffled) == multiset(err.status.details) ==>
      look(Classified(Reordered(err, shuffled), txID, ph, fallback).kind) == look(Classified(err, txID, ph, fallback).kind)
  }

  /** Where chaincode wording is looked for at all, the reports that decide agree on what is seen. */
  ghost predicate ReportsAgree<T>(err: GoError, ph: Phase, fallback: Fallback, look: Kind -> T) {
    MayBeChaincode(err, ph) ==>
      DecidersAgree(StagesOf(fallback, look), Messages(Details(err)), StatusTexts(Convert(err)))
  }

  lemma KindSeen<T>(err: GoError, txID: string, ph: Phase, fallback: Fallback, look: Kind -> T)
    requires err.Rpc? && MayBeChaincode(err, ph)
    ensures var found := Search(StagesOf(fallback, look), Messages(Details(err)), StatusTexts(Convert(err)));
            look(Classified(err, txID, ph, fallback).kind)
            == if found.Some? then found.value else look(KindFromCode(Convert(err).code, ph))
    ensures Convert(err) == err.status
  {
    VerdictIsSearch(Convert(err), Details(err), fallback, look);
  }

  lemma {:induction false} DetailsInFront(d: ErrorDetail, rest: seq<AnyDetail>)
    ensures GatewayDetails([Gateway(d)] + rest) == [d] + GatewayDetails(rest)
  {
    var all := [Gateway(d)] + rest;
    if rest == [] {
      assert all[..0] == [] && GatewayDetails([]) == [];
    } else {
      DetailsInFront(d, rest[..|rest| - 1]);
      assert all[..|all| - 1] == [Gateway(d)] + rest[..|rest| - 1];
    }
  }

  lemma SameDetails(raw: seq<AnyDetail>, shuffled: seq<AnyDetail>)
    requires multiset(shuffled) == multiset(raw)
    ensures SameTexts(Messages(GatewayDetails(raw)), Messages(GatewayDetails(shuffled)))
  {
    forall d: ErrorDetail ensures d in GatewayDetails(raw) <==> d in GatewayDetails(shuffled) {
      DetailsOf(raw, d);
      DetailsOf(shuffled, d);
      assert Gateway(d) in multiset(raw) <==> Gateway(d) in multiset(shuffled);
    }
    SameMessages(GatewayDetails(raw), GatewayDetails(shuffled));
  }

  /** Any reported message can be made the first one. */
  lemma BroughtForward(raw: seq<AnyDetail>, m: string) returns (shuffled: seq<AnyDetail>, others: seq<string>)
    requires m in Messages(GatewayDetails(raw))
    ensures multiset(shuffled) == multiset(raw) && Messages(GatewayDetails(shuffled)) == [m] + others
  {
    var d := Reporter(GatewayDetails(raw), m);
    DetailsOf(raw, d);
    var j :| 0 <= j < |raw| && raw[j] == Gateway(d);
    var rest := raw[..j] + raw[j + 1..];
    shuffled := [Gateway(d)] + rest;
    MovedToFront(raw, j);
    DetailsInFront(d, rest);
    others := Messages(GatewayDetails(rest));
  }

  lemma Reporter(details: seq<ErrorDetail>, m: string) returns (d: ErrorDetail)
    requires m in Messages(details)
    ensures d in details && d.message == m
  {
    var i :| 0 <= i < |details| && Messages(details)[i] == m;
    d := details[i];
  }

  lemma MovedToFront(raw: seq<AnyDetail>, j: nat)
    requires j < |raw|
    ensures multiset([raw[j]] + (raw[..j] + raw[j + 1..])) == multiset(raw)
  {
    assert raw == raw[..j] + ([raw[j]] + raw[j + 1..]);
  }

  lemma AgreementIsOrderFree<T>(err: GoError, shuffled: seq<AnyDetail>, txID: string, ph: Phase, fallback: Fallback, look: Kind -> T)
    requires err.Rpc? && multiset(shuffled) == multiset(err.status.details) && ReportsAgree(err, ph, fallback, look)
    ensures look(Classified(Reordered(err, shuffled), txID, ph, fallback).kind) == look(Classified(err, txID, ph, fallback).kind)
  {
    var other := Reordered(err, shuffled);
    if MayBeChaincode(err, ph) {
      KindSeen(err, txID, ph, fallback, look);
      KindSeen(other, txID, ph, fallback, look);
      SameDetails(err.status.details, shuffled);
      AgreementMeansSameSearch(StagesOf(fallback, look), Messages(Details(err)), Messages(Details(other)), StatusTexts(err.status));
    }
  }

  lemma DisagreementDependsOnOrder<T>(err: GoError, txID: string, ph: Phase, fallback: Fallback, look: Kind -> T)
    returns (shuffled: seq<AnyDetail>)
    requires err.Rpc? && !ReportsAgree(err, ph, fallback, look)
    ensures multiset(shuffled) == multiset(err.status.details)
    ensures look(Classified(Reordered(err, shuffled), txID, ph, fallback).kind) != look(Classified(err, txID, ph, fallback).kind)
  {
    KindSeen(err, txID, ph, fallback, look);
    var m := DisagreementShows(StagesOf(fallback, look), Messages(Details(err)), StatusTexts(err.status));
    var others;
    shuffled, others := BroughtForward(err.status.details, m);
    SameDetails(err.status.details, shuffled);
    KindSeen(Reordered(err, shuffled), txID, ph, fallback, look);
  }

  /** Whatever is seen of an error's kind is the same for every order of its details exactly when the reports
      that decide agree on it. */
  lemma OrderFreeExactlyWhenReportsAgree<T>(err: GoError, txID: string, ph: Phase, fallback: Fallback, look: Kind -> T)
    requires err.Rpc?
    ensures OrderFree(err, txID, ph, fallback, look) <==> ReportsAgree(err, ph, fallback, look)
  {
    if ReportsAgree(err, ph, fallback, look) {
      forall shuffled | multiset(shuffled) == multiset(err.status.details)
        ensures look(Classified(Reordered(err, shuffled), txID, ph, fallback).kind)
             == look(Classified(err, txID, ph, fallback).kind)
      {
        AgreementIsOrderFree(err, shuffled, txID, ph, fallback, look);
      }
    } else {
      var shuffled := DisagreementDependsOnOrder(err, txID, ph, fallback, look);
    }
  }

  /** The kind is the same in every order exactly when the deciding reports all have one kind. */
  lemma KindIgnoresOrderExactlyWhen(err: GoError, txID: string, ph: Phase, fallback: Fallback)
    requires err.Rpc?
    ensures (forall shuffled :: multiset(shuffled) == multiset(err.status.details) ==>
               Classified(Reordered(err, shuffled), txID, ph, fallback).kind == Classified(err, txID, ph, fallback).kind)
       <==> ReportsAgree(err, ph, fallback, (k: Kind) => k)
  {
    OrderFreeExactlyWhenReportsAgree(err, txID, ph, fallback, (k: Kind) => k);
  }

  /** An error is retryable in every order or in none exactly when the deciding reports are all of retryable
      kinds, or all of others. */
  lemma RetryabilityIgnoresOrderExactlyWhen(err: GoError, txID: string, ph: Phase, fallback: Fallback)
    requires err.Rpc?
    ensures (forall shuffled :: multiset(shuffled) == multiset(err.status.details) ==>
               Classified(Reordered(err, shuffled), txID, ph, fallback).Retryable()
               == Classified(err, txID, ph, fallback).Retryable())
       <==> ReportsAgree(err, ph, fallback, RetryableKind)
  {
    OrderFreeExactlyWhenReportsAgree(err, txID, ph, fallback, RetryableKind);
    forall shuffled
      ensures Classified(Reordered(err, shuffled), txID, ph, fallback).Retryable()
              == Classified(err, txID, ph, fallback).Retryable()
         <==> RetryableKind(Classified(Reordered(err, shuffled), txID, ph, fallback).kind)
              == RetryableKind(Classified(err, txID, ph, fallback).kind)
    {
      RetryableByKind(err, txID, ph, fallback);
      RetryableByKind(Reordered(err, shuffled), txID, ph, fallback);
    }
  }

  /** No error with an open outcome is of a retryable kind, so the kind alone tells. */
  lemma RetryableByKind(err: GoError, txID: string, ph: Phase, fallback: Fallback)
    requires err.Rpc?
    ensures var e := Classified(err, txID, ph, fallback); e.Retryable() <==> RetryableKind(e.kind)
  {
    RetryGuidance(err, txID, ph, fallback);
  }
}
