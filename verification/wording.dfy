/** What free text makes of an error, with the phrases written out. */
module Wording {
  import opened Wrappers
  import opened Text
  import opened Errors
  import opened Classification
  import Ccerr
  import Guidance

  ghost predicate Says(msg: string, phrase: string) {
    Occurs(ToLower(msg), phrase)
  }

  ghost predicate SaysPeer(msg: string) {
    || Says(msg, "make sure the chaincode")
    || Says(msg, "error in simulation")
    || Says(msg, "could not launch chaincode")
    || Says(msg, "failed to execute transaction")
    || Says(msg, "transaction returned with failure")
    || Says(msg, "channel '")
    || Says(msg, "has not been initialized")
    || Says(msg, "does not require initialization")
    || Says(msg, "is already initialized")
    || Says(msg, "access denied")
    || Says(msg, "chaincode definition")
  }

  /** The kind a chaincode's free text stands for, if any. */
  ghost function Reading(msg: string): Option<Kind> {
    if SaysPeer(msg) then None else Keyword(msg)
  }

  ghost function Keyword(msg: string): Option<Kind> {
    if Says(msg, "version conflict") then Some(KindConflict)
    else if Says(msg, "already exists") then Some(KindAlreadyExists)
    else if Says(msg, "not found") || Says(msg, "does not exist") then Some(KindNotFound)
    else if Says(msg, "unauthorized") || Says(msg, "forbidden") || Says(msg, "permission denied") then Some(KindUnauthorized)
    else None
  }

  lemma AnyOfEleven(m: string, p: seq<string>)
    requires |p| == 11
    ensures MentionsAny(m, p)
       <==> || Occurs(m, p[0]) || Occurs(m, p[1]) || Occurs(m, p[2]) || Occurs(m, p[3]) || Occurs(m, p[4]) || Occurs(m, p[5])
            || Occurs(m, p[6]) || Occurs(m, p[7]) || Occurs(m, p[8]) || Occurs(m, p[9]) || Occurs(m, p[10])
  {
    AnyPhrase(m, p);
    forall i | 0 <= i < |p| ensures Contains(m, p[i]) <==> Occurs(m, p[i]) {
      ContainsMeansOccurs(m, p[i]);
    }
  }

  lemma {:induction false} AnyPhrase(m: string, phrases: seq<string>)
    ensures MentionsAny(m, phrases) <==> exists i :: 0 <= i < |phrases| && Contains(m, phrases[i])
  {
    if phrases != [] {
      AnyPhrase(m, phrases[1..]);
      assert forall i :: 0 < i < |phrases| ==> phrases[i] == phrases[1..][i - 1];
    }
  }

  lemma FirstOfSeven(m: string, t: seq<(string, KeywordKind)>)
    requires |t| == 7
    ensures FirstKeyword(m, t)
         == if Occurs(m, t[0].0) then Some(t[0].1)
            else if Occurs(m, t[1].0) then Some(t[1].1)
            else if Occurs(m, t[2].0) then Some(t[2].1)
            else if Occurs(m, t[3].0) then Some(t[3].1)
            else if Occurs(m, t[4].0) then Some(t[4].1)
            else if Occurs(m, t[5].0) then Some(t[5].1)
            else if Occurs(m, t[6].0) then Some(t[6].1)
            else None
  {
    KeywordAt(m, t, 0);
    KeywordAt(m, t, 1);
    KeywordAt(m, t, 2);
    KeywordAt(m, t, 3);
    KeywordAt(m, t, 4);
    KeywordAt(m, t, 5);
    KeywordAt(m, t, 6);
    assert t[7..] == [] && t[0..] == t;
  }

  lemma KeywordAt(m: string, t: seq<(string, KeywordKind)>, i: nat)
    requires i < |t|
    ensures FirstKeyword(m, t[i..]) == if Occurs(m, t[i].0) then Some(t[i].1) else FirstKeyword(m, t[i + 1..])
  {
    ContainsMeansOccurs(m, t[i].0);
    assert t[i..][1..] == t[i + 1..];
  }

  /** For every message: free of peer-side wording, the keyword search reads a conflict exactly out of "version
      conflict", else an existing record, a missing one, or a denial exactly out of their phrases, in this order. */
  lemma KeywordsRead(msg: string)
    ensures LegacyKind(msg) == Reading(msg)
  {
    PeerRead(msg);
    KeywordRead(msg);
  }

  lemma PeerRead(msg: string)
    ensures MentionsAny(ToLower(msg), PEER_SIDE_PHRASES) <==> SaysPeer(msg)
  {
    AnyOfEleven(ToLower(msg), PEER_SIDE_PHRASES);
  }

  lemma KeywordRead(msg: string)
    ensures FirstKeyword(ToLower(msg), KEYWORDS) == Keyword(msg)
  {
    FirstOfSeven(ToLower(msg), KEYWORDS);
  }

  // ---- letters ----

  predicate SameLetter(c: char, d: char) {
    c == d || ('A' <= c <= 'Z' && d == c - 'A' + 'a') || ('A' <= d <= 'Z' && c == d - 'A' + 'a')
  }

  /** Messages that differ only in the case of ASCII letters are read alike, and one without capitals is read as
      it stands. */
  lemma CaseMakesNoDifference(msg: string, other: string)
    requires |msg| == |other| && forall i :: 0 <= i < |msg| ==> SameLetter(msg[i], other[i])
    ensures Reading(msg) == Reading(other) && LegacyKind(msg) == LegacyKind(other)
  {
    assert ToLower(msg) == ToLower(other);
  }

  lemma LowerCaseStays(msg: string)
    requires forall i :: 0 <= i < |msg| ==> msg[i] < '\U{80}' && !('A' <= msg[i] <= 'Z')
    ensures ToLower(msg) == msg
  {
  }

  // ---- errors whose text carries no code ----

  ghost predicate Uncoded(err: GoError, ph: Phase) {
    MayBeChaincode(err, ph) && forall m :: m in Texts(err) ==> !Coded(m)
  }

  ghost function ReadingOf(strict: bool, msg: string): Option<Kind> {
    if strict then None else Reading(msg)
  }

  lemma FallbackReads(strict: bool, msg: string)
    ensures var fallback := FallbackFor(strict);
            (if fallback.Strict? then None else fallback.kindOf(msg)) == ReadingOf(strict, msg)
  {
    KeywordsRead(msg);
  }

  lemma NoCode(err: GoError, ph: Phase)
    requires Uncoded(err, ph)
    ensures CodedIn(Texts(err)).None?
  {
    CodedWhenSome(Texts(err));
  }

  lemma ResponseText(number: string, text: string)
    requires !Contains(number, ", ")
    ensures Cut("chaincode response " + number + ", " + text, ", ").1 == text
  {
    Ccerr.ResponsePrefixShape();
    CutResponse(Ccerr.RESPONSE_PREFIX, number, text);
  }

  lemma CutResponse(prefix: string, number: string, text: string)
    requires ',' !in prefix && !Contains(number, ", ")
    ensures Cut(prefix + number + ", " + text, ", ").1 == text
  {
    Ccerr.FirstComma(prefix, number, text);
    var m := prefix + number + ", " + text;
    assert m[|prefix| + |number| + 2..] == text;
  }

  /** A response without a code is the chaincode's own error: its text is what follows the first ", ", and its kind
      is what the text reads as, or plain `chaincode` when it reads as nothing or the setting is strict. */
  lemma ResponseIsRead(err: GoError, txID: string, ph: Phase, strict: bool, i: nat, number: string, text: string)
    requires Uncoded(err, ph) && i < |Texts(err)|
    requires Texts(err)[i] == "chaincode response " + number + ", " + text && !Contains(number, ", ")
    requires forall j :: 0 <= j < i ==> !HasPrefix(Texts(err)[j], "chaincode response ")
    ensures var e := Classified(err, txID, ph, FallbackFor(strict));
            && e.kind == (if ReadingOf(strict, text).Some? then ReadingOf(strict, text).value else KindChaincode)
            && e.source == SourceChaincode && e.message == Verbatim(text) && !e.outcomeUnknown
            && (e.Retryable() <==> ReadingOf(strict, text) == Some(KindConflict))
  {
    NoCode(err, ph);
    FallbackReads(strict, text);
    ResponseText(number, text);
    ResponseHasPrefix(number, text);
    FirstIs(Texts(err), IsResponse, i);
  }

  lemma ResponseHasPrefix(number: string, text: string)
    ensures IsResponse("chaincode response " + number + ", " + text)
  {
    PrefixOfSum(Ccerr.RESPONSE_PREFIX, number, ", ", text);
  }

  lemma PrefixOfSum(prefix: string, a: string, b: string, c: string)
    ensures HasPrefix(prefix + a + b + c, prefix)
  {
  }

  ghost predicate NoResponse(err: GoError) {
    forall m :: m in Texts(err) ==> !HasPrefix(m, "chaincode response ")
  }

  lemma NoResponseFound(err: GoError)
    requires NoResponse(err)
    ensures FirstWhere(Texts(err), IsResponse) == |Texts(err)|
  {
    FirstWhereFinds(Texts(err), IsResponse);
    FirstWhereSpec(Texts(err), IsResponse);
  }

  /** Without a response, the first report that reads as something decides. */
  lemma ReportIsRead(err: GoError, txID: string, ph: Phase, i: nat)
    requires Uncoded(err, ph) && NoResponse(err) && i < |Details(err)| && Reading(Details(err)[i].message).Some?
    requires forall j :: 0 <= j < i ==> Reading(Details(err)[j].message).None?
    ensures var e := Classified(err, txID, ph, FallbackFor(false));
            && e.kind == Reading(Details(err)[i].message).value && e.message == Verbatim(Details(err)[i].message)
            && e.source == SourceChaincode && !e.outcomeUnknown
            && (e.Retryable() <==> Reading(Details(err)[i].message) == Some(KindConflict))
  {
    NoCode(err, ph);
    NoResponseFound(err);
    FirstReading(Messages(Details(err)), i);
  }

  lemma FirstReading(messages: seq<string>, i: nat)
    requires i <= |messages| && (i < |messages| ==> Reading(messages[i]).Some?)
    requires forall j :: 0 <= j < i ==> Reading(messages[j]).None?
    ensures KeywordVerdict(messages, Keywords(LegacyKind))
         == if i < |messages| then Some(NewError(Reading(messages[i]).value, SourceChaincode, Verbatim(messages[i]))) else None
    ensures i < |messages| ==> LegacyKind(messages[i]) == Reading(messages[i])
  {
    forall j | 0 <= j <= i && j < |messages| ensures LegacyKind(messages[j]) == Reading(messages[j]) {
      KeywordsRead(messages[j]);
    }
    var p := (m: string) => Keywords(LegacyKind).kindOf(m).Some?;
    FirstIs(messages, p, i);
  }

  /** When no report reads as anything, or the setting is strict, the error is an endorsement failure with the
      status text. */
  lemma NothingIsRead(err: GoError, txID: string, ph: Phase, strict: bool)
    requires Uncoded(err, ph) && NoResponse(err)
    requires forall j :: 0 <= j < |Details(err)| ==> ReadingOf(strict, Details(err)[j].message).None?
    ensures var e := Classified(err, txID, ph, FallbackFor(strict));
            && e.kind == KindEndorsement && e.source == SourceNetwork && e.message.Text() == Convert(err).message
            && e.Retryable()
  {
    NoCode(err, ph);
    NoResponseFound(err);
    forall j | 0 <= j < |Details(err)| ensures Unread(FallbackFor(strict), Details(err)[j].message) {
      FallbackReads(strict, Details(err)[j].message);
    }
    UnreadVerdict(err, ph, FallbackFor(strict));
    Guidance.KindPerCode(err, txID, ph, FallbackFor(strict));
  }

  predicate Unread(fallback: Fallback, m: string) {
    fallback.Strict? || fallback.kindOf(m).None?
  }

  lemma UnreadVerdict(err: GoError, ph: Phase, fallback: Fallback)
    requires MayBeChaincode(err, ph) && CodedIn(Texts(err)).None? && FirstWhere(Texts(err), IsResponse) == |Texts(err)|
    requires forall j :: 0 <= j < |Messages(Details(err))| ==> Unread(fallback, Messages(Details(err))[j])
    ensures Guidance.NoWording(err, fallback)
  {
    UnreadTexts(Texts(err), Messages(Details(err)), fallback);
  }

  lemma UnreadTexts(texts: seq<string>, messages: seq<string>, fallback: Fallback)
    requires FirstWhere(texts, IsResponse) == |texts|
    requires forall j :: 0 <= j < |messages| ==> Unread(fallback, messages[j])
    ensures UncodedVerdict(texts, messages, fallback) == None
  {
    if fallback.Keywords? {
      var p := (m: string) => fallback.kindOf(m).Some?;
      FirstIs(messages, p, |messages|);
    }
  }
}
