/** Configuration checks, default timeouts, and the deadlines every phase of a call runs under. Time is a logical
    clock in nanoseconds. */
module Deadlines {
  import opened Wrappers
  import opened Text
  import opened Errors
  import opened Options

  datatype Config = Config(
    peerEndpoint: string, tlsCertPath: string, clientTLSCertPath: string, clientTLSKeyPath: string,
    identity: bool, mspID: string, certPath: string, keyPath: string,
    channelName: string, chaincodeName: string,
    evaluateTimeout: Duration, endorseTimeout: Duration, submitTimeout: Duration, commitStatusTimeout: Duration)

  // ---- validation ----

  predicate Blank(s: string) {
    TrimSpace(s) == ""
  }

  function Timeouts(c: Config): seq<Duration> {
    [c.evaluateTimeout, c.endorseTimeout, c.submitTimeout, c.commitStatusTimeout]
  }

  /** What can be wrong with a config, in the order it is reported. */
  datatype Problem =
    | PeerEndpointRequired | TLSCertPathRequired | ClientTLSPairIncomplete
    | MSPIDRequired | CertPathRequired | KeyPathRequired
    | ChannelNameRequired | ChaincodeNameRequired
    | NegativeTimeout
  {
    function Rank(): nat {
      match this
      case PeerEndpointRequired => 0
      case TLSCertPathRequired => 1
      case ClientTLSPairIncomplete => 2
      case MSPIDRequired => 3
      case CertPathRequired => 4
      case KeyPathRequired => 5
      case ChannelNameRequired => 6
      case ChaincodeNameRequired => 7
      case NegativeTimeout => 8
    }

    function Text(): string {
      match this
      case PeerEndpointRequired => "PeerEndpoint is required"
      case TLSCertPathRequired => "TLSCertPath is required"
      case ClientTLSPairIncomplete => "ClientTLSCertPath and ClientTLSKeyPath must be set together"
      case MSPIDRequired => "MSPID is required when Identity is nil"
      case CertPathRequired => "CertPath is required when Identity is nil"
      case KeyPathRequired => "KeyPath is required when Identity is nil"
      case ChannelNameRequired => "ChannelName is required"
      case ChaincodeNameRequired => "ChaincodeName is required"
      case NegativeTimeout => "timeouts must not be negative"
    }
  }

  /** Whether a config has a problem; network fields count only when the SDK dials the connection itself. */
  predicate Has(c: Config, ownConn: bool, p: Problem) {
    match p
    case PeerEndpointRequired => ownConn && Blank(c.peerEndpoint)
    case TLSCertPathRequired => ownConn && Blank(c.tlsCertPath)
    case ClientTLSPairIncomplete => ownConn && (c.clientTLSCertPath == "") != (c.clientTLSKeyPath == "")
    case MSPIDRequired => !c.identity && Blank(c.mspID)
    case CertPathRequired => !c.identity && Blank(c.certPath)
    case KeyPathRequired => !c.identity && Blank(c.keyPath)
    case ChannelNameRequired => Blank(c.channelName)
    case ChaincodeNameRequired => Blank(c.chaincodeName)
    case NegativeTimeout => exists d :: d in Timeouts(c) && d < 0
  }

  ghost predicate Acceptable(c: Config, ownConn: bool) {
    forall p :: !Has(c, ownConn, p)
  }

  function Texts(problems: seq<Problem>): (r: seq<string>)
    ensures |r| == |problems| && forall i :: 0 <= i < |r| ==> r[i] == problems[i].Text()
  {
    seq(|problems|, i requires 0 <= i < |problems| => problems[i].Text())
  }

  function Join(texts: seq<string>, sep: string): string {
    if texts == [] then "" else if |texts| == 1 then texts[0] else texts[0] + sep + Join(texts[1..], sep)
  }

  /** The problems reported so far are those a config has among the first `n`, in order. */
  ghost predicate Reported(c: Config, ownConn: bool, problems: seq<Problem>, n: nat) {
    && (forall p :: p in problems <==> Has(c, ownConn, p) && p.Rank() < n)
    && (forall i, j :: 0 <= i < j < |problems| ==> problems[i].Rank() < problems[j].Rank())
  }

  method Check(c: Config, ownConn: bool, problems: seq<Problem>, p: Problem, bad: bool)
    returns (problems': seq<Problem>)
    requires Reported(c, ownConn, problems, p.Rank()) && bad == Has(c, ownConn, p)
    ensures Reported(c, ownConn, problems', p.Rank() + 1)
  {
    problems' := if bad then problems + [p] else problems;
    assert forall q: Problem :: q.Rank() == p.Rank() ==> q == p;
  }

  /** The loop over the four timeouts stops at the first negative one. */
  method AnyNegative(timeouts: seq<Duration>) returns (negative: bool)
    ensures negative <==> exists d :: d in timeouts && d < 0
  {
    for i := 0 to |timeouts|
      invariant forall j :: 0 <= j < i ==> timeouts[j] >= 0
    {
      if timeouts[i] < 0 {
        assert timeouts[i] in timeouts;
        return true;
      }
    }
    return false;
  }

  method ValidateNetwork(c: Config, ownConn: bool) returns (problems: seq<Problem>)
    ensures Reported(c, ownConn, problems, 3)
  {
    problems := Check(c, ownConn, [], PeerEndpointRequired, ownConn && Blank(c.peerEndpoint));
    problems := Check(c, ownConn, problems, TLSCertPathRequired, ownConn && Blank(c.tlsCertPath));
    problems := Check(c, ownConn, problems, ClientTLSPairIncomplete,
                      ownConn && (c.clientTLSCertPath == "") != (c.clientTLSKeyPath == ""));
  }

  method ValidateIdentity(c: Config, ownConn: bool, problems: seq<Problem>) returns (problems': seq<Problem>)
    requires Reported(c, ownConn, problems, 3)
    ensures Reported(c, ownConn, problems', 6)
  {
    problems' := Check(c, ownConn, problems, MSPIDRequired, !c.identity && Blank(c.mspID));
    problems' := Check(c, ownConn, problems', CertPathRequired, !c.identity && Blank(c.certPath));
    problems' := Check(c, ownConn, problems', KeyPathRequired, !c.identity && Blank(c.keyPath));
  }

  /** Reports every problem a config has, each once and in order, as one configuration error; none, when the
      config is acceptable. */
  method Validate(c: Config, ownConn: bool) returns (err: Option<Error>, problems: seq<Problem>)
    ensures Reported(c, ownConn, problems, 9)
    ensures err == if problems == [] then None else Some(ConfigError(Plain(Join(Texts(problems), "; "))))
    ensures err.None? <==> Acceptable(c, ownConn)
  {
    problems := ValidateNetwork(c, ownConn);
    problems := ValidateIdentity(c, ownConn, problems);
    problems := Check(c, ownConn, problems, ChannelNameRequired, Blank(c.channelName));
    problems := Check(c, ownConn, problems, ChaincodeNameRequired, Blank(c.chaincodeName));
    var negative := AnyNegative(Timeouts(c));
    problems := Check(c, ownConn, problems, NegativeTimeout, negative);
    NoneMeansAcceptable(c, ownConn, problems);
    err := if |problems| > 0 then Some(ConfigError(Plain(Join(Texts(problems), "; ")))) else None;
  }

  /** Every problem is named in the error. */
  lemma EveryProblemIsNamed(problems: seq<Problem>, p: Problem)
    requires p in problems
    ensures Occurs(Join(Texts(problems), "; "), p.Text())
  {
    var i :| 0 <= i < |problems| && problems[i] == p;
    JoinSays(Texts(problems), "; ", i);
  }

  lemma {:induction false} JoinSays(texts: seq<string>, sep: string, i: nat)
    requires i < |texts|
    ensures Occurs(Join(texts, sep), texts[i])
  {
    if |texts| == 1 || i == 0 {
      assert OccursAt(Join(texts, sep), texts[0], 0);
    } else {
      JoinSays(texts[1..], sep, i - 1);
      var k :| OccursAt(Join(texts[1..], sep), texts[i], k);
      assert OccursAt(texts[0] + sep + Join(texts[1..], sep), texts[i], |texts[0] + sep| + k);
    }
  }

  lemma NoneMeansAcceptable(c: Config, ownConn: bool, problems: seq<Problem>)
    requires Reported(c, ownConn, problems, 9)
    ensures problems == [] <==> Acceptable(c, ownConn)
  {
    assert forall p: Problem :: p.Rank() < 9;
    if problems != [] {
      assert problems[0] in problems;
    }
  }

  // ---- defaults ----

  const DEFAULT_EVALUATE_TIMEOUT: Duration := 5 * SECOND
  const DEFAULT_ENDORSE_TIMEOUT: Duration := 15 * SECOND
  const DEFAULT_SUBMIT_TIMEOUT: Duration := 5 * SECOND
  const DEFAULT_COMMIT_STATUS_TIMEOUT: Duration := 60 * SECOND

  function OrDefault(d: Duration, default: Duration): Duration {
    if d == 0 then default else d
  }

  function WithDefaults(c: Config): Config {
    c.(evaluateTimeout := OrDefault(c.evaluateTimeout, DEFAULT_EVALUATE_TIMEOUT),
       endorseTimeout := OrDefault(c.endorseTimeout, DEFAULT_ENDORSE_TIMEOUT),
       submitTimeout := OrDefault(c.submitTimeout, DEFAULT_SUBMIT_TIMEOUT),
       commitStatusTimeout := OrDefault(c.commitStatusTimeout, DEFAULT_COMMIT_STATUS_TIMEOUT))
  }

  // ---- deadlines ----

  datatype Context = Context(deadline: Option<int>)

  /** Bounds a context by `d` unless it has a deadline already; a nil context counts as one without. */
  function WithDefaultTimeout(ctx: Option<Context>, d: Duration, now: int): Context {
    var deadline := if ctx.Some? then ctx.value.deadline else None;
    if deadline.Some? || d <= 0 then Context(deadline) else Context(Some(now + d))
  }

  /** When a call returns that would take `length`, if calls return once their context ends. */
  function Returns(ctx: Context, now: int, length: nat): int {
    match ctx.deadline
    case None => now + length
    case Some(deadline) => if now + length <= deadline then now + length else if deadline < now then now else deadline
  }

  /** When a phase that starts at `now` is over. */
  function PhaseEnd(ctx: Option<Context>, d: Duration, now: int, length: nat): int {
    Returns(WithDefaultTimeout(ctx, d, now), now, length)
  }

  /** Endorse, submit and wait for the commit, one after the other, as long as each would have taken. */
  function SubmitEnd(c: Config, ctx: Option<Context>, now: int, endorse: nat, submit: nat, commit: nat): int {
    var endorsed := PhaseEnd(ctx, c.endorseTimeout, now, endorse);
    var submitted := PhaseEnd(ctx, c.submitTimeout, endorsed, submit);
    PhaseEnd(ctx, c.commitStatusTimeout, submitted, commit)
  }

  ghost predicate EndsBy(ctx: Option<Context>, d: Duration, now: int, limit: int) {
    forall length: nat :: PhaseEnd(ctx, d, now, length) <= limit
  }

  /** A phase is bounded exactly when the caller set a deadline or its timeout is positive; otherwise it lasts as
      long as the network pleases. */
  lemma BoundedExactlyWhen(ctx: Option<Context>, d: Duration, now: int)
    ensures (exists limit: int :: EndsBy(ctx, d, now, limit)) <==> (ctx.Some? && ctx.value.deadline.Some?) || d > 0
  {
    var bounded := WithDefaultTimeout(ctx, d, now);
    if bounded.deadline.Some? {
      var limit := if bounded.deadline.value < now then now else bounded.deadline.value;
      assert EndsBy(ctx, d, now, limit);
    } else {
      forall limit: int ensures !EndsBy(ctx, d, now, limit) {
        var length: nat := if limit < now then 0 else limit - now + 1;
        assert PhaseEnd(ctx, d, now, length) > limit;
      }
    }
  }

  /** Under every accepted config no phase runs unbounded, and a whole submission is over by the caller's
      deadline (at once when it has passed already), or else within the three timeouts together. */
  lemma SubmitIsBounded(c: Config, ownConn: bool, ctx: Option<Context>, now: int, endorse: nat, submit: nat, commit: nat)
    requires Acceptable(c, ownConn)
    ensures var d := WithDefaults(c);
            && (forall t :: t in Timeouts(d) ==> WithDefaultTimeout(ctx, t, now).deadline.Some?)
            && now <= SubmitEnd(d, ctx, now, endorse, submit, commit)
            && (if ctx.Some? && ctx.value.deadline.Some?
                then SubmitEnd(d, ctx, now, endorse, submit, commit)
                     <= if ctx.value.deadline.value < now then now else ctx.value.deadline.value
                else SubmitEnd(d, ctx, now, endorse, submit, commit)
                     <= now + d.endorseTimeout + d.submitTimeout + d.commitStatusTimeout)
  {
    AcceptedTimeouts(c, ownConn);
    var d := WithDefaults(c);
    var endorsed := PhaseEnd(ctx, d.endorseTimeout, now, endorse);
    PhaseIsBounded(ctx, d.endorseTimeout, now, endorse);
    PhaseIsBounded(ctx, d.submitTimeout, endorsed, submit);
    PhaseIsBounded(ctx, d.commitStatusTimeout, PhaseEnd(ctx, d.submitTimeout, endorsed, submit), commit);
  }

  lemma AcceptedTimeouts(c: Config, ownConn: bool)
    requires Acceptable(c, ownConn)
    ensures var d := WithDefaults(c);
            && d.evaluateTimeout > 0 && d.endorseTimeout > 0 && d.submitTimeout > 0 && d.commitStatusTimeout > 0
            && forall t :: t in Timeouts(d) ==> t > 0
  {
    assert !Has(c, ownConn, NegativeTimeout);
    assert c.evaluateTimeout in Timeouts(c) && c.endorseTimeout in Timeouts(c);
    assert c.submitTimeout in Timeouts(c) && c.commitStatusTimeout in Timeouts(c);
  }

  lemma PhaseIsBounded(ctx: Option<Context>, d: Duration, now: int, length: nat)
    requires d > 0
    ensures now <= PhaseEnd(ctx, d, now, length)
    ensures if ctx.Some? && ctx.value.deadline.Some?
            then PhaseEnd(ctx, d, now, length) <= if ctx.value.deadline.value < now then now else ctx.value.deadline.value
            else PhaseEnd(ctx, d, now, length) <= now + d
  {
  }

  // ---- exactly how long ----

  function Earlier(a: int, b: int): int {
    if a < b then a else b
  }

  function Later(a: int, b: int): int {
    if a < b then b else a
  }

  /** The timeout a phase runs under: what the config says, or else so many seconds. */
  function Seconds(d: Duration, seconds: nat): int {
    if d == 0 then seconds * 1_000_000_000 else d
  }

  /** Under every accepted config a phase ends when its work does, or when its time is up: the caller's deadline if
      there is one, and otherwise exactly the configured timeout. */
  lemma PhaseEndsExactly(ctx: Option<Context>, d: Duration, now: int, length: nat)
    requires d > 0
    ensures PhaseEnd(ctx, d, now, length)
         == Earlier(now + length, if ctx.Some? && ctx.value.deadline.Some? then Later(ctx.value.deadline.value, now) else now + d)
  {
  }

  /** So a submission takes each phase's work, each cut at its own timeout: five seconds, fifteen, five and sixty
      where the config says nothing. With a deadline of the caller's, it is the whole work, cut there. */
  lemma SubmitEndsExactly(c: Config, ownConn: bool, ctx: Option<Context>, now: int, endorse: nat, submit: nat, commit: nat)
    requires Acceptable(c, ownConn)
    ensures SubmitEnd(WithDefaults(c), ctx, now, endorse, submit, commit)
         == if ctx.Some? && ctx.value.deadline.Some?
            then Earlier(now + endorse + submit + commit, Later(ctx.value.deadline.value, now))
            else now + Earlier(endorse, Seconds(c.endorseTimeout, 15)) + Earlier(submit, Seconds(c.submitTimeout, 5))
                 + Earlier(commit, Seconds(c.commitStatusTimeout, 60))
    ensures WithDefaults(c).evaluateTimeout == Seconds(c.evaluateTimeout, 5)
  {
    AcceptedTimeouts(c, ownConn);
    var d := WithDefaults(c);
    PhaseEndsExactly(ctx, d.endorseTimeout, now, endorse);
    var endorsed := PhaseEnd(ctx, d.endorseTimeout, now, endorse);
    PhaseEndsExactly(ctx, d.submitTimeout, endorsed, submit);
    var submitted := PhaseEnd(ctx, d.submitTimeout, endorsed, submit);
    PhaseEndsExactly(ctx, d.commitStatusTimeout, submitted, commit);
  }

  // ---- what is accepted ----

  ghost predicate HasText(s: string) {
    exists i :: 0 <= i < |s| && !IsSpace(s[i])
  }

  lemma BlankMeansNoText(s: string)
    ensures Blank(s) <==> !HasText(s)
  {
    var l, r := TrimSplit(s);
    if Blank(s) {
      assert s == l + r;
    } else {
      assert s[|l|] == TrimSpace(s)[0];
    }
  }

  /** A config is accepted exactly when its target has text, its timeouts are not negative, it brings an identity or
      all that is needed to load one, and, unless the connection is the caller's, all that is needed to dial. */
  lemma AcceptedExactlyWhen(c: Config, ownConn: bool)
    ensures Acceptable(c, ownConn)
       <==> && HasText(c.channelName) && HasText(c.chaincodeName)
            && c.evaluateTimeout >= 0 && c.endorseTimeout >= 0 && c.submitTimeout >= 0 && c.commitStatusTimeout >= 0
            && (c.identity || (HasText(c.mspID) && HasText(c.certPath) && HasText(c.keyPath)))
            && (ownConn ==> && HasText(c.peerEndpoint) && HasText(c.tlsCertPath)
                            && (c.clientTLSCertPath == "" <==> c.clientTLSKeyPath == ""))
  {
    BlankMeansNoText(c.channelName);
    BlankMeansNoText(c.chaincodeName);
    BlankMeansNoText(c.mspID);
    BlankMeansNoText(c.certPath);
    BlankMeansNoText(c.keyPath);
    BlankMeansNoText(c.peerEndpoint);
    BlankMeansNoText(c.tlsCertPath);
    AcceptableBy(c, ownConn);
    NegativeMeans(c, ownConn);
  }

  lemma AcceptableBy(c: Config, ownConn: bool)
    ensures Acceptable(c, ownConn)
       <==> && !Has(c, ownConn, PeerEndpointRequired) && !Has(c, ownConn, TLSCertPathRequired)
            && !Has(c, ownConn, ClientTLSPairIncomplete) && !Has(c, ownConn, MSPIDRequired)
            && !Has(c, ownConn, CertPathRequired) && !Has(c, ownConn, KeyPathRequired)
            && !Has(c, ownConn, ChannelNameRequired) && !Has(c, ownConn, ChaincodeNameRequired)
            && !Has(c, ownConn, NegativeTimeout)
  {
  }

  lemma NegativeMeans(c: Config, ownConn: bool)
    ensures Has(c, ownConn, NegativeTimeout)
       <==> c.evaluateTimeout < 0 || c.endorseTimeout < 0 || c.submitTimeout < 0 || c.commitStatusTimeout < 0
  {
    var ts := Timeouts(c);
    assert ts[0] in ts && ts[1] in ts && ts[2] in ts && ts[3] in ts;
  }
}
