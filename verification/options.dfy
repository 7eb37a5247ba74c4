/** Event options, the checkpointer they carry, and the reconnect delay they bound. */
module Options {
  import opened Wrappers
  import opened Ledger

  const SECOND := 1_000_000_000
  const MAX_INT64 := 0x7FFF_FFFF_FFFF_FFFF

  /** Go's `time.Duration`: a 64-bit count of nanoseconds. */
  type Duration = d: int | -0x8000_0000_0000_0000 <= d <= MAX_INT64

  // ---- checkpointer ----

  /** The in-memory checkpointer; a durable one keeps the same two fields. */
  class Checkpointer {
    var block: nat
    var tx: string

    constructor ()
      ensures Value() == Position(0, "")
    {
      block, tx := 0, "";
    }

    function Value(): Position
      reads this
    {
      Position(block, tx)
    }

    method CheckpointBlock(blockNumber: nat)
      modifies this
      ensures Value() == Mark(Blocks, Item(blockNumber, ""))
    {
      block, tx := blockNumber + 1, "";
    }

    method CheckpointTransaction(blockNumber: nat, transactionID: string)
      modifies this
      ensures Value() == Mark(Events, Item(blockNumber, transactionID))
    {
      block, tx := blockNumber, transactionID;
    }
  }

  // ---- options ----

  datatype EventOption =
    | FromBlock(number: nat)
    | WithCheckpointer(cp: Checkpointer?)
    | ForChaincode(name: string)
    | RetryBackoff(min: Duration, max: Duration)

  datatype EventOptions = EventOptions(
    startBlock: Option<nat>, checkpoint: Checkpointer?, chaincode: string, minBackoff: Duration, maxBackoff: Duration)
  {
    predicate Clamped() {
      0 < minBackoff <= maxBackoff
    }
  }

  function Applied(o: EventOptions, opt: EventOption): EventOptions {
    match opt
    case FromBlock(n) => o.(startBlock := Some(n))
    case WithCheckpointer(cp) => o.(checkpoint := cp)
    case ForChaincode(name) => o.(chaincode := name)
    case RetryBackoff(min, max) => o.(minBackoff := min, maxBackoff := max)
  }

  function AppliedAll(o: EventOptions, opts: seq<EventOption>): EventOptions
    decreases |opts|
  {
    if opts == [] then o else AppliedAll(Applied(o, opts[0]), opts[1..])
  }

  function Clamp(o: EventOptions): EventOptions {
    var min: Duration := if o.minBackoff <= 0 then SECOND else o.minBackoff;
    o.(minBackoff := min, maxBackoff := if o.maxBackoff < min then min else o.maxBackoff)
  }

  function Defaults(chaincode: string): EventOptions {
    EventOptions(None, null, chaincode, SECOND, 30 * SECOND)
  }

  function Resolved(chaincode: string, opts: seq<EventOption>): (o: EventOptions)
    ensures o.Clamped()
  {
    Clamp(AppliedAll(Defaults(chaincode), opts))
  }

  method ResolveOptions(chaincode: string, opts: seq<EventOption>) returns (o: EventOptions)
    ensures o == Resolved(chaincode, opts)
  {
    o := Defaults(chaincode);
    for i := 0 to |opts|
      invariant AppliedAll(o, opts[i..]) == AppliedAll(Defaults(chaincode), opts)
    {
      assert opts[i..][1..] == opts[i + 1..];
      match opts[i] {
        case FromBlock(n) => o := o.(startBlock := Some(n));
        case WithCheckpointer(cp) => o := o.(checkpoint := cp);
        case ForChaincode(name) => o := o.(chaincode := name);
        case RetryBackoff(min, max) => o := o.(minBackoff := min, maxBackoff := max);
      }
    }
    if o.minBackoff <= 0 {
      o := o.(minBackoff := SECOND);
    }
    if o.maxBackoff < o.minBackoff {
      o := o.(maxBackoff := o.minBackoff);
    }
  }

  lemma {:induction false} AppliedInOrder(o: EventOptions, opts: seq<EventOption>, last: EventOption)
    ensures AppliedAll(o, opts + [last]) == Applied(AppliedAll(o, opts), last)
    decreases |opts|
  {
    if opts == [] {
      assert [last][1..] == [];
    } else {
      assert (opts + [last])[1..] == opts[1..] + [last];
      AppliedInOrder(Applied(o, opts[0]), opts[1..], last);
    }
  }

  /** The listener's own checkpointer, appended last, wins over any the caller passed, and changes nothing
      else: the options read before it was appended are the ones every session runs with. */
  lemma ListenerCheckpointerWins(chaincode: string, opts: seq<EventOption>, cp: Checkpointer)
    ensures Resolved(chaincode, opts + [WithCheckpointer(cp)]) == Resolved(chaincode, opts).(checkpoint := cp)
  {
    AppliedInOrder(Defaults(chaincode), opts, WithCheckpointer(cp));
  }

  // ---- the last option of a kind counts ----

  function LastStart(opts: seq<EventOption>): Option<nat> {
    if opts == [] then None
    else
      var last := opts[|opts| - 1];
      if last.FromBlock? then Some(last.number) else LastStart(opts[..|opts| - 1])
  }

  function LastCheckpointer(opts: seq<EventOption>): Checkpointer? {
    if opts == [] then null
    else
      var last := opts[|opts| - 1];
      if last.WithCheckpointer? then last.cp else LastCheckpointer(opts[..|opts| - 1])
  }

  function LastChaincode(opts: seq<EventOption>, chaincode: string): string {
    if opts == [] then chaincode
    else
      var last := opts[|opts| - 1];
      if last.ForChaincode? then last.name else LastChaincode(opts[..|opts| - 1], chaincode)
  }

  /** The last range of delays asked for; one second to thirty when none was. */
  function LastRange(opts: seq<EventOption>): (Duration, Duration) {
    if opts == [] then (1_000_000_000, 30_000_000_000)
    else
      var last := opts[|opts| - 1];
      if last.RetryBackoff? then (last.min, last.max) else LastRange(opts[..|opts| - 1])
  }

  lemma {:induction false} LastCounts(chaincode: string, opts: seq<EventOption>)
    ensures AppliedAll(Defaults(chaincode), opts)
         == EventOptions(LastStart(opts), LastCheckpointer(opts), LastChaincode(opts, chaincode), LastRange(opts).0, LastRange(opts).1)
  {
    if opts != [] {
      var front, last := opts[..|opts| - 1], opts[|opts| - 1];
      LastCounts(chaincode, front);
      AppliedInOrder(Defaults(chaincode), front, last);
      assert opts == front + [last];
    }
  }

  /** Each setting is the last one asked for, or its default; a minimum that is not positive becomes one second, and
      a maximum below the minimum becomes the minimum. */
  lemma ResolvedExactly(chaincode: string, opts: seq<EventOption>)
    ensures var o := Resolved(chaincode, opts);
            var (min, max) := LastRange(opts);
            && o.startBlock == LastStart(opts) && o.checkpoint == LastCheckpointer(opts)
            && o.chaincode == LastChaincode(opts, chaincode)
            && o.minBackoff == (if min > 0 then min else 1_000_000_000)
            && o.maxBackoff == (if max >= o.minBackoff then max else o.minBackoff)
  {
    LastCounts(chaincode, opts);
  }

  // ---- delay between reconnects ----

  function Min(a: int, b: int): int {
    if a < b then a else b
  }

  /** What a 64-bit doubling of `d` yields: two's complement wraps it once at most. */
  function Twice64(d: Duration): Duration {
    if 2 * d > MAX_INT64 then 2 * d - 0x1_0000_0000_0000_0000
    else if 2 * d < -0x8000_0000_0000_0000 then 2 * d + 0x1_0000_0000_0000_0000
    else 2 * d
  }

  function NextBackoff(backoff: Duration, max: Duration): Duration {
    Min(Twice64(backoff), max)
  }

  /** The delay before the next session when `k` sessions in a row recorded nothing. */
  function Delay(k: nat, min: Duration, max: Duration): Duration {
    if k == 0 then min else NextBackoff(Delay(k - 1, min, max), max)
  }

  /** `d` times two to the `k`, over unbounded integers. */
  function Doubled(d: int, k: nat): int {
    if k == 0 then d else 2 * Doubled(d, k - 1)
  }

  predicate DoublingFits(max: Duration) {
    max <= MAX_INT64 / 2
  }

  lemma {:induction false} DelayIsCappedPower(k: nat, min: Duration, max: Duration)
    requires 0 < min <= max && DoublingFits(max)
    ensures Delay(k, min, max) == Min(Doubled(min, k), max)
    ensures min <= Delay(k, min, max) <= max && min <= Doubled(min, k)
  {
    if k > 0 {
      DelayIsCappedPower(k - 1, min, max);
    }
  }

  predicate CappedPower(k: nat, min: Duration, max: Duration) {
    Delay(k, min, max) == Min(Doubled(min, k), max)
  }

  predicate WithinBounds(k: nat, min: Duration, max: Duration) {
    min <= Delay(k, min, max) <= max
  }

  /** As long as the delay has not fallen below its minimum, no doubling wrapped, so it is the capped power. */
  lemma {:induction false} UnwrappedDelay(k: nat, min: Duration, max: Duration)
    requires 0 < min <= max && forall j: nat :: j <= k ==> WithinBounds(j, min, max)
    ensures CappedPower(k, min, max)
  {
    if k > 0 {
      UnwrappedDelay(k - 1, min, max);
      assert WithinBounds(k - 1, min, max) && WithinBounds(k, min, max);
    }
  }

  lemma {:induction false} DoublingGrows(d: int, k: nat)
    requires d >= 1
    ensures Doubled(d, k) >= d && Doubled(d, k) >= Doubled(1, k)
  {
    if k > 0 {
      DoublingGrows(d, k - 1);
    }
  }

  /** A delay below its minimum is no power of two either. */
  lemma OutOfBounds(k: nat, min: Duration, max: Duration)
    requires 0 < min <= max && !WithinBounds(k, min, max)
    ensures !CappedPower(k, min, max)
  {
    DoublingGrows(min, k);
  }

  lemma {:induction false} DoublingAdds(m: nat, n: nat)
    ensures Doubled(1, m + n) == Doubled(1, m) * Doubled(1, n)
  {
    if n > 0 {
      DoublingAdds(m, n - 1);
    }
  }

  lemma Doubled62()
    ensures Doubled(1, 62) == 0x4000_0000_0000_0000
  {
    assert Doubled(1, 2) == 4;
    DoublingAdds(2, 2);
    DoublingAdds(4, 4);
    DoublingAdds(8, 8);
    DoublingAdds(16, 16);
    DoublingAdds(32, 32);
    DoublingAdds(62, 2);
  }

  /** A maximum above half the 64-bit range is reached after 62 doublings at most, and the next one wraps. */
  lemma LargeMaximumWraps(min: Duration, max: Duration) returns (k: nat)
    requires 0 < min <= max && !DoublingFits(max)
    ensures k <= 63 && !WithinBounds(k, min, max) && !CappedPower(k, min, max)
  {
    if k' :| 0 <= k' <= 62 && !WithinBounds(k', min, max) {
      k := k';
    } else {
      k := 63;
      UnwrappedDelay(62, min, max);
      DoublingGrows(min, 62);
      Doubled62();
      assert 2 * Delay(62, min, max) > MAX_INT64;
    }
    OutOfBounds(k, min, max);
  }

  /** The delay is the minimum doubled `k` times and capped, and stays within its bounds for every `k`,
      exactly when the maximum is at most half the largest 64-bit integer; otherwise both fail within the first
      64 sessions. */
  lemma DelayExact(min: Duration, max: Duration)
    requires 0 < min <= max
    ensures (forall k: nat :: CappedPower(k, min, max)) <==> DoublingFits(max)
    ensures (forall k: nat :: WithinBounds(k, min, max)) <==> DoublingFits(max)
    ensures DoublingFits(max) || exists k: nat :: k <= 63 && !CappedPower(k, min, max) && !WithinBounds(k, min, max)
  {
    if DoublingFits(max) {
      forall k: nat ensures CappedPower(k, min, max) && WithinBounds(k, min, max) {
        DelayIsCappedPower(k, min, max);
      }
    } else {
      var k := LargeMaximumWraps(min, max);
    }
  }
}
