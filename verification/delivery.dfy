/** What a listener delivers over whole runs and over sequences of runs that share one durable position. */
module Delivery {
  import opened Ledger
  import opened Options
  import opened Errors
  import opened Listener
  import Classification

  // ---- the delivery law ----

  /** How many of the accepted items left a recorded position behind. */
  function RecordedCount(atomic: bool, h: seq<Entry>): (n: nat)
    ensures n <= |h|
  {
    if h == [] then 0
    else RecordedCount(atomic, h[..|h| - 1]) + if Recorded(atomic, h[|h| - 1].fate) then 1 else 0
  }

  /** Each accepted item is the one at `a` plus the number of recorded items before it. */
  predicate Law(cfg: Config, a: nat, h: seq<Entry>) {
    h == [] ||
    var g := h[..|h| - 1];
    var n := RecordedCount(cfg.atomic, g);
    Law(cfg, a, g) && a + n < |cfg.log| && h[|g|].item == cfg.log[a + n]
  }

  /** The position is the initial one until something is recorded; from then on it resumes right after it. */
  ghost predicate Linked(cfg: Config, a: nat, p0: Position, s: Listener) {
    var n := RecordedCount(cfg.atomic, s.history);
    if n == 0 then s.position == p0
    else a + n <= |cfg.log| && s.position == Mark(cfg.mode, cfg.log[a + n - 1])
  }

  ghost predicate Lawful(cfg: Config, a: nat, p0: Position, s: Listener) {
    Law(cfg, a, s.history) && Linked(cfg, a, p0, s)
  }

  /** A requested block or a recorded position fixes where delivery starts. */
  predicate Anchored(cfg: Config, p: Position) {
    p.Positioned() || cfg.from.Some?
  }

  function AnchorIndex(cfg: Config, p: Position): (i: nat)
    requires Anchored(cfg, p)
    ensures i <= |cfg.log|
  {
    ResumeIndex(cfg.log, if p.Positioned() then Requested(cfg.mode, p) else Position(cfg.from.value, ""))
  }

  lemma CountExtends(atomic: bool, h: seq<Entry>, e: Entry)
    ensures RecordedCount(atomic, h + [e]) == RecordedCount(atomic, h) + if Recorded(atomic, e.fate) then 1 else 0
  {
    assert (h + [e])[..|h|] == h;
  }

  lemma LawExtends(cfg: Config, a: nat, h: seq<Entry>, e: Entry)
    requires Law(cfg, a, h)
    requires var n := RecordedCount(cfg.atomic, h); a + n < |cfg.log| && e.item == cfg.log[a + n]
    ensures Law(cfg, a, h + [e])
  {
    assert (h + [e])[..|h|] == h;
  }

  lemma ItemStepLawful(cfg: Config, a: nat, p0: Position, s: Listener, item: Item, fate: Fate)
    requires Lawful(cfg, a, p0, s)
    requires var n := RecordedCount(cfg.atomic, s.history); a + n < |cfg.log| && item == cfg.log[a + n]
    ensures var s' := ItemStep(cfg, s, item, fate);
            && Lawful(cfg, a, p0, s')
            && (s'.outcome.Running? && s.outcome.Running? ==>
                  RecordedCount(cfg.atomic, s'.history) == RecordedCount(cfg.atomic, s.history) + 1)
  {
    if !fate.HandlerFails? {
      CountExtends(cfg.atomic, s.history, Entry(item, fate));
      LawExtends(cfg, a, s.history, Entry(item, fate));
    }
  }

  lemma {:induction false} ItemStepsLawful(cfg: Config, a: nat, p0: Position, s: Listener, feed: seq<Item>, fates: seq<Fate>)
    requires Lawful(cfg, a, p0, s)
    requires var n := RecordedCount(cfg.atomic, s.history);
             s.outcome.Running? ==> a + n <= |cfg.log| && feed == cfg.log[a + n..]
    ensures Lawful(cfg, a, p0, ItemSteps(cfg, s, feed, fates))
    decreases |fates|
  {
    if feed != [] && fates != [] && s.outcome.Running? {
      ItemStepLawful(cfg, a, p0, s, feed[0], fates[0]);
      ItemStepsLawful(cfg, a, p0, ItemStep(cfg, s, feed[0], fates[0]), feed[1..], fates[1..]);
    }
  }

  /** What a session adds to position and history, it adds through its items. */
  lemma SessionKeepsItems(cfg: Config, s: Listener, session: Session)
    ensures var s', items := SessionStep(cfg, s, session), SessionItems(cfg, s, session);
            && s'.position == items.position && s'.history == items.history
            && (s'.outcome.Running? ==> items.outcome.Running?)
  {
  }

  /** Once something is recorded, or with an anchor, every subscription is served from the next item on. */
  lemma FeedContinues(cfg: Config, a: nat, p0: Position, s: Listener, height: nat)
    requires WellFormed(cfg.mode, cfg.log) && Linked(cfg, a, p0, s) && Fixed(cfg, a, p0, s.history)
    ensures var n := RecordedCount(cfg.atomic, s.history);
            a + n <= |cfg.log| && Feed(cfg.mode, cfg.log, cfg.from, s.position, height) == cfg.log[a + n..]
  {
    var n := RecordedCount(cfg.atomic, s.history);
    if n > 0 {
      FeedAfterMark(cfg, a + n - 1, height);
    } else {
      FeedIsSuffix(cfg, p0, height);
    }
  }

  lemma FeedIsSuffix(cfg: Config, p: Position, height: nat)
    requires WellFormed(cfg.mode, cfg.log) && Anchored(cfg, p)
    ensures Feed(cfg.mode, cfg.log, cfg.from, p, height) == cfg.log[AnchorIndex(cfg, p)..]
  {
    LogSorted(cfg);
    ServeIsSuffix(cfg.log, if p.Positioned() then Requested(cfg.mode, p) else Position(cfg.from.value, ""));
  }

  /** Without an anchor, a subscription is served from the next committed block on. */
  lemma UnanchoredFeed(cfg: Config, p: Position, height: nat)
    requires WellFormed(cfg.mode, cfg.log) && !Anchored(cfg, p)
    ensures Feed(cfg.mode, cfg.log, cfg.from, p, height) == cfg.log[FirstFrom(cfg.log, height)..]
  {
    LogSorted(cfg);
    ServeIsSuffix(cfg.log, Position(height, ""));
  }

  lemma FeedAfterMark(cfg: Config, i: nat, height: nat)
    requires WellFormed(cfg.mode, cfg.log) && i < |cfg.log|
    ensures Feed(cfg.mode, cfg.log, cfg.from, Mark(cfg.mode, cfg.log[i]), height) == cfg.log[i + 1..]
  {
    ResumeAfterMark(cfg.mode, cfg.log, i);
    FeedIsSuffix(cfg, Mark(cfg.mode, cfg.log[i]), height);
  }

  lemma LogSorted(cfg: Config)
    requires WellFormed(cfg.mode, cfg.log)
    ensures Sorted(cfg.log)
  {
  }

  /** Where the next subscription continues is settled: by a record, or by the anchor. */
  ghost predicate Fixed(cfg: Config, a: nat, p0: Position, h: seq<Entry>) {
    RecordedCount(cfg.atomic, h) > 0 || (Anchored(cfg, p0) && a == AnchorIndex(cfg, p0))
  }

  lemma SessionLawful(cfg: Config, a: nat, p0: Position, s: Listener, session: Session)
    requires WellFormed(cfg.mode, cfg.log) && Lawful(cfg, a, p0, s) && Fixed(cfg, a, p0, s.history)
    ensures Lawful(cfg, a, p0, SessionStep(cfg, s, session)) && Fixed(cfg, a, p0, SessionStep(cfg, s, session).history)
  {
    SessionKeepsItems(cfg, s, session);
    SessionItemsLawful(cfg, a, p0, s, session);
    LawfulOfItems(cfg, a, p0, SessionItems(cfg, s, session), SessionStep(cfg, s, session));
    SessionGrows(cfg, s, session);
    CountGrows(cfg.atomic, s.history, SessionStep(cfg, s, session).history);
  }

  lemma {:induction false} CountGrows(atomic: bool, h: seq<Entry>, h': seq<Entry>)
    requires h <= h'
    ensures RecordedCount(atomic, h) <= RecordedCount(atomic, h')
    decreases |h'|
  {
    if |h| < |h'| {
      CountGrows(atomic, h, h'[..|h'| - 1]);
    } else {
      assert h == h';
    }
  }

  lemma {:induction false} HistoryGrows(cfg: Config, s: Listener, feed: seq<Item>, fates: seq<Fate>)
    ensures s.history <= ItemSteps(cfg, s, feed, fates).history
    decreases |fates|
  {
    if feed != [] && fates != [] && s.outcome.Running? {
      HistoryGrows(cfg, ItemStep(cfg, s, feed[0], fates[0]), feed[1..], fates[1..]);
    }
  }

  lemma SessionGrows(cfg: Config, s: Listener, session: Session)
    ensures s.history <= SessionStep(cfg, s, session).history
  {
    SessionKeepsItems(cfg, s, session);
    if session.opening.Opened? {
      HistoryGrows(cfg, s, Feed(cfg.mode, cfg.log, cfg.from, s.position, session.opening.height), session.fates);
    }
  }

  lemma {:induction false} RunGrows(cfg: Config, s: Listener, script: seq<Session>)
    ensures s.history <= Run(cfg, s, script).history
    decreases |script|
  {
    if script != [] && s.outcome.Running? {
      SessionGrows(cfg, s, script[0]);
      RunGrows(cfg, SessionStep(cfg, s, script[0]), script[1..]);
    }
  }

  lemma SessionItemsLawful(cfg: Config, a: nat, p0: Position, s: Listener, session: Session)
    requires WellFormed(cfg.mode, cfg.log) && Lawful(cfg, a, p0, s) && Fixed(cfg, a, p0, s.history)
    ensures Lawful(cfg, a, p0, SessionItems(cfg, s, session))
  {
    if session.opening.Opened? {
      FeedContinues(cfg, a, p0, s, session.opening.height);
      ItemStepsLawful(cfg, a, p0, s, Feed(cfg.mode, cfg.log, cfg.from, s.position, session.opening.height), session.fates);
    }
  }

  lemma LawfulOfItems(cfg: Config, a: nat, p0: Position, items: Listener, s: Listener)
    requires Lawful(cfg, a, p0, items) && s.position == items.position && s.history == items.history
    ensures Lawful(cfg, a, p0, s)
  {
  }

  /** One run whose continuation is settled. */
  lemma {:induction false} RunLawful(cfg: Config, a: nat, p0: Position, s: Listener, script: seq<Session>)
    requires WellFormed(cfg.mode, cfg.log) && Lawful(cfg, a, p0, s) && Fixed(cfg, a, p0, s.history)
    ensures Lawful(cfg, a, p0, Run(cfg, s, script)) && Fixed(cfg, a, p0, Run(cfg, s, script).history)
    decreases |script|
  {
    if script != [] && s.outcome.Running? {
      SessionLawful(cfg, a, p0, s, script[0]);
      RunLawful(cfg, a, p0, SessionStep(cfg, s, script[0]), script[1..]);
    }
  }

  /** A process that died or returned is started again: only the position survives; the history keeps counting. */
  function Runs(cfg: Config, s: Listener, runs: seq<seq<Session>>): Listener
    decreases |runs|
  {
    if runs == [] then s
    else Runs(cfg, Run(cfg, Restarted(cfg, s), runs[0]), runs[1..])
  }

  function Restarted(cfg: Config, s: Listener): Listener {
    s.(backoff := cfg.min, outcome := Running)
  }

  /** The law over any number of crashed, failed or finished runs that share one durable position. */
  lemma {:induction false} RunsLawful(cfg: Config, a: nat, p0: Position, s: Listener, runs: seq<seq<Session>>)
    requires WellFormed(cfg.mode, cfg.log) && Lawful(cfg, a, p0, s) && Fixed(cfg, a, p0, s.history)
    ensures Lawful(cfg, a, p0, Runs(cfg, s, runs))
    decreases |runs|
  {
    if runs != [] {
      LawfulOfItems(cfg, a, p0, s, Restarted(cfg, s));
      RunLawful(cfg, a, p0, Restarted(cfg, s), runs[0]);
      RunsLawful(cfg, a, p0, Run(cfg, Restarted(cfg, s), runs[0]), runs[1..]);
    }
  }

  lemma {:induction false} RunsGrow(cfg: Config, s: Listener, runs: seq<seq<Session>>)
    ensures s.history <= Runs(cfg, s, runs).history
    decreases |runs|
  {
    if runs != [] {
      RunGrows(cfg, Restarted(cfg, s), runs[0]);
      RunsGrow(cfg, Run(cfg, Restarted(cfg, s), runs[0]), runs[1..]);
    }
  }

  // ---- what the law means for the caller ----

  function Items(h: seq<Entry>): (r: seq<Item>)
    ensures |r| == |h| && forall i :: 0 <= i < |h| ==> r[i] == h[i].item
  {
    seq(|h|, i requires 0 <= i < |h| => h[i].item)
  }

  /** Adjacent repeats counted once. */
  function Collapse(items: seq<Item>): seq<Item> {
    if items == [] then []
    else
      var rest := Collapse(items[..|items| - 1]);
      if |items| >= 2 && items[|items| - 2] == items[|items| - 1] then rest else rest + [items[|items| - 1]]
  }

  /** Accepted items whose position was lost: the process died, or the store refused and kept nothing. */
  function LostCount(atomic: bool, h: seq<Entry>): nat {
    if h == [] then 0
    else
      var fate := h[|h| - 1].fate;
      LostCount(atomic, h[..|h| - 1]) +
      if !atomic && (fate.DiesAfterHandling? || (fate.CheckpointFails? && !fate.stored)) then 1 else 0
  }

  /** Accepted entries were handled, so every one is either recorded or lost. */
  ghost predicate Handled(h: seq<Entry>) {
    forall i :: 0 <= i < |h| ==> !h[i].fate.HandlerFails?
  }

  lemma {:induction false} RecordedOrLost(atomic: bool, h: seq<Entry>)
    requires Handled(h)
    ensures |h| == RecordedCount(atomic, h) + LostCount(atomic, h)
  {
    if h != [] {
      RecordedOrLost(atomic, h[..|h| - 1]);
    }
  }

  predicate Differ(log: seq<Item>, i: nat, j: nat) {
    i < |log| && j < |log| && log[i] != log[j]
  }

  ghost predicate Distinct(log: seq<Item>) {
    forall i, j :: 0 <= i < j < |log| ==> Differ(log, i, j)
  }

  lemma WellFormedIsDistinct(mode: Mode, log: seq<Item>)
    requires WellFormed(mode, log)
    ensures Distinct(log)
  {
  }

  lemma CollapseExtends(items: seq<Item>, x: Item)
    ensures Collapse(items + [x])
         == if items != [] && items[|items| - 1] == x then Collapse(items) else Collapse(items) + [x]
  {
    assert (items + [x])[..|items|] == items;
  }

  lemma SegmentExtends(log: seq<Item>, a: nat, n: nat, n': nat)
    requires n <= n' <= n + 1 && a + n' < |log| && (n < n' ==> Differ(log, a + n, a + n'))
    ensures log[a..a + n' + 1]
         == if log[a + n] == log[a + n'] then log[a..a + n + 1] else log[a..a + n + 1] + [log[a + n']]
  {
  }

  /** The index of the last acceptance of a lawful history. */
  function LastIndex(cfg: Config, a: nat, h: seq<Entry>): nat
    requires h != []
  {
    a + RecordedCount(cfg.atomic, h[..|h| - 1])
  }

  lemma LastIndexMoves(cfg: Config, a: nat, g: seq<Entry>, h: seq<Entry>)
    requires g != [] && h != [] && g == h[..|h| - 1] && Law(cfg, a, h) && Distinct(cfg.log)
    ensures var i, j := LastIndex(cfg, a, g), LastIndex(cfg, a, h);
            && i <= j <= i + 1 && j < |cfg.log| && (i < j ==> Differ(cfg.log, i, j))
            && Items(g)[|g| - 1] == cfg.log[i] && Items(h) == Items(g) + [cfg.log[j]]
  {
    var i, j := LastIndex(cfg, a, g), LastIndex(cfg, a, h);
    assert i < j ==> Differ(cfg.log, i, j);
  }

  /** Repeats collapsed, a lawful history is the segment from `a` that ends with its last acceptance. */
  lemma {:induction false} CollapsedPrefix(cfg: Config, a: nat, h: seq<Entry>)
    requires Distinct(cfg.log) && Law(cfg, a, h) && h != []
    ensures var j := LastIndex(cfg, a, h);
            a <= j < |cfg.log| && Collapse(Items(h)) == cfg.log[a..j + 1]
    decreases |h|
  {
    var g := h[..|h| - 1];
    if g == [] {
      FirstAcceptance(cfg, a, h);
    } else {
      CollapsedPrefix(cfg, a, g);
      LastIndexMoves(cfg, a, g, h);
      CollapsedMoves(cfg.log, a, Items(g), LastIndex(cfg, a, g), LastIndex(cfg, a, h));
    }
  }

  lemma FirstAcceptance(cfg: Config, a: nat, h: seq<Entry>)
    requires Law(cfg, a, h) && |h| == 1
    ensures LastIndex(cfg, a, h) == a < |cfg.log| && Collapse(Items(h)) == cfg.log[a..a + 1]
  {
    CollapseExtends([], cfg.log[a]);
    assert h[..0] == [] && Items(h) == [] + [cfg.log[a]];
  }

  lemma CollapsedMoves(log: seq<Item>, a: nat, items: seq<Item>, i: nat, j: nat)
    requires a <= i <= j <= i + 1 && j < |log| && (i < j ==> Differ(log, i, j))
    requires items != [] && items[|items| - 1] == log[i] && Collapse(items) == log[a..i + 1]
    ensures Collapse(items + [log[j]]) == log[a..j + 1]
  {
    CollapseExtends(items, log[j]);
    SegmentExtends(log, a, i - a, j - a);
  }

  lemma {:induction false} ItemStepsHandled(cfg: Config, s: Listener, feed: seq<Item>, fates: seq<Fate>)
    requires Handled(s.history)
    ensures Handled(ItemSteps(cfg, s, feed, fates).history)
    decreases |fates|
  {
    if feed != [] && fates != [] && s.outcome.Running? {
      ItemStepsHandled(cfg, ItemStep(cfg, s, feed[0], fates[0]), feed[1..], fates[1..]);
    }
  }

  lemma {:induction false} RunHandled(cfg: Config, s: Listener, script: seq<Session>)
    requires Handled(s.history)
    ensures Handled(Run(cfg, s, script).history)
    decreases |script|
  {
    if script != [] && s.outcome.Running? {
      if script[0].opening.Opened? {
        ItemStepsHandled(cfg, s, Feed(cfg.mode, cfg.log, cfg.from, s.position, script[0].opening.height), script[0].fates);
      }
      RunHandled(cfg, SessionStep(cfg, s, script[0]), script[1..]);
    }
  }

  lemma {:induction false} RunsHandled(cfg: Config, s: Listener, runs: seq<seq<Session>>)
    requires Handled(s.history)
    ensures Handled(Runs(cfg, s, runs).history)
    decreases |runs|
  {
    if runs != [] {
      RunHandled(cfg, Restarted(cfg, s), runs[0]);
      RunsHandled(cfg, Run(cfg, Restarted(cfg, s), runs[0]), runs[1..]);
    }
  }

  /** At least once: over any crash schedule the accepted items, repeats collapsed, are exactly the first items
      of the log from the anchor, in order and without a gap; and each acceptance beyond the recorded ones is
      one death or lost checkpoint. */
  lemma AtLeastOnce(cfg: Config, p0: Position, runs: seq<seq<Session>>)
    requires WellFormed(cfg.mode, cfg.log) && Anchored(cfg, p0)
    ensures var s := Runs(cfg, Started(cfg, p0), runs);
            var a := AnchorIndex(cfg, p0);
            var once := Collapse(Items(s.history));
            && a + |once| <= |cfg.log| && once == cfg.log[a..a + |once|]
            && |s.history| == RecordedCount(cfg.atomic, s.history) + LostCount(cfg.atomic, s.history)
            && RecordedCount(cfg.atomic, s.history) <= |once| <= RecordedCount(cfg.atomic, s.history) + 1
            && Linked(cfg, a, p0, s)
  {
    var s := StartedRuns(cfg, p0, runs);
    LawfulOnce(cfg, AnchorIndex(cfg, p0), s.history);
  }

  lemma LawfulOnce(cfg: Config, a: nat, h: seq<Entry>)
    requires WellFormed(cfg.mode, cfg.log) && a <= |cfg.log| && Law(cfg, a, h) && Handled(h)
    ensures var once := Collapse(Items(h));
            && a + |once| <= |cfg.log| && once == cfg.log[a..a + |once|]
            && |h| == RecordedCount(cfg.atomic, h) + LostCount(cfg.atomic, h)
            && RecordedCount(cfg.atomic, h) <= |once| <= RecordedCount(cfg.atomic, h) + 1
  {
    RecordedOrLost(cfg.atomic, h);
    if h == [] {
      assert Collapse(Items(h)) == [] && cfg.log[a..a] == [];
    } else {
      WellFormedIsDistinct(cfg.mode, cfg.log);
      CollapsedPrefix(cfg, a, h);
    }
  }

  lemma {:induction false} AllRecorded(cfg: Config, h: seq<Entry>)
    requires cfg.atomic
    ensures RecordedCount(cfg.atomic, h) == |h|
  {
    if h != [] {
      AllRecorded(cfg, h[..|h| - 1]);
    }
  }

  /** Exactly once: when the handler advances the position atomically with its data, the applied effects over
      any crash schedule are the first items of the log from the anchor, each once, and the position is always
      right after the last one. */
  lemma ExactlyOnce(cfg: Config, p0: Position, runs: seq<seq<Session>>)
    requires WellFormed(cfg.mode, cfg.log) && Anchored(cfg, p0) && cfg.atomic
    ensures var s := Runs(cfg, Started(cfg, p0), runs);
            AppliedOnce(cfg, AnchorIndex(cfg, p0), p0, s)
  {
    var s := StartedRuns(cfg, p0, runs);
    AtomicLawIsSegment(cfg, AnchorIndex(cfg, p0), p0, s);
  }

  /** The accepted items are the first ones from `a`, each once, and the position is right after the last. */
  predicate AppliedOnce(cfg: Config, a: nat, p0: Position, s: Listener) {
    && a + |s.history| <= |cfg.log| && Items(s.history) == cfg.log[a..a + |s.history|]
    && s.position == if s.history == [] then p0 else Mark(cfg.mode, cfg.log[a + |s.history| - 1])
  }

  /** The final state of runs from a position, as far as the law knows it. */
  lemma StartedRuns(cfg: Config, p0: Position, runs: seq<seq<Session>>) returns (s: Listener)
    requires WellFormed(cfg.mode, cfg.log) && Anchored(cfg, p0)
    ensures s == Runs(cfg, Started(cfg, p0), runs)
    ensures Lawful(cfg, AnchorIndex(cfg, p0), p0, s) && Handled(s.history)
  {
    s := Runs(cfg, Started(cfg, p0), runs);
    RunsLawful(cfg, AnchorIndex(cfg, p0), p0, Started(cfg, p0), runs);
    RunsHandled(cfg, Started(cfg, p0), runs);
  }

  lemma AtomicLawIsSegment(cfg: Config, a: nat, p0: Position, s: Listener)
    requires cfg.atomic && Lawful(cfg, a, p0, s) && a <= |cfg.log|
    ensures AppliedOnce(cfg, a, p0, s)
  {
    LawIsSegment(cfg, a, s.history);
    AllRecorded(cfg, s.history);
  }

  /** The listener's write after the handler's changes nothing, whatever becomes of it. */
  ghost predicate SecondWriteIsNoOp(cfg: Config) {
    forall p: Position, item: Item, fate: Fate ::
      ListenerWrites(cfg, HandlerWrites(cfg, p, item), item, fate) == HandlerWrites(cfg, p, item)
  }

  /** The listener's own checkpoint after the handler is a no-op exactly when the handler is atomic. */
  lemma CheckpointIsNoOpExactlyAfterAtomicHandler(cfg: Config)
    ensures SecondWriteIsNoOp(cfg) <==> cfg.atomic
  {
    if !cfg.atomic {
      var item := Item(0, "");
      var p := Position(2, "");
      assert ListenerWrites(cfg, HandlerWrites(cfg, p, item), item, Kept) != HandlerWrites(cfg, p, item);
    }
  }

  // ---- one run: a contiguous segment ----

  /** At most the last acceptance of a run is unrecorded, for that ends the run. */
  ghost predicate OnlyLastLost(cfg: Config, s: Listener) {
    && (forall i :: 0 <= i < |s.history| - 1 ==> Recorded(cfg.atomic, s.history[i].fate))
    && (s.outcome.Running? ==> forall i :: 0 <= i < |s.history| ==> Recorded(cfg.atomic, s.history[i].fate))
  }

  lemma {:induction false} ItemStepsOnlyLastLost(cfg: Config, s: Listener, feed: seq<Item>, fates: seq<Fate>)
    requires OnlyLastLost(cfg, s)
    ensures OnlyLastLost(cfg, ItemSteps(cfg, s, feed, fates))
    decreases |fates|
  {
    if feed != [] && fates != [] && s.outcome.Running? {
      ItemStepsOnlyLastLost(cfg, ItemStep(cfg, s, feed[0], fates[0]), feed[1..], fates[1..]);
    }
  }

  lemma {:induction false} RunOnlyLastLost(cfg: Config, s: Listener, script: seq<Session>)
    requires OnlyLastLost(cfg, s)
    ensures OnlyLastLost(cfg, Run(cfg, s, script))
    decreases |script|
  {
    if script != [] && s.outcome.Running? {
      if script[0].opening.Opened? {
        ItemStepsOnlyLastLost(cfg, s, Feed(cfg.mode, cfg.log, cfg.from, s.position, script[0].opening.height), script[0].fates);
      }
      RunOnlyLastLost(cfg, SessionStep(cfg, s, script[0]), script[1..]);
    }
  }

  lemma {:induction false} CountAll(atomic: bool, h: seq<Entry>)
    requires forall i :: 0 <= i < |h| ==> Recorded(atomic, h[i].fate)
    ensures RecordedCount(atomic, h) == |h|
  {
    if h != [] {
      CountAll(atomic, h[..|h| - 1]);
    }
  }

  /** Where all but the last acceptance are recorded, the law says: a contiguous segment from `a`. */
  lemma {:induction false} LawIsSegment(cfg: Config, a: nat, h: seq<Entry>)
    requires Law(cfg, a, h) && a <= |cfg.log|
    requires forall i :: 0 <= i < |h| - 1 ==> Recorded(cfg.atomic, h[i].fate)
    ensures a + |h| <= |cfg.log| && Items(h) == cfg.log[a..a + |h|]
  {
    if h == [] {
      assert cfg.log[a..a] == [];
    } else {
      var g := h[..|h| - 1];
      CountAll(cfg.atomic, g);
      LawIsSegment(cfg, a, g);
      assert Items(h) == Items(g) + [h[|g|].item];
      assert cfg.log[a..a + |h|] == cfg.log[a..a + |g|] + [cfg.log[a + |g|]];
    }
  }

  /** One anchored run accepts a prefix of the log from the anchor: in order, no gap, no duplicate. */
  lemma AnchoredRunIsPrefix(cfg: Config, p0: Position, script: seq<Session>)
    requires WellFormed(cfg.mode, cfg.log) && Anchored(cfg, p0)
    ensures var h := Run(cfg, Started(cfg, p0), script).history;
            var a := AnchorIndex(cfg, p0);
            a + |h| <= |cfg.log| && Items(h) == cfg.log[a..a + |h|]
  {
    var s0 := Started(cfg, p0);
    RunLawful(cfg, AnchorIndex(cfg, p0), p0, s0, script);
    RunOnlyLastLost(cfg, s0, script);
    LawfulRunIsSegment(cfg, AnchorIndex(cfg, p0), p0, Run(cfg, s0, script));
  }

  lemma LawfulRunIsSegment(cfg: Config, a: nat, p0: Position, s: Listener)
    requires Lawful(cfg, a, p0, s) && OnlyLastLost(cfg, s) && a <= |cfg.log|
    ensures a + |s.history| <= |cfg.log| && Items(s.history) == cfg.log[a..a + |s.history|]
  {
    LawIsSegment(cfg, a, s.history);
  }

  /** Session `i` is the first of a run that delivers, and the block committed next when it subscribed is the one
      of the log's item `a`. */
  predicate FirstDelivers(cfg: Config, s: Listener, script: seq<Session>, i: nat, a: nat) {
    && i < |script| && script[i].opening.Opened? && a == FirstFrom(cfg.log, script[i].opening.height)
    && Run(cfg, s, script[..i]).history == [] && Run(cfg, s, script[..i + 1]).history != []
  }

  /** Without an anchor, one run still accepts a contiguous segment: it starts at the block that was committed
      next when the first delivering session subscribed. */
  lemma RunIsSegment(cfg: Config, p0: Position, s: Listener, script: seq<Session>) returns (a: nat, i: nat)
    requires WellFormed(cfg.mode, cfg.log) && !Anchored(cfg, p0)
    requires s.history == [] && s.position == p0
    ensures var h := Run(cfg, s, script).history;
            && a + |h| <= |cfg.log| && Items(h) == cfg.log[a..a + |h|]
            && (h != [] ==> FirstDelivers(cfg, s, script, i, a))
  {
    a, i := UnanchoredRunLawful(cfg, p0, s, script);
    LawfulRunIsSegment(cfg, a, p0, Run(cfg, s, script));
  }

  lemma {:induction false} UnanchoredRunLawful(cfg: Config, p0: Position, s: Listener, script: seq<Session>)
    returns (a: nat, i: nat)
    requires WellFormed(cfg.mode, cfg.log) && !Anchored(cfg, p0)
    requires s.history == [] && s.position == p0
    ensures var s' := Run(cfg, s, script);
            && a <= |cfg.log| && Lawful(cfg, a, p0, s') && OnlyLastLost(cfg, s')
            && (s'.history != [] ==> FirstDelivers(cfg, s, script, i, a))
    decreases |script|
  {
    a, i := 0, 0;
    if script != [] && s.outcome.Running? {
      var s' := SessionStep(cfg, s, script[0]);
      a := FirstSession(cfg, p0, s, script[0]);
      if s'.history == [] {
        a, i := UnanchoredRunLawful(cfg, p0, s', script[1..]);
        if Run(cfg, s', script[1..]).history != [] {
          RunHead(cfg, s, script, i + 1);
          RunHead(cfg, s, script, i + 2);
        }
        i := i + 1;
      } else {
        DeliveringRunLawful(cfg, a, p0, s', script[1..]);
        RunHead(cfg, s, script, 1);
        assert script[..0] == [] && script[1..][..0] == [];
      }
    }
  }

  lemma RunHead(cfg: Config, s: Listener, script: seq<Session>, n: nat)
    requires 0 < n <= |script| && s.outcome.Running?
    ensures Run(cfg, s, script[..n]) == Run(cfg, SessionStep(cfg, s, script[0]), script[1..][..n - 1])
  {
    assert script[..n][0] == script[0] && script[..n][1..] == script[1..][..n - 1];
  }

  /** A first session that delivers fixes the start of the segment. */
  lemma FirstSession(cfg: Config, p0: Position, s: Listener, session: Session) returns (a: nat)
    requires WellFormed(cfg.mode, cfg.log) && !Anchored(cfg, p0) && s.history == [] && s.position == p0
    ensures var s' := SessionStep(cfg, s, session);
            && a <= |cfg.log| && Lawful(cfg, a, p0, s') && OnlyLastLost(cfg, s')
            && (s'.history != [] ==> session.opening.Opened? && a == FirstFrom(cfg.log, session.opening.height))
            && (s'.history == [] ==> s'.position == p0)
  {
    SessionKeepsItems(cfg, s, session);
    a := FirstItems(cfg, p0, s, session);
    var items, s' := SessionItems(cfg, s, session), SessionStep(cfg, s, session);
    LawfulOfItems(cfg, a, p0, items, s');
    LastLostOfItems(cfg, items, s');
    if s'.history == [] {
      assert RecordedCount(cfg.atomic, s'.history) == 0;
    }
  }

  lemma LastLostOfItems(cfg: Config, items: Listener, s: Listener)
    requires OnlyLastLost(cfg, items) && s.history == items.history && (s.outcome.Running? ==> items.outcome.Running?)
    ensures OnlyLastLost(cfg, s)
  {
  }

  lemma FirstItems(cfg: Config, p0: Position, s: Listener, session: Session) returns (a: nat)
    requires WellFormed(cfg.mode, cfg.log) && !Anchored(cfg, p0) && s.history == [] && s.position == p0
    ensures var items := SessionItems(cfg, s, session);
            && a <= |cfg.log| && Lawful(cfg, a, p0, items) && OnlyLastLost(cfg, items)
            && (items.history != [] ==> session.opening.Opened? && a == FirstFrom(cfg.log, session.opening.height))
  {
    a := 0;
    if session.opening.Opened? {
      a := FirstFrom(cfg.log, session.opening.height);
      UnanchoredFeed(cfg, p0, session.opening.height);
      ItemStepsLawful(cfg, a, p0, s, cfg.log[a..], session.fates);
      ItemStepsOnlyLastLost(cfg, s, cfg.log[a..], session.fates);
    }
  }

  /** A run that delivered and still runs has recorded what it delivered. */
  lemma DeliveringRunLawful(cfg: Config, a: nat, p0: Position, s: Listener, script: seq<Session>)
    requires WellFormed(cfg.mode, cfg.log) && Lawful(cfg, a, p0, s) && OnlyLastLost(cfg, s) && s.history != []
    ensures var s' := Run(cfg, s, script); Lawful(cfg, a, p0, s') && OnlyLastLost(cfg, s') && s'.history != []
  {
    RunOnlyLastLost(cfg, s, script);
    RunGrows(cfg, s, script);
    if s.outcome.Running? {
      CountAll(cfg.atomic, s.history);
      RunLawful(cfg, a, p0, s, script);
    }
  }

  // ---- crash schedules without an anchor ----

  /** What a listener does next does not depend on what it accepted before. */
  lemma {:induction false} ItemStepsForget(cfg: Config, h: seq<Entry>, s: Listener, feed: seq<Item>, fates: seq<Fate>)
    ensures var s' := ItemSteps(cfg, s, feed, fates);
            ItemSteps(cfg, s.(history := h + s.history), feed, fates) == s'.(history := h + s'.history)
    decreases |fates|
  {
    if feed != [] && fates != [] && s.outcome.Running? {
      ItemStepForgets(cfg, h, s, feed[0], fates[0]);
      ItemStepsForget(cfg, h, ItemStep(cfg, s, feed[0], fates[0]), feed[1..], fates[1..]);
    }
  }

  lemma ItemStepForgets(cfg: Config, h: seq<Entry>, s: Listener, item: Item, fate: Fate)
    ensures var s' := ItemStep(cfg, s, item, fate);
            ItemStep(cfg, s.(history := h + s.history), item, fate) == s'.(history := h + s'.history)
  {
    assert h + s.history + [Entry(item, fate)] == h + (s.history + [Entry(item, fate)]);
  }

  lemma SessionForgets(cfg: Config, h: seq<Entry>, s: Listener, session: Session)
    ensures var s' := SessionStep(cfg, s, session);
            SessionStep(cfg, s.(history := h + s.history), session) == s'.(history := h + s'.history)
  {
    if session.opening.Opened? {
      ItemStepsForget(cfg, h, s, Feed(cfg.mode, cfg.log, cfg.from, s.position, session.opening.height), session.fates);
    }
  }

  lemma {:induction false} RunForgets(cfg: Config, h: seq<Entry>, s: Listener, script: seq<Session>)
    ensures var s' := Run(cfg, s, script);
            Run(cfg, s.(history := h + s.history), script) == s'.(history := h + s'.history)
    decreases |script|
  {
    if script != [] && s.outcome.Running? {
      SessionForgets(cfg, h, s, script[0]);
      RunForgets(cfg, h, SessionStep(cfg, s, script[0]), script[1..]);
    }
  }

  lemma {:induction false} RunsForget(cfg: Config, h: seq<Entry>, s: Listener, runs: seq<seq<Session>>)
    ensures var s' := Runs(cfg, s, runs);
            Runs(cfg, s.(history := h + s.history), runs) == s'.(history := h + s'.history)
    decreases |runs|
  {
    if runs != [] {
      RunForgets(cfg, h, Restarted(cfg, s), runs[0]);
      RunsForget(cfg, h, Run(cfg, Restarted(cfg, s), runs[0]), runs[1..]);
    }
  }

  ghost predicate NoneRecorded(cfg: Config, h: seq<Entry>) {
    forall i :: 0 <= i < |h| ==> !Recorded(cfg.atomic, h[i].fate)
  }

  /** Up to `m` nothing was recorded; `m` itself was, and from there on the law holds from `a`. */
  ghost predicate LawfulFrom(cfg: Config, p0: Position, s: Listener, m: nat, a: nat) {
    && m <= |s.history| && a <= |cfg.log| && NoneRecorded(cfg, s.history[..m])
    && (m < |s.history| ==> Recorded(cfg.atomic, s.history[m].fate))
    && Lawful(cfg, a, p0, s.(history := s.history[m..]))
  }

  lemma {:induction false} CountNone(cfg: Config, h: seq<Entry>)
    requires RecordedCount(cfg.atomic, h) == 0
    ensures NoneRecorded(cfg, h)
  {
    if h != [] {
      CountNone(cfg, h[..|h| - 1]);
    }
  }

  /** A run that starts with nothing recorded either records nothing and accepts at most one item, or records
      the first item it accepts. */
  lemma FirstOfRun(cfg: Config, a: nat, p0: Position, s: Listener)
    requires Lawful(cfg, a, p0, s) && OnlyLastLost(cfg, s)
    ensures if RecordedCount(cfg.atomic, s.history) == 0
            then s.position == p0 && |s.history| <= 1 && NoneRecorded(cfg, s.history)
            else s.history != [] && Recorded(cfg.atomic, s.history[0].fate)
  {
    if RecordedCount(cfg.atomic, s.history) == 0 {
      CountNone(cfg, s.history);
    } else if |s.history| == 1 {
      assert s.history[..0] == [];
    }
  }

  lemma {:induction false} RunsFromFirstRecord(cfg: Config, p0: Position, s: Listener, runs: seq<seq<Session>>)
    returns (m: nat, a: nat)
    requires WellFormed(cfg.mode, cfg.log) && !Anchored(cfg, p0)
    requires s.position == p0 && NoneRecorded(cfg, s.history)
    ensures LawfulFrom(cfg, p0, Runs(cfg, s, runs), m, a) && m <= |s.history| + |runs|
    decreases |runs|
  {
    if runs == [] {
      m, a := |s.history|, 0;
      assert s.history[m..] == [] && s.history[..m] == s.history;
    } else {
      var h := s.history;
      var blank := Restarted(cfg, s).(history := []);
      var r := Run(cfg, blank, runs[0]);
      assert h + [] == h;
      RunForgets(cfg, h, blank, runs[0]);
      var i;
      a, i := UnanchoredRunLawful(cfg, p0, blank, runs[0]);
      FirstOfRun(cfg, a, p0, r);
      if RecordedCount(cfg.atomic, r.history) == 0 {
        m, a := RunsFromFirstRecord(cfg, p0, r.(history := h + r.history), runs[1..]);
      } else {
        m := |h|;
        RunsForget(cfg, h, r, runs[1..]);
        RunsLawful(cfg, a, p0, r, runs[1..]);
        RunsGrow(cfg, r, runs[1..]);
        LawfulBehind(cfg, p0, h, Runs(cfg, r, runs[1..]), a);
      }
    }
  }

  lemma LawfulBehind(cfg: Config, p0: Position, h: seq<Entry>, s: Listener, a: nat)
    requires Lawful(cfg, a, p0, s) && a <= |cfg.log| && NoneRecorded(cfg, h)
    requires s.history != [] && Recorded(cfg.atomic, s.history[0].fate)
    ensures LawfulFrom(cfg, p0, s.(history := h + s.history), |h|, a)
  {
    assert (h + s.history)[|h|..] == s.history && (h + s.history)[..|h|] == h;
  }

  /** Without an anchor, over any crash schedule: each run loses at most one acceptance before something is
      recorded; from the first recorded item on, the accepted items, repeats collapsed, are contiguous, with the
      same count of losses and the same position as with an anchor. */
  lemma AtLeastOnceFromFirstRecord(cfg: Config, p0: Position, runs: seq<seq<Session>>) returns (m: nat, a: nat)
    requires WellFormed(cfg.mode, cfg.log) && !Anchored(cfg, p0)
    ensures var s := Runs(cfg, Started(cfg, p0), runs);
            && m <= |s.history| && m <= |runs| && NoneRecorded(cfg, s.history[..m])
            && (m < |s.history| ==> Recorded(cfg.atomic, s.history[m].fate))
            && var h := s.history[m..];
               var once := Collapse(Items(h));
               && a + |once| <= |cfg.log| && once == cfg.log[a..a + |once|]
               && |h| == RecordedCount(cfg.atomic, h) + LostCount(cfg.atomic, h)
               && RecordedCount(cfg.atomic, h) <= |once| <= RecordedCount(cfg.atomic, h) + 1
               && Linked(cfg, a, p0, s.(history := h))
  {
    var s := Runs(cfg, Started(cfg, p0), runs);
    RunsHandled(cfg, Started(cfg, p0), runs);
    m, a := RunsFromFirstRecord(cfg, p0, Started(cfg, p0), runs);
    LawfulOnce(cfg, a, s.history[m..]);
  }

  // ---- what an unanchored listener skips ----

  /** Without an anchor, every block committed while a stream that delivered nothing is down is skipped, however
      many there are: nothing below height `d` is accepted, though it was offered from height `c` on. */
  lemma UnanchoredRunSkips(cfg: Config, p0: Position, c: nat, d: nat)
    requires WellFormed(cfg.mode, cfg.log) && !Anchored(cfg, p0) && c <= d && FirstFrom(cfg.log, d) < |cfg.log|
    ensures Items(Run(cfg, Started(cfg, p0), Outage(c, d)).history) == [cfg.log[FirstFrom(cfg.log, d)]]
    ensures FirstOffer(cfg, p0, Outage(c, d)) == cfg.log[FirstFrom(cfg.log, c)..]
  {
    UnanchoredFeed(cfg, p0, c);
    var first, second := Outage(c, d)[0], Outage(c, d)[1];
    var s1 := SessionStep(cfg, Started(cfg, p0), first);
    assert s1.history == [] && s1.position == p0 && s1.outcome == Running;
    OneDelivered(cfg, s1, d);
    var s2 := SessionStep(cfg, s1, second);
    assert [first, second][1..] == [second] && [second][1..] == [];
    assert Run(cfg, s2, []) == s2 && Run(cfg, s1, [second]) == s2;
  }

  lemma OneDelivered(cfg: Config, s: Listener, d: nat)
    requires WellFormed(cfg.mode, cfg.log) && !Anchored(cfg, s.position) && FirstFrom(cfg.log, d) < |cfg.log|
    requires s.outcome == Running && s.history == []
    ensures SessionStep(cfg, s, Session(Opened(d), [Kept], true, false, true)).history
         == [Entry(cfg.log[FirstFrom(cfg.log, d)], Kept)]
  {
    UnanchoredFeed(cfg, s.position, d);
    var feed := cfg.log[FirstFrom(cfg.log, d)..];
    var s' := ItemStep(cfg, s, feed[0], Kept);
    assert ItemSteps(cfg, s, feed, [Kept]) == s';
  }

  /** A stream opened at height `c` closes before delivering anything; the next one opens at height `d`. */
  function Outage(c: nat, d: nat): seq<Session> {
    [Session(Opened(c), [], true, false, true), Session(Opened(d), [Kept], true, false, true)]
  }

  /** The ledger only grows while a run goes on. */
  ghost predicate CommitsGrow(script: seq<Session>) {
    forall i, j :: 0 <= i < j < |script| && script[i].opening.Opened? && script[j].opening.Opened? ==>
      script[i].opening.height <= script[j].opening.height
  }

  /** What the first accepted subscription of a run was offered. */
  function FirstOffer(cfg: Config, p: Position, script: seq<Session>): seq<Item> {
    if script == [] then []
    else if script[0].opening.Opened? then Feed(cfg.mode, cfg.log, cfg.from, p, script[0].opening.height)
    else FirstOffer(cfg, p, script[1..])
  }

  /** No event is skipped: whatever happens, a run accepts a prefix of what it was first offered. */
  ghost predicate NeverSkips(cfg: Config, p0: Position) {
    forall script :: CommitsGrow(script) ==> AcceptsOffer(cfg, p0, script)
  }

  predicate AcceptsOffer(cfg: Config, p0: Position, script: seq<Session>) {
    Items(Run(cfg, Started(cfg, p0), script).history) <= FirstOffer(cfg, p0, script)
  }

  ghost predicate OneBlock(log: seq<Item>) {
    forall i, j :: 0 <= i < j < |log| ==> log[i].block == log[j].block
  }

  /** "No event is skipped" holds exactly for listeners with an anchor, unless all there is to skip lies in one
      block. */
  lemma NeverSkipsExactlyWhenAnchored(cfg: Config, p0: Position)
    requires WellFormed(cfg.mode, cfg.log)
    ensures NeverSkips(cfg, p0) <==> Anchored(cfg, p0) || OneBlock(cfg.log)
  {
    if Anchored(cfg, p0) {
      forall script: seq<Session> ensures AcceptsOffer(cfg, p0, script) {
        AnchoredAcceptsOffer(cfg, p0, script);
      }
    } else if OneBlock(cfg.log) {
      forall script | CommitsGrow(script) ensures AcceptsOffer(cfg, p0, script) {
        OneBlockAcceptsOffer(cfg, p0, script);
      }
    } else {
      var script := SkippedBlock(cfg, p0);
    }
  }

  /** With two blocks or more, an outage during the first one skips it. */
  lemma SkippedBlock(cfg: Config, p0: Position) returns (script: seq<Session>)
    requires WellFormed(cfg.mode, cfg.log) && !Anchored(cfg, p0) && !OneBlock(cfg.log)
    ensures CommitsGrow(script) && !AcceptsOffer(cfg, p0, script)
  {
    LogSorted(cfg);
    var d := LaterBlock(cfg.log);
    script := OutageFromStart(cfg, p0, cfg.log[0].block + 1);
    NotOffered(cfg, p0, script, d);
  }

  lemma OutageFromStart(cfg: Config, p0: Position, d: nat) returns (script: seq<Session>)
    requires WellFormed(cfg.mode, cfg.log) && !Anchored(cfg, p0) && FirstFrom(cfg.log, d) < |cfg.log|
    ensures CommitsGrow(script)
    ensures Items(Run(cfg, Started(cfg, p0), script).history) == [cfg.log[FirstFrom(cfg.log, d)]]
    ensures FirstOffer(cfg, p0, script) == cfg.log[FirstFrom(cfg.log, 0)..]
  {
    script := Outage(0, d);
    UnanchoredRunSkips(cfg, p0, 0, d);
  }

  lemma LaterBlock(log: seq<Item>) returns (d: nat)
    requires Sorted(log) && !OneBlock(log)
    ensures d < |log| && log[d] != log[0] && d == FirstFrom(log, log[0].block + 1) && FirstFrom(log, 0) == 0
  {
    var i, j :| 0 <= i < j < |log| && log[i].block != log[j].block;
    assert log[0].block <= log[i].block <= log[j].block;
    d := FirstFrom(log, log[0].block + 1);
  }

  lemma NotOffered(cfg: Config, p0: Position, script: seq<Session>, d: nat)
    requires d < |cfg.log| && cfg.log[d] != cfg.log[0]
    requires Items(Run(cfg, Started(cfg, p0), script).history) == [cfg.log[d]]
    requires FirstOffer(cfg, p0, script) == cfg.log[0..]
    ensures !AcceptsOffer(cfg, p0, script)
  {
    assert [cfg.log[d]][0] != cfg.log[0..][0];
  }

  lemma {:induction false} UnopenedAcceptsNothing(cfg: Config, p0: Position, s: Listener, script: seq<Session>) returns (i: nat)
    requires s.history == []
    ensures i < |script| ==> script[i].opening.Opened?
                             && FirstOffer(cfg, p0, script) == Feed(cfg.mode, cfg.log, cfg.from, p0, script[i].opening.height)
    ensures i >= |script| ==> Run(cfg, s, script).history == [] && forall j :: 0 <= j < |script| ==> !script[j].opening.Opened?
    ensures forall j :: 0 <= j < i && j < |script| ==> !script[j].opening.Opened?
    decreases |script|
  {
    i := 0;
    if script != [] && !script[0].opening.Opened? {
      i := UnopenedAcceptsNothing(cfg, p0, SessionStep(cfg, s, script[0]), script[1..]);
      assert forall j :: 0 < j < |script| ==> script[j] == script[1..][j - 1];
      i := i + 1;
    }
  }

  lemma AnchoredAcceptsOffer(cfg: Config, p0: Position, script: seq<Session>)
    requires WellFormed(cfg.mode, cfg.log) && Anchored(cfg, p0)
    ensures AcceptsOffer(cfg, p0, script)
  {
    AnchoredRunIsPrefix(cfg, p0, script);
    var s0 := Started(cfg, p0);
    var i := UnopenedAcceptsNothing(cfg, p0, s0, script);
    if i < |script| {
      FeedContinues(cfg, AnchorIndex(cfg, p0), p0, s0, script[i].opening.height);
    }
  }

  lemma OneBlockAcceptsOffer(cfg: Config, p0: Position, script: seq<Session>)
    requires WellFormed(cfg.mode, cfg.log) && !Anchored(cfg, p0) && OneBlock(cfg.log) && CommitsGrow(script)
    ensures AcceptsOffer(cfg, p0, script)
  {
    var s0 := Started(cfg, p0);
    var a, k := RunIsSegment(cfg, p0, s0, script);
    var i := UnopenedAcceptsNothing(cfg, p0, s0, script);
    if Run(cfg, s0, script).history != [] {
      var height := script[i].opening.height;
      UnanchoredFeed(cfg, p0, height);
      assert height <= script[k].opening.height;
      assert FirstFrom(cfg.log, height) == a == 0;
    }
  }

  // ---- blocks ----

  /** For the block listener: consecutive block numbers from the block asked for, with at most adjacent repeats, and a
      recorded position that is always the number of the last recorded block plus one. */
  lemma BlocksAreConsecutive(cfg: Config, p0: Position, runs: seq<seq<Session>>)
    requires cfg.mode == Blocks && WellFormed(Blocks, cfg.log) && Anchored(cfg, p0)
    ensures var s := Runs(cfg, Started(cfg, p0), runs);
            var a := AnchorIndex(cfg, p0);
            var once := Collapse(Items(s.history));
            var n := RecordedCount(cfg.atomic, s.history);
            && a == Min(if p0.Positioned() then p0.block else cfg.from.value, |cfg.log|)
            && (forall k :: 0 <= k < |once| ==> once[k].block == a + k)
            && (n > 0 ==> s.position == Position(a + n, ""))
  {
    AtLeastOnce(cfg, p0, runs);
    BlockAnchor(cfg, p0);
  }

  lemma BlockAnchor(cfg: Config, p0: Position)
    requires cfg.mode == Blocks && WellFormed(Blocks, cfg.log) && Anchored(cfg, p0)
    ensures AnchorIndex(cfg, p0) == Min(if p0.Positioned() then p0.block else cfg.from.value, |cfg.log|)
  {
    BlockRequested(cfg.log, p0);
    if !p0.Positioned() {
      BlockRequested(cfg.log, Position(cfg.from.value, ""));
    }
  }

  // ---- how runs end ----

  lemma {:induction false} RunSplits(cfg: Config, s: Listener, script: seq<Session>, n: nat)
    requires n <= |script|
    ensures Run(cfg, s, script) == Run(cfg, Run(cfg, s, script[..n]), script[n..])
    decreases |script|
  {
    if n == 0 {
      assert script[..0] == [] && script[0..] == script;
    } else if s.outcome.Running? {
      RunSplits(cfg, SessionStep(cfg, s, script[0]), script[1..], n - 1);
      assert script[..n][0] == script[0] && script[..n][1..] == script[1..][..n - 1];
      assert script[1..][n - 1..] == script[n..];
    }
  }

  /** Nothing went wrong in a session but the connection. */
  predicate OnlyConnectionTrouble(cfg: Config, session: Session) {
    && (forall i :: 0 <= i < |session.fates| ==> session.fates[i].Kept?)
    && !session.contextEnded && session.wakes
    && (SessionError(cfg, session).Nil? || Reconnectable(SessionError(cfg, session)))
  }

  lemma {:induction false} KeptItemsRun(cfg: Config, s: Listener, feed: seq<Item>, fates: seq<Fate>)
    requires s.outcome == Running && forall i :: 0 <= i < |fates| ==> fates[i].Kept?
    ensures ItemSteps(cfg, s, feed, fates).outcome == Running
    decreases |fates|
  {
    if feed != [] && fates != [] {
      KeptItemsRun(cfg, ItemStep(cfg, s, feed[0], fates[0]), feed[1..], fates[1..]);
    }
  }

  /** Dropped streams and reconnectable refusals, in any number, never end a listener. */
  lemma {:induction false} DropsNeverEndAListener(cfg: Config, s: Listener, script: seq<Session>)
    requires s.outcome == Running && forall i :: 0 <= i < |script| ==> OnlyConnectionTrouble(cfg, script[i])
    ensures Run(cfg, s, script).outcome == Running
    decreases |script|
  {
    if script != [] {
      if script[0].opening.Opened? {
        KeptItemsRun(cfg, s, Feed(cfg.mode, cfg.log, cfg.from, s.position, script[0].opening.height), script[0].fates);
      }
      DropsNeverEndAListener(cfg, SessionStep(cfg, s, script[0]), script[1..]);
    }
  }

  /** A stream that just closes is among them. */
  lemma ClosedStreamIsReconnectable(cfg: Config, session: Session)
    requires session.opening.Opened?
    ensures SessionError(cfg, session).Nil? || Reconnectable(SessionError(cfg, session))
  {
  }

  /** A listener returns nil only if its context ended. */
  lemma {:induction false} NilMeansContextEnded(cfg: Config, s: Listener, script: seq<Session>)
    requires s.outcome == Running && Run(cfg, s, script).outcome == Returned(Nil)
    ensures exists i :: 0 <= i < |script| && (script[i].contextEnded || !script[i].wakes)
    decreases |script|
  {
    var s' := SessionStep(cfg, s, script[0]);
    if script[0].contextEnded || !script[0].wakes {
      assert exists i :: 0 <= i < |script| && (script[i].contextEnded || !script[i].wakes);
    } else {
      ReturnedNeedsEnd(cfg, s, script[0]);
      NilMeansContextEnded(cfg, s', script[1..]);
      var j :| 0 <= j < |script[1..]| && (script[1..][j].contextEnded || !script[1..][j].wakes);
      assert script[j + 1] == script[1..][j];
    }
  }

  lemma {:induction false} ItemStepsNeverReturn(cfg: Config, s: Listener, feed: seq<Item>, fates: seq<Fate>)
    requires !s.outcome.Returned?
    ensures !ItemSteps(cfg, s, feed, fates).outcome.Returned?
    decreases |fates|
  {
    if feed != [] && fates != [] && s.outcome.Running? {
      ItemStepsNeverReturn(cfg, ItemStep(cfg, s, feed[0], fates[0]), feed[1..], fates[1..]);
    }
  }

  lemma ReturnedNeedsEnd(cfg: Config, s: Listener, session: Session)
    requires s.outcome == Running && !session.contextEnded && session.wakes
    ensures SessionStep(cfg, s, session).outcome != Returned(Nil)
  {
    if session.opening.Opened? {
      ItemStepsNeverReturn(cfg, s, Feed(cfg.mode, cfg.log, cfg.from, s.position, session.opening.height), session.fates);
    }
  }

  /** An item's error is final whatever its kind: nothing after it in the script matters, and the caller gets that
      very error. Only the block listener, which looks at the context first, returns nil instead if the context
      has ended by then. */
  lemma ItemErrorsAreFinal(cfg: Config, s: Listener, script: seq<Session>, n: nat, err: Failure)
    requires n < |script| && Run(cfg, s, script[..n]).outcome == Running
    requires SessionItems(cfg, Run(cfg, s, script[..n]), script[n]).outcome == Failed(err)
    ensures Run(cfg, s, script)
         == SessionItems(cfg, Run(cfg, s, script[..n]), script[n])
              .(outcome := Returned(if cfg.mode.Blocks? && script[n].contextEnded then Nil else err))
  {
    RunSplits(cfg, s, script, n);
    assert script[n..][0] == script[n];
  }

  /** Where a session's items failed: everything before was kept; a handler's error changed nothing more, and a
      checkpoint's error only added an accepted item, unrecorded unless the store or an atomic handler kept it. */
  lemma {:induction false} FailurePoint(cfg: Config, s: Listener, feed: seq<Item>, fates: seq<Fate>, err: Failure) returns (n: nat)
    requires s.outcome == Running && ItemSteps(cfg, s, feed, fates).outcome == Failed(err)
    ensures n < |feed| && n < |fates| && forall i :: 0 <= i < n ==> fates[i].Kept?
    ensures var before, after := ItemSteps(cfg, s, feed[..n], fates[..n]), ItemSteps(cfg, s, feed, fates);
            && before.outcome == Running
            && match fates[n]
               case HandlerFails(e) => e == err && after == before.(outcome := Failed(err))
               case CheckpointFails(e, stored) =>
                 && e == err && after.history == before.history + [Entry(feed[n], fates[n])]
                 && (!stored && !cfg.atomic ==> after.position == before.position)
               case _ => false
    decreases |fates|
  {
    if fates[0].Kept? {
      n := FailurePoint(cfg, ItemStep(cfg, s, feed[0], fates[0]), feed[1..], fates[1..], err);
      n := n + 1;
      assert feed[..n][1..] == feed[1..][..n - 1] && fates[..n][1..] == fates[1..][..n - 1];
      assert forall i :: 0 < i < n ==> fates[i] == fates[1..][i - 1];
    } else {
      n := 0;
      var s' := ItemStep(cfg, s, feed[0], fates[0]);
      assert ItemSteps(cfg, s', feed[1..], fates[1..]) == s';
    }
  }

  /** Which refused subscriptions end a listener: the four codes that say the request itself is wrong, or a first
      coded text, a report or the status text, that says so. All others are tried again. */
  lemma GivesUpExactlyOn(err: Failure)
    requires Classification.Fresh(err)
    ensures var code := Convert(err).code;
            var coded := CodedIn(Classification.Texts(err));
            !Reconnectable(Sdk(Refusal(err)))
            <==> || code == InvalidArgument || code == PermissionDenied || code == Unauthenticated || code == NotFound
                 || ((code == Aborted || code == Unknown) && coded.Some?
                     && (coded.value.kind == KindInvalidArgument || coded.value.kind == KindUnauthorized || coded.value.kind == KindNotFound))
  {
    Classification.CodedIsChaincode(Classification.Texts(err));
    var st, details := Convert(err), Classification.Details(err);
    StrictKind(st, details);
    assert Refusal(err).kind
        == var found := ChaincodeVerdict(st, details, Strict);
           if found.Some? then found.value.kind else KindFromCode(st.code, PhaseEvaluate);
    TerminalCodes(st.code);
  }

  lemma TerminalCodes(code: Code)
    ensures ReconnectableKind(KindFromCode(code, PhaseEvaluate))
       <==> !(code == InvalidArgument || code == PermissionDenied || code == Unauthenticated || code == NotFound)
  {
  }

  lemma StrictKind(st: Status, details: seq<ErrorDetail>)
    ensures var coded := CodedIn(Candidates(st, details));
            var verdict := ChaincodeVerdict(st, details, Strict);
            if st.code != Aborted && st.code != Unknown then verdict.None?
            else if coded.Some? then verdict == coded
            else verdict.None? || verdict.value.kind == KindChaincode
  {
  }
}
