/** How long a listener that meets only connection trouble takes to accept what is left of the log. */
module Progress {
  import opened Ledger
  import opened Options
  import opened Listener
  import Delivery

  // ---- a troubled run, as the number of items each session delivers ----

  /** Nothing but connection trouble in the whole script. */
  ghost predicate Troubled(cfg: Config, script: seq<Session>) {
    forall i :: 0 <= i < |script| ==> Delivery.OnlyConnectionTrouble(cfg, script[i])
  }

  lemma TroubledParts(cfg: Config, script: seq<Session>)
    requires Troubled(cfg, script) && script != []
    ensures Delivery.OnlyConnectionTrouble(cfg, script[0]) && Troubled(cfg, script[1..])
  {
  }

  ghost function Deliveries(cfg: Config, s: Listener, script: seq<Session>): (ds: seq<nat>)
    requires Troubled(cfg, script)
    requires s.outcome == Running
    ensures |ds| == |script|
    decreases |script|
  {
    if script == [] then []
    else
      TroubledParts(cfg, script);
      TroubledSession(cfg, s, script[0]);
      var s' := SessionStep(cfg, s, script[0]);
      [|s'.history| - |s.history|] + Deliveries(cfg, s', script[1..])
  }

  function Total(ds: seq<nat>): nat {
    if ds == [] then 0 else ds[0] + Total(ds[1..])
  }

  /** The sleep of such a run when `k` sessions have passed since the last record. */
  function SleepOf(ds: seq<nat>, k: nat, min: Duration, max: Duration): int {
    if ds == [] then 0
    else
      var level := if ds[0] > 0 then 0 else k;
      Delay(level, min, max) + SleepOf(ds[1..], level + 1, min, max)
  }

  function Sum(delays: seq<Duration>): int {
    if delays == [] then 0 else Sum(delays[..|delays| - 1]) + delays[|delays| - 1]
  }

  lemma SumExtends(delays: seq<Duration>, d: Duration)
    ensures Sum(delays + [d]) == Sum(delays) + d
  {
    assert (delays + [d])[..|delays|] == delays;
  }

  lemma {:induction false} KeptItems(cfg: Config, s: Listener, feed: seq<Item>, fates: seq<Fate>)
    requires s.outcome == Running && forall i :: 0 <= i < |fates| ==> fates[i].Kept?
    ensures var s' := ItemSteps(cfg, s, feed, fates);
            && s'.outcome == Running && s'.slept == s.slept && |s'.history| >= |s.history|
            && s'.backoff == if |s'.history| > |s.history| then cfg.min else s.backoff
    decreases |fates|
  {
    if feed != [] && fates != [] {
      KeptItems(cfg, ItemStep(cfg, s, feed[0], fates[0]), feed[1..], fates[1..]);
    }
  }

  /** A session with nothing but connection trouble sleeps once: the minimum after a delivery, else the delay
      it started with; the next delay is the doubled one. */
  lemma TroubledSession(cfg: Config, s: Listener, session: Session)
    requires s.outcome == Running && Delivery.OnlyConnectionTrouble(cfg, session)
    ensures var s' := SessionStep(cfg, s, session);
            var slept := if |s'.history| > |s.history| then cfg.min else s.backoff;
            && s'.outcome == Running && s'.slept == s.slept + [slept] && |s'.history| >= |s.history|
            && s'.backoff == NextBackoff(slept, cfg.max)
  {
    if session.opening.Opened? {
      KeptItems(cfg, s, Feed(cfg.mode, cfg.log, cfg.from, s.position, session.opening.height), session.fates);
    }
  }

  /** The delay in every reachable state is the one for the number of sessions since the last record. */
  lemma {:induction false} TroubledRun(cfg: Config, s: Listener, script: seq<Session>, k: nat)
    requires Troubled(cfg, script)
    requires s.outcome == Running && s.backoff == Delay(k, cfg.min, cfg.max)
    ensures var s' := Run(cfg, s, script);
            var ds := Deliveries(cfg, s, script);
            && s'.outcome == Running && |s'.history| == |s.history| + Total(ds)
            && Sum(s'.slept) == Sum(s.slept) + SleepOf(ds, k, cfg.min, cfg.max)
    decreases |script|
  {
    if script != [] {
      var s' := SessionStep(cfg, s, script[0]);
      TroubledParts(cfg, script);
      TroubledSession(cfg, s, script[0]);
      TroubledRun(cfg, s', script[1..], if |s'.history| > |s.history| then 1 else k + 1);
      TroubledStep(cfg, s, s', Run(cfg, s', script[1..]), Deliveries(cfg, s', script[1..]), k);
    }
  }

  /** One session's part of the sums, whatever the rest of the run was. */
  lemma TroubledStep(cfg: Config, s: Listener, s': Listener, end: Listener, rest: seq<nat>, k: nat)
    requires |s'.history| >= |s.history|
    requires var level := if |s'.history| > |s.history| then 0 else k;
             && s'.slept == s.slept + [Delay(level, cfg.min, cfg.max)]
             && |end.history| == |s'.history| + Total(rest)
             && Sum(end.slept) == Sum(s'.slept) + SleepOf(rest, level + 1, cfg.min, cfg.max)
    ensures var ds := [|s'.history| - |s.history|] + rest;
            && |end.history| == |s.history| + Total(ds)
            && Sum(end.slept) == Sum(s.slept) + SleepOf(ds, k, cfg.min, cfg.max)
  {
    SumExtends(s.slept, Delay(if |s'.history| > |s.history| then 0 else k, cfg.min, cfg.max));
    SleepStep(|s'.history| - |s.history|, rest, k, cfg.min, cfg.max);
  }

  lemma SleepStep(d: nat, rest: seq<nat>, k: nat, min: Duration, max: Duration)
    ensures Total([d] + rest) == d + Total(rest)
    ensures var level := if d > 0 then 0 else k;
            SleepOf([d] + rest, k, min, max) == Delay(level, min, max) + SleepOf(rest, level + 1, min, max)
  {
    assert ([d] + rest)[1..] == rest;
  }

  // ---- bounds ----

  /** Until `n` items are delivered, never more than `f` sessions in a row deliver nothing; `empty` of them have
      just passed. What comes after the `n`-th item does not matter. */
  predicate GapsAtMost(ds: seq<nat>, f: nat, empty: nat, n: int) {
    n <= 0 || ds == [] ||
    if ds[0] > 0 then GapsAtMost(ds[1..], f, 0, n - ds[0]) else empty < f && GapsAtMost(ds[1..], f, empty + 1, n)
  }

  /** The delays from the `lo`-th session without a record up to the `hi`-th. */
  function Delays(lo: nat, hi: nat, min: Duration, max: Duration): int
    decreases hi - lo
  {
    if lo > hi then 0 else Delay(lo, min, max) + Delays(lo + 1, hi, min, max)
  }

  lemma {:induction false} DelaysNonNegative(lo: nat, hi: nat, min: Duration, max: Duration)
    requires 0 < min <= max && DoublingFits(max)
    ensures Delays(lo, hi, min, max) >= 0
    decreases hi - lo
  {
    if lo <= hi {
      DelayIsCappedPower(lo, min, max);
      DelaysNonNegative(lo + 1, hi, min, max);
    }
  }

  /** `n` times `x`, by repeated addition. */
  function Times(n: nat, x: int): int {
    if n == 0 then 0 else Times(n - 1, x) + x
  }

  lemma {:induction false} TimesGrows(m: nat, n: nat, x: int)
    requires m < n && x >= 0
    ensures Times(m, x) + x <= Times(n, x)
    decreases n
  {
    if m < n - 1 {
      TimesGrows(m, n - 1, x);
    }
  }

  lemma {:induction false} SleepBound(ds: seq<nat>, f: nat, empty: nat, n: nat, k: nat, min: Duration, max: Duration)
    requires 0 < min <= max && DoublingFits(max)
    requires GapsAtMost(ds, f, empty, n) && Total(ds) < n && k <= empty + 1 && empty <= f
    ensures SleepOf(ds, k, min, max) <= Times(Total(ds), Delays(0, f, min, max)) + Delays(k, f, min, max)
  {
    DelaysNonNegative(0, f, min, max);
    DelaysNonNegative(k, f, min, max);
    if ds != [] {
      if ds[0] > 0 {
        SleepBound(ds[1..], f, 0, n - ds[0], 1, min, max);
        TimesGrows(Total(ds[1..]), Total(ds), Delays(0, f, min, max));
      } else {
        SleepBound(ds[1..], f, empty + 1, n, k + 1, min, max);
      }
    }
  }

  lemma {:induction false} SessionBound(ds: seq<nat>, f: nat, empty: nat, n: nat)
    requires GapsAtMost(ds, f, empty, n) && Total(ds) < n && empty <= f
    ensures |ds| <= Times(Total(ds), f + 1) + (f - empty)
  {
    if ds != [] {
      if ds[0] > 0 {
        SessionBound(ds[1..], f, 0, n - ds[0]);
        TimesGrows(Total(ds[1..]), Total(ds), f + 1);
      } else {
        SessionBound(ds[1..], f, empty + 1, n);
      }
    }
  }

  /** Progress with a bound: if, until `n` items are accepted, never more than `f` sessions in a row deliver
      nothing, then `n` times `f + 1` sessions accept at least `n` items; and as long as fewer than `n` are
      accepted, the listener has slept at most `n` times the sum of the first `f + 1` delays. */
  lemma ProgressWithinBound(cfg: Config, p0: Position, script: seq<Session>, f: nat, n: nat)
    requires 0 < cfg.min <= cfg.max && DoublingFits(cfg.max)
    requires Troubled(cfg, script)
    requires GapsAtMost(Deliveries(cfg, Started(cfg, p0), script), f, 0, n)
    ensures var s := Run(cfg, Started(cfg, p0), script);
            && s.outcome == Running
            && (|script| >= Times(n, f + 1) ==> |s.history| >= n)
            && (|s.history| < n ==> Sum(s.slept) <= Times(n, Delays(0, f, cfg.min, cfg.max)))
  {
    var s0 := Started(cfg, p0);
    var ds := Deliveries(cfg, s0, script);
    TroubledRun(cfg, s0, script, 0);
    DelaysNonNegative(0, f, cfg.min, cfg.max);
    if Total(ds) < n {
      SleepBound(ds, f, 0, n, 0, cfg.min, cfg.max);
      SessionBound(ds, f, 0, n);
      TimesGrows(Total(ds), n, f + 1);
      TimesGrows(Total(ds), n, Delays(0, f, cfg.min, cfg.max));
    }
  }

  lemma {:induction false} GapsOfPrefix(ds: seq<nat>, j: nat, f: nat, empty: nat, n: int)
    requires j <= |ds| && GapsAtMost(ds, f, empty, n)
    ensures GapsAtMost(ds[..j], f, empty, n)
    decreases |ds|
  {
    if j > 0 && n > 0 {
      assert ds[..j][1..] == ds[1..][..j - 1];
      GapsOfPrefix(ds[1..], j - 1, f, if ds[0] > 0 then 0 else empty + 1, n - ds[0]);
    }
  }

  lemma {:induction false} DeliveriesOfPrefix(cfg: Config, s: Listener, script: seq<Session>, j: nat)
    requires j <= |script| && Troubled(cfg, script) && s.outcome == Running
    ensures Troubled(cfg, script[..j]) && Deliveries(cfg, s, script[..j]) == Deliveries(cfg, s, script)[..j]
    decreases |script|
  {
    if j > 0 {
      var s' := SessionStep(cfg, s, script[0]);
      TroubledParts(cfg, script);
      TroubledSession(cfg, s, script[0]);
      DeliveriesOfPrefix(cfg, s', script[1..], j - 1);
      assert script[..j][0] == script[0] && script[..j][1..] == script[1..][..j - 1];
    }
  }

  /** The same after every `j` sessions of the run: enough of them have accepted `n` items, and the sleep before
      the session that accepts the `n`-th is bounded. */
  lemma ProgressAtEverySession(cfg: Config, p0: Position, script: seq<Session>, f: nat, n: nat, j: nat)
    requires 0 < cfg.min <= cfg.max && DoublingFits(cfg.max)
    requires Troubled(cfg, script) && j <= |script|
    requires GapsAtMost(Deliveries(cfg, Started(cfg, p0), script), f, 0, n)
    ensures var s := Run(cfg, Started(cfg, p0), script[..j]);
            && (j >= Times(n, f + 1) ==> |s.history| >= n)
            && (|s.history| < n ==> Sum(s.slept) <= Times(n, Delays(0, f, cfg.min, cfg.max)))
  {
    DeliveriesOfPrefix(cfg, Started(cfg, p0), script, j);
    GapsOfPrefix(Deliveries(cfg, Started(cfg, p0), script), j, f, 0, n);
    ProgressWithinBound(cfg, p0, script[..j], f, n);
  }

  /** With an anchor, that many sessions for what the log holds from there accept all of it, however many items
      a session delivers and however long the listener idles afterwards. */
  lemma EverythingIsDelivered(cfg: Config, p0: Position, script: seq<Session>, f: nat)
    requires WellFormed(cfg.mode, cfg.log) && Delivery.Anchored(cfg, p0)
    requires 0 < cfg.min <= cfg.max && DoublingFits(cfg.max)
    requires Troubled(cfg, script)
    requires GapsAtMost(Deliveries(cfg, Started(cfg, p0), script), f, 0, |cfg.log| - Delivery.AnchorIndex(cfg, p0))
    requires |script| >= Times(|cfg.log| - Delivery.AnchorIndex(cfg, p0), f + 1)
    ensures Delivery.Items(Run(cfg, Started(cfg, p0), script).history) == cfg.log[Delivery.AnchorIndex(cfg, p0)..]
  {
    ProgressWithinBound(cfg, p0, script, f, |cfg.log| - Delivery.AnchorIndex(cfg, p0));
    Delivery.AnchoredRunIsPrefix(cfg, p0, script);
  }
}
