/** The peer's append-only log as a listener sees it, and the position it resumes from. */
module Ledger {
  /** One chaincode event (with its transaction) or one block (with no transaction ID). */
  datatype Item = Item(block: nat, tx: string)

  /** A processing position. `(0, "")` means that nothing was recorded yet. */
  datatype Position = Position(block: nat, tx: string) {
    predicate Positioned() {
      block != 0 || tx != ""
    }
  }

  datatype Mode = Events | Blocks

  /** What a listener records once it has handled an item: the transaction itself, or the next block. */
  function Mark(mode: Mode, item: Item): Position {
    match mode
    case Events => Position(item.block, item.tx)
    case Blocks => Position(item.block + 1, "")
  }

  /** What a subscription from a position asks for: a block subscription carries the block alone. */
  function Requested(mode: Mode, p: Position): Position {
    match mode
    case Events => p
    case Blocks => Position(p.block, "")
  }

  ghost predicate Sorted(log: seq<Item>) {
    forall i, j :: 0 <= i < j < |log| ==> log[i].block <= log[j].block
  }

  /** Events: blocks in order, transaction IDs non-empty and never reused. Blocks: every block, from genesis. */
  ghost predicate WellFormed(mode: Mode, log: seq<Item>) {
    match mode
    case Events =>
      && Sorted(log)
      && (forall i :: 0 <= i < |log| ==> log[i].tx != "")
      && (forall i, j :: 0 <= i < j < |log| ==> log[i].tx != log[j].tx)
    case Blocks => forall i :: 0 <= i < |log| ==> log[i] == Item(i, "")
  }

  /** The peer's loop over its log: skip to the start block, then past the given transaction in that block. */
  function Serve(log: seq<Item>, start: nat, after: string, skipping: bool): seq<Item> {
    if log == [] then []
    else
      var e := log[0];
      if e.block < start then Serve(log[1..], start, after, skipping)
      else if skipping && e.block == start then Serve(log[1..], start, after, e.tx != after)
      else [e] + Serve(log[1..], start, after, false)
  }

  // ---- what is served, by position in the log ----

  /** The first item at or after block `b`. */
  function FirstFrom(log: seq<Item>, b: nat): (i: nat)
    ensures i <= |log| && (i < |log| ==> log[i].block >= b)
    ensures forall j :: 0 <= j < i ==> log[j].block < b
  {
    if log == [] || log[0].block >= b then 0
    else
      var i := 1 + FirstFrom(log[1..], b);
      assert forall j :: 0 < j < i ==> log[j] == log[1..][j - 1];
      i
  }

  /** The first occurrence of an item, or the length of the log. */
  function Find(log: seq<Item>, item: Item): (i: nat)
    ensures i <= |log| && (i < |log| ==> log[i] == item)
    ensures forall j :: 0 <= j < i ==> log[j] != item
  {
    if log == [] || log[0] == item then 0
    else
      var i := 1 + Find(log[1..], item);
      assert forall j :: 0 < j < i ==> log[j] == log[1..][j - 1];
      i
  }

  /** Where a session resumes: at the start of the block; right after the transaction; or, when the block
      does not hold that transaction, only at the next block. */
  function ResumeIndex(log: seq<Item>, p: Position): (i: nat)
    ensures i <= |log|
  {
    if p.tx == "" then FirstFrom(log, p.block)
    else
      var at := Find(log, Item(p.block, p.tx));
      if at < |log| then at + 1 else FirstFrom(log, p.block + 1)
  }

  /** A peer serves a suffix of its log, the one that starts at the resume index. */
  lemma ServeIsSuffix(log: seq<Item>, p: Position)
    requires Sorted(log)
    ensures Serve(log, p.block, p.tx, p.tx != "") == log[ResumeIndex(log, p)..]
  {
    if p.tx == "" {
      ServeFromBlock(log, p.block, p.tx);
    } else {
      ServeAfter(log, p.block, p.tx);
    }
  }

  lemma {:induction false} ServeFromBlock(log: seq<Item>, start: nat, after: string)
    requires Sorted(log)
    ensures Serve(log, start, after, false) == log[FirstFrom(log, start)..]
  {
    if log != [] {
      TailSorted(log);
      ServeFromBlock(log[1..], start, after);
      if log[0].block >= start {
        assert FirstFrom(log[1..], start) == 0;
      }
    }
  }

  lemma TailSorted(log: seq<Item>)
    requires Sorted(log) && log != []
    ensures Sorted(log[1..]) && forall i :: 0 <= i < |log[1..]| ==> log[0].block <= log[1..][i].block
  {
    assert forall i :: 0 <= i < |log[1..]| ==> log[1..][i] == log[i + 1];
  }

  lemma {:induction false} ServeAfter(log: seq<Item>, start: nat, after: string)
    requires Sorted(log)
    ensures var at := Find(log, Item(start, after));
            Serve(log, start, after, true) == log[if at < |log| then at + 1 else FirstFrom(log, start + 1)..]
  {
    if log != [] {
      TailSorted(log);
      if log[0] == Item(start, after) {
        ServeFromBlockOn(log[1..], start, after);
      } else if log[0].block > start {
        ServeFromBlock(log[1..], start, after);
        assert FirstFrom(log[1..], start) == 0;
      } else {
        ServeAfter(log[1..], start, after);
      }
    }
  }

  lemma ServeFromBlockOn(log: seq<Item>, start: nat, after: string)
    requires Sorted(log) && forall i :: 0 <= i < |log| ==> start <= log[i].block
    ensures Serve(log, start, after, false) == log
  {
    ServeFromBlock(log, start, after);
    assert FirstFrom(log, start) == 0;
  }

  lemma FirstFromIs(log: seq<Item>, b: nat, k: nat)
    requires k <= |log| && (k < |log| ==> log[k].block >= b)
    requires forall j :: 0 <= j < k ==> log[j].block < b
    ensures FirstFrom(log, b) == k
  {
  }

  /** Resuming from the mark of an item goes on with the very next item, in both modes. */
  lemma ResumeAfterMark(mode: Mode, log: seq<Item>, i: nat)
    requires WellFormed(mode, log) && i < |log|
    ensures Sorted(log) && Mark(mode, log[i]).Positioned()
    ensures Requested(mode, Mark(mode, log[i])) == Mark(mode, log[i])
    ensures ResumeIndex(log, Mark(mode, log[i])) == i + 1
  {
    match mode
    case Events =>
      var at := Find(log, log[i]);
      assert at == i;
    case Blocks =>
      FirstFromIs(log, i + 1, i + 1);
  }

  /** A block subscription starts at the very block it asks for, as far as the ledger reaches. */
  lemma BlockRequested(log: seq<Item>, p: Position)
    requires WellFormed(Blocks, log)
    ensures ResumeIndex(log, Requested(Blocks, p)) == if p.block <= |log| then p.block else |log|
  {
    FirstFromIs(log, p.block, if p.block <= |log| then p.block else |log|);
  }

  /** Nothing is withheld but what the position says was processed. */
  ghost predicate OnlyProcessedSkipped(log: seq<Item>, p: Position) {
    forall i :: 0 <= i < ResumeIndex(log, p) ==>
      log[i].block < p.block || (p.tx != "" && Item(p.block, p.tx) in log[i..])
  }

  /** A position is honoured exactly, unless it names a transaction its block does not hold: then the whole
      block is withheld. */
  lemma StalePositionDropsBlock(log: seq<Item>, p: Position)
    requires Sorted(log)
    ensures OnlyProcessedSkipped(log, p)
       <==> (p.tx == "" || Item(p.block, p.tx) in log || forall i :: 0 <= i < |log| ==> log[i].block != p.block)
  {
    var item := Item(p.block, p.tx);
    var at := Find(log, item);
    var r := ResumeIndex(log, p);
    if p.tx != "" && at < |log| {
      forall i | 0 <= i < r ensures item in log[i..] {
        assert log[i..][at - i] == item;
      }
    } else if p.tx != "" {
      forall i | 0 <= i < |log| && log[i].block == p.block ensures i < r && item !in log[i..] {}
    }
  }
}
