/**
 The contiguous-safe frontier of one Kafka partition, as a specification on sets.

 `Partition` is the value of one `_PartitionState`; `Mark`, `Observe` and `Confirm` say what
 one call does to that value by naming the end of a consecutive run in a set, not by
 draining a heap. The class in OffsetTracker.dfy drains a heap and is proved equal to it.
 */
module Frontier {
  import opened Prelude

  /** The last offset of the longest run base + 1, base + 2, ... that lies in `marked`. */
  function RunEnd(base: int, marked: set<int>): (end: int)
    ensures base <= end
    ensures forall o :: base < o <= end ==> o in marked
    ensures end + 1 !in marked
    decreases |marked|
  {
    if base + 1 in marked then
      var rest := marked - {base + 1};
      var e := RunEnd(base + 1, rest);
      assert forall o :: base < o <= e ==> o in marked by {
        forall o | base < o <= e ensures o in marked {
          if base + 1 < o { assert o in rest; }
        }
      }
      e
    else base
  }

  /** The three facts in the contract of `RunEnd` determine it. */
  lemma RunEndUnique(base: int, marked: set<int>, end: int)
    requires base <= end
    requires forall o :: base < o <= end ==> o in marked
    requires end + 1 !in marked
    ensures end == RunEnd(base, marked)
  {
    var e := RunEnd(base, marked);
    assert e + 1 <= end ==> e + 1 in marked;
    assert end + 1 <= e ==> end + 1 in marked;
  }

  datatype Partition = Partition(
    safe: Option<int>,
    committed: Option<int>,
    sinceCommit: int,
    pending: set<int>,
    floor: Option<int>)

  const FRESH := Partition(None, None, 0, {}, None)

  function Observe(p: Partition, offset: int): Partition {
    if p.floor.None? then p.(floor := Some(offset - 1)) else p
  }

  /** The offset below which everything counts as safe when `offset` is marked. */
  function Anchor(p: Partition, offset: int): int {
    if p.safe.Some? then p.safe.value
    else if p.floor.Some? then p.floor.value
    else offset - 1
  }

  function Above(bound: int, offsets: set<int>): set<int> {
    set o | o in offsets && bound < o
  }

  function Mark(p: Partition, offset: int): Partition {
    var s := Anchor(p, offset);
    if offset <= s || offset in p.pending then
      p.(safe := Some(s))
    else
      var known := p.pending + {offset};
      var e := RunEnd(s, known);
      p.(safe := Some(e), pending := Above(e, known), sinceCommit := p.sinceCommit + (e - s))
  }

  predicate Uncommitted(p: Partition) {
    p.safe.Some? && p.safe != p.committed
  }

  /** A successful commit of `safe + 1`. */
  function Confirm(p: Partition): Partition {
    p.(committed := p.safe, sinceCommit := 0)
  }

  // ----- whole histories of one partition -----

  datatype Op = Observed(offset: int) | Marked(offset: int) | Confirmed

  function Step(p: Partition, op: Op): Partition {
    match op
    case Observed(o) => Observe(p, o)
    case Marked(o) => Mark(p, o)
    case Confirmed => if Uncommitted(p) then Confirm(p) else p
  }

  function Run(p: Partition, ops: seq<Op>): Partition {
    if ops == [] then p else Step(Run(p, ops[..|ops| - 1]), ops[|ops| - 1])
  }

  function Marks(ops: seq<Op>): set<int> {
    set i | 0 <= i < |ops| && ops[i].Marked? :: ops[i].offset
  }

  lemma MarksSnoc(ops: seq<Op>)
    requires ops != []
    ensures Marks(ops) == Marks(ops[..|ops| - 1]) +
              (if ops[|ops| - 1].Marked? then {ops[|ops| - 1].offset} else {})
  {
    var init, last := ops[..|ops| - 1], ops[|ops| - 1];
    assert ops == init + [last];
    forall o | o in Marks(init) ensures o in Marks(ops) {
      var i :| 0 <= i < |init| && init[i].Marked? && init[i].offset == o;
      assert ops[i] == init[i];
    }
    if last.Marked? {
      assert ops[|ops| - 1].offset in Marks(ops);
    }
    forall o | o in Marks(ops) ensures o in Marks(init) || (last.Marked? && o == last.offset) {
      var i :| 0 <= i < |ops| && ops[i].Marked? && ops[i].offset == o;
      if i < |init| { assert init[i] == ops[i]; }
    }
  }

  /** Growing the set extends the run from where it ended, using only what lies above. */
  lemma RunEndExtends(base: int, old_: set<int>, new_: set<int>)
    requires old_ <= new_
    ensures RunEnd(base, new_) == RunEnd(RunEnd(base, old_), Above(RunEnd(base, old_), new_))
  {
    var e := RunEnd(base, old_);
    var e' := RunEnd(e, Above(e, new_));
    forall o | base < o <= e' ensures o in new_ {
      if e < o { assert o in Above(e, new_); } else { assert o in old_; }
    }
    RunEndUnique(base, new_, e');
  }

  /** What the partition state must be when `base + 1` was the first offset delivered. */
  ghost predicate Refines(p: Partition, base: int, marks: set<int>) {
    var e := RunEnd(base, Above(base, marks));
    && p.safe == (if marks == {} then None else Some(e))
    && p.pending == Above(e, marks)
    && (p.committed.Some? ==> base <= p.committed.value <= e)
    && p.sinceCommit == e - (if p.committed.Some? then p.committed.value else base)
  }

  /** Marking an offset that is already covered adds nothing above the base. */
  lemma RepeatedMark(base: int, marks: set<int>, offset: int)
    requires var e := RunEnd(base, Above(base, marks)); offset <= e || offset in Above(e, marks)
    ensures Above(base, marks + {offset}) == Above(base, marks)
    ensures var e := RunEnd(base, Above(base, marks)); Above(e, marks + {offset}) == Above(e, marks)
  {
    var low := Above(base, marks);
    var e := RunEnd(base, low);
    assert base < offset <= e ==> offset in low;
  }

  /** Marking a new offset moves the frontier by the run it completes. */
  lemma NewMark(base: int, marks: set<int>, offset: int)
    requires RunEnd(base, Above(base, marks)) < offset
    ensures var e, marks' := RunEnd(base, Above(base, marks)), marks + {offset};
            var e' := RunEnd(base, Above(base, marks'));
            && e' == RunEnd(e, Above(e, marks) + {offset})
            && Above(e', Above(e, marks) + {offset}) == Above(e', marks')
  {
    var low, low' := Above(base, marks), Above(base, marks + {offset});
    var e := RunEnd(base, low);
    RunEndExtends(base, low, low');
    assert Above(e, low') == Above(e, marks) + {offset};
  }

  lemma MarkRefines(p: Partition, base: int, marks: set<int>, offset: int)
    requires Refines(p, base, marks)
    requires marks == {} ==> Anchor(p, offset) == base
    ensures Refines(Mark(p, offset), base, marks + {offset})
  {
    var e := RunEnd(base, Above(base, marks));
    if marks == {} { RunEndUnique(base, Above(base, marks), base); }
    if offset <= e || offset in p.pending {
      RepeatedMark(base, marks, offset);
    } else {
      NewMark(base, marks, offset);
    }
  }

  /**
   Frontier refinement: after the first dispatch of `base + 1`, any history of dispatches,
   completions (in any order, with repeats) and successful commits leaves the state that the
   set of completed offsets alone determines.
   */
  lemma {:induction false} HistoryRefinesRunEnd(base: int, ops: seq<Op>)
    ensures Refines(Run(Observe(FRESH, base + 1), ops), base, Marks(ops))
    ensures Run(Observe(FRESH, base + 1), ops).floor == Some(base)
  {
    if ops == [] {
      assert Marks(ops) == {};
      RunEndUnique(base, Above(base, {}), base);
    } else {
      var init, last := ops[..|ops| - 1], ops[|ops| - 1];
      HistoryRefinesRunEnd(base, init);
      MarksSnoc(ops);
      var p := Run(Observe(FRESH, base + 1), init);
      match last
      case Observed(_) => assert Marks(ops) == Marks(init);
      case Marked(o) => MarkRefines(p, base, Marks(init), o);
      case Confirmed => assert Marks(ops) == Marks(init);
    }
  }

  /** Completion order and repetition do not matter: equal sets give equal frontiers. */
  lemma OrderIndependent(base: int, ops: seq<Op>, ops': seq<Op>)
    requires Marks(ops) == Marks(ops')
    ensures var p, p' := Run(Observe(FRESH, base + 1), ops), Run(Observe(FRESH, base + 1), ops');
            p.safe == p'.safe && p.pending == p'.pending
  {
    HistoryRefinesRunEnd(base, ops);
    HistoryRefinesRunEnd(base, ops');
  }

  /** Some offset in the window was declared safe without having been marked. */
  ghost predicate SkipsUnmarked(next: int, marked: int, safe: int) {
    exists o: int {:trigger Skipped(next, marked, safe, o)} :: Skipped(next, marked, safe, o)
  }

  predicate Skipped(next: int, marked: int, safe: int, o: int) {
    next <= o <= safe && o != marked
  }

  /**
   When bootstrapping without a dispatch floor is sound. `next` is the next offset the
   broker will deliver, so everything below it is handled. Marking `offset` first declares
   every offset up to the new frontier safe; that skips an unmarked offset at or above
   `next` exactly when `offset` is ahead of `next`.
   */
  lemma BootstrapSkipsIff(next: int, offset: int)
    ensures Mark(FRESH, offset).safe.Some?
    ensures SkipsUnmarked(next, offset, Mark(FRESH, offset).safe.value) <==> next < offset
  {
    RunEndUnique(offset - 1, {offset}, offset);
    assert FRESH.pending + {offset} == {offset};
    assert Skipped(next, offset, offset, next) <==> next < offset;
  }
}
