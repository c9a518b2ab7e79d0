/**
 * What copy-on-write is for: every read of a forked process delivers what that process itself wrote
 * there last, or what was there at the fork.
 */
module Isolation {
  import opened Words
  import opened PageTables
  import opened CopyOnWrite
  import opened SharedRuns

  /** The word last saved there by the process itself, or the given one. */
  function LastSaved(ops: seq<Op>, who: Who, q: Path, i: Index, first: Word): Word {
    if ops == [] then first
    else
      var n := |ops| - 1;
      match ops[n]
      case Save(who', q', i', w) =>
        if who' == who && q' == q && i' == i then w else LastSaved(ops[..n], who, q, i, first)
      case Load(_, _, _) => LastSaved(ops[..n], who, q, i, first)
  }

  lemma {:induction false} EagerLast(e: Eager, ops: seq<Op>, op: Op)
    ensures EagerAfter(e, ops + [op]) == EagerAfter(e, ops).Step(op).0
    ensures |EagerOutputs(e, ops + [op])| == |ops| + 1
    ensures EagerOutputs(e, ops + [op])[|ops|] == EagerAfter(e, ops).Step(op).1
    decreases |ops|
  {
    hide Eager.Step;
    if ops == [] {
      assert ops + [op] == [op] && [op][1..] == [];
    } else {
      assert (ops + [op])[0] == ops[0] && (ops + [op])[1..] == ops[1..] + [op];
      EagerLast(e.Step(ops[0]).0, ops[1..], op);
    }
  }

  /** One access changes the one word it saves, for its own process, and no other. */
  lemma StepWord(e: Eager, op: Op, who: Who, q: Path, i: Index)
    ensures e.Step(op).0.At(who, q)[i] ==
      if op.Save? && op.who == who && op.page == q && op.word == i then op.value else e.At(who, q)[i]
  {
    if op.who != who { assert e.Step(op).0.Of(who) == e.Of(who); }
  }

  lemma {:induction false} WordAfter(e: Eager, ops: seq<Op>, who: Who, q: Path, i: Index)
    ensures EagerAfter(e, ops).At(who, q)[i] == LastSaved(ops, who, q, i, e.At(who, q)[i])
    decreases |ops|
  {
    if ops != [] {
      var n := |ops| - 1;
      assert ops == ops[..n] + [ops[n]];
      WordAfter(e, ops[..n], who, q, i);
      EagerLast(e, ops[..n], ops[n]);
      hide EagerAfter, Eager.Step, Eager.At;
      StepWord(EagerAfter(e, ops[..n]), ops[n], who, q, i);
    }
  }

  /**
   * For every interleaving of accesses by parent and child, a read at the end delivers the word that
   * the reading process saved there last, and else the word that its page held when the run began,
   * zero on a page never used; nothing that the partner does shows.
   */
  lemma ReadsOwn(s: Pair, ops: seq<Op>, who: Who, q: Path, i: Index)
    requires CowInv(s) && Proper(ops + [Load(who, q, i)]) && 4 * (|ops| + 1) <= |s.vm.free|
    ensures var outputs := Outputs(s, ops + [Load(who, q, i)]);
      && |outputs| == |ops| + 1
      && outputs[|ops|] == LastSaved(ops, who, q, i, if q in Seen(s, who) then Seen(s, who)[q][i] else ZERO)
  {
    hide *;
    var op := Load(who, q, i);
    CowRefinesEagerCopy(s, ops + [op]);
    EagerLast(View(s), ops, op);
    WordAfter(View(s), ops, who, q, i);
    LoadOutput(EagerAfter(View(s), ops), who, q, i);
    FirstWord(s, who, q, i);
  }

  lemma LoadOutput(e: Eager, who: Who, q: Path, i: Index)
    ensures e.Step(Load(who, q, i)).1 == e.At(who, q)[i]
  {
  }

  lemma FirstWord(s: Pair, who: Who, q: Path, i: Index)
    ensures View(s).At(who, q)[i] == if q in Seen(s, who) then Seen(s, who)[q][i] else ZERO
  {
  }
}
