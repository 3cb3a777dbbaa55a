/** Looking back along a run: the states it passes through, and the step that left each
    entry of the log. */
module Runs {
  import opened Envelopes
  import opened Protocol
  import opened Invariant
  import opened Steps

  /** The state before action `k` of a run. */
  ghost function StateAt(s: State, acts: seq<Action>, k: nat): State
    requires ValidRun(s, acts) && k <= |acts|
    decreases k
  {
    if k == 0 then s else StateAt(Step(s, acts[0]), acts[1..], k - 1)
  }

  lemma {:induction false} StateAtNext(s: State, acts: seq<Action>, k: nat)
    requires ValidRun(s, acts) && k < |acts|
    ensures Enabled(StateAt(s, acts, k), acts[k])
    ensures StateAt(s, acts, k + 1) == Step(StateAt(s, acts, k), acts[k])
    decreases k
  {
    if k > 0 {
      StateAtNext(Step(s, acts[0]), acts[1..], k - 1);
    }
  }

  lemma {:induction false} StateAtEnd(s: State, acts: seq<Action>)
    requires ValidRun(s, acts)
    ensures StateAt(s, acts, |acts|) == Run(s, acts)
    decreases |acts|
  {
    if acts != [] {
      StateAtEnd(Step(s, acts[0]), acts[1..]);
    }
  }

  lemma {:induction false} StateAtInv(s: State, acts: seq<Action>, k: nat)
    requires Inv(s) && ValidRun(s, acts) && k <= |acts|
    ensures Inv(StateAt(s, acts, k))
    decreases k
  {
    if k > 0 {
      StepKeepsInv(s, acts[0]);
      StateAtInv(Step(s, acts[0]), acts[1..], k - 1);
    }
  }

  /** A step adds at most one entry to the log. */
  lemma StepLog(s: State, a: Action)
    requires Enabled(s, a)
    ensures s.events <= Step(s, a).events && |Step(s, a).events| <= |s.events| + 1
  {
  }

  lemma {:induction false} LogGrows(s: State, acts: seq<Action>, j: nat, k: nat)
    requires ValidRun(s, acts) && j <= k <= |acts|
    ensures StateAt(s, acts, j).events <= StateAt(s, acts, k).events
    decreases k - j
  {
    if j < k {
      StateAtNext(s, acts, k - 1);
      StepLog(StateAt(s, acts, k - 1), acts[k - 1]);
      LogGrows(s, acts, j, k - 1);
    }
  }

  /** Action `k` left entry `i` of the log. */
  ghost predicate LeftBy(s: State, acts: seq<Action>, k: nat, i: nat, e: Event)
    requires ValidRun(s, acts) && k < |acts|
  {
    var before := StateAt(s, acts, k);
    && |before.events| == i && acts[k].Move? && acts[k].pid in before.procs && Live(before.procs[acts[k].pid])
    && TurnOf(before, before.procs[acts[k].pid], acts[k].choice).event == Some(e)
  }

  /** Every entry made during a run was left by one of its actions. */
  lemma {:induction false} EntryLeftBy(s: State, acts: seq<Action>, n: nat, i: nat) returns (k: nat)
    requires ValidRun(s, acts) && n <= |acts| && |s.events| <= i < |StateAt(s, acts, n).events|
    ensures k < n && LeftBy(s, acts, k, i, StateAt(s, acts, n).events[i])
    decreases n
  {
    assert n > 0;
    var before := StateAt(s, acts, n - 1);
    StateAtNext(s, acts, n - 1);
    StepLog(before, acts[n - 1]);
    if i < |before.events| {
      k := EntryLeftBy(s, acts, n - 1, i);
    } else {
      k := n - 1;
    }
  }

  /** Entries come in the order of the actions that left them. */
  lemma LeftInOrder(s: State, acts: seq<Action>, j: nat, k: nat)
    requires ValidRun(s, acts) && j < |acts| && k < |acts|
    requires |StateAt(s, acts, j).events| < |StateAt(s, acts, k).events|
    ensures j < k
  {
    if k <= j {
      LogGrows(s, acts, k, j);
    }
  }
}
