/** Runs in which requests are served one after the other. */
module Sequential {
  import opened Envelopes
  import opened Records
  import opened MemoryStore
  import opened Protocol
  import opened Invariant
  import opened Steps
  import opened Runs
  import opened Requests
  import opened Safety

  /** No request is being served. */
  ghost predicate Quiet(s: State) {
    forall pid :: pid in s.procs ==> !Live(s.procs[pid])
  }

  /** A request starts only when the one before it has finished or died. */
  ghost predicate SequentialRun(s: State, acts: seq<Action>)
    requires ValidRun(s, acts)
    decreases |acts|
  {
    acts == [] || ((acts[0].Start? ==> Quiet(s)) && SequentialRun(Step(s, acts[0]), acts[1..]))
  }

  // ----- No write ever conflicts -----

  /** The copy about to be written, or kept for a later write, carries the stored revision. */
  predicate Current(s: State, r: Rec) {
    r.rev == if r.id in s.store then s.store[r.id].rev else ""
  }

  predicate Rereader(who: Caller) {
    who.ByConfirm? && who.reread
  }

  predicate Synced(s: State, p: Proc) {
    match p
    case CReread(_) => false
    case RPut(r) => Current(s, r)
    case RClock(r) => Current(s, r)
    case RMail(r, _) => Current(s, r)
    case RBook(r, _) => Current(s, r)
    case CAttest(r, _) => Current(s, r)
    case CPut(r, _) => Current(s, r)
    case DSign(r, who) => Current(s, r) && !Rereader(who)
    case DStamp(r, who, _, _) => Current(s, r) && !Rereader(who)
    case DSend(r, who, _, _) => Current(s, r) && !Rereader(who)
    case DBook(r, who, _) => Current(s, r) && !Rereader(who)
    case _ => true
  }

  ghost predicate OneAtATime(s: State) {
    && (forall p, q :: p in s.procs && q in s.procs && Live(s.procs[p]) && Live(s.procs[q]) ==> p == q)
    && (forall p :: p in s.procs && Live(s.procs[p]) ==> Synced(s, s.procs[p]))
  }

  lemma ReceiveKeepsSynced(s: State, pid: nat, c: Choice)
    requires Enabled(s, Move(pid, c)) && Synced(s, s.procs[pid])
    requires var p := s.procs[pid]; p.RGate? || p.RGet? || p.RPut? || p.RClock? || p.RMail? || p.RBook?
    requires s.procs[pid].RGet? ==> s.procs[pid].rec.rev == ""
    ensures Synced(Step(s, Move(pid, c)), TurnOf(s, s.procs[pid], c).next)
  {
  }

  lemma ConfirmKeepsSynced(s: State, pid: nat, c: Choice)
    requires Enabled(s, Move(pid, c)) && Synced(s, s.procs[pid])
    requires var p := s.procs[pid]; p.HGate? || p.CAttest? || p.CPut?
    ensures Synced(Step(s, Move(pid, c)), TurnOf(s, s.procs[pid], c).next)
  {
  }

  lemma DeliverKeepsSynced(s: State, pid: nat, c: Choice)
    requires Enabled(s, Move(pid, c)) && Synced(s, s.procs[pid]) && Delivering(s.procs[pid])
    ensures Synced(Step(s, Move(pid, c)), TurnOf(s, s.procs[pid], c).next)
  {
  }

  lemma ReadKeepsSynced(s: State, pid: nat, c: Choice)
    requires Enabled(s, Move(pid, c)) && (s.procs[pid].CLookup? || s.procs[pid].XGet?)
    requires var p := s.procs[pid];
             p.CLookup? && ByToken(s.store, p.token, c.at).Found? ==> Current(s, ByToken(s.store, p.token, c.at).rec)
    requires var p := s.procs[pid];
             p.XGet? && DocID(p.address) in s.store ==> Current(s, s.store[DocID(p.address)])
    ensures Synced(Step(s, Move(pid, c)), TurnOf(s, s.procs[pid], c).next)
  {
  }

  lemma MoveKeepsSynced(s: State, pid: nat, c: Choice)
    requires Inv(s) && Enabled(s, Move(pid, c)) && Synced(s, s.procs[pid])
    ensures Synced(Step(s, Move(pid, c)), TurnOf(s, s.procs[pid], c).next)
  {
    var p := s.procs[pid];
    if p.CLookup? || p.XGet? {
      if p.CLookup? && ByToken(s.store, p.token, c.at).Found? {
        FoundFacts(s, p.token, c.at);
      }
      if p.XGet? && DocID(p.address) in s.store {
        StoredFacts(s, DocID(p.address));
      }
      ReadKeepsSynced(s, pid, c);
    } else if Delivering(p) {
      DeliverKeepsSynced(s, pid, c);
    } else if p.HGate? || p.CAttest? || p.CPut? {
      ConfirmKeepsSynced(s, pid, c);
    } else {
      assert ProcInv(s, p);
      ReceiveKeepsSynced(s, pid, c);
    }
  }

  lemma StepKeepsOneAtATime(s: State, a: Action)
    requires Inv(s) && OneAtATime(s) && Enabled(s, a) && (a.Start? ==> Quiet(s))
    ensures OneAtATime(Step(s, a))
  {
    if a.Move? {
      MoveKeepsSynced(s, a.pid, a.choice);
    }
  }

  /** What holds before each action of a sequential run. */
  lemma {:induction false} SequentialAt(s: State, acts: seq<Action>, n: nat)
    requires Inv(s) && OneAtATime(s) && ValidRun(s, acts) && SequentialRun(s, acts) && n <= |acts|
    ensures Inv(StateAt(s, acts, n)) && OneAtATime(StateAt(s, acts, n))
    ensures n < |acts| ==> InTurn(StateAt(s, acts, n), acts[n])
    decreases n
  {
    if n > 0 {
      StepKeepsInv(s, acts[0]);
      StepKeepsOneAtATime(s, acts[0]);
      SequentialAt(Step(s, acts[0]), acts[1..], n - 1);
    }
  }

  /** The action may come next in a sequential run. */
  ghost predicate InTurn(s: State, a: Action) {
    Enabled(s, a) && (a.Start? ==> Quiet(s))
  }

  /** In every sequential run of any length no Put ever conflicts, even when requests die. */
  lemma NoConflicts(cfg: Config, acts: seq<Action>, pid: nat)
    requires ValidRun(Init(cfg), acts) && SequentialRun(Init(cfg), acts)
    requires var s := Run(Init(cfg), acts); pid in s.procs && Writing(s.procs[pid])
    ensures var s := Run(Init(cfg), acts); !PutOutcome(s.store, s.procs[pid].rec).Conflict?
  {
    InvInit(cfg);
    SequentialAt(Init(cfg), acts, |acts|);
    StateAtEnd(Init(cfg), acts);
    var s := Run(Init(cfg), acts);
    assert Live(s.procs[pid]);
  }

  // ----- What a process alone in the system works on -----

  /** The document `id` is stored under token `t`. */
  predicate Holding(s: State, id: string, t: string) {
    id in s.store && s.store[id].token == t
  }

  /** A delivering process works on the stored record. */
  lemma DeliversStored(s: State, pid: nat)
    requires Inv(s) && OneAtATime(s) && pid in s.procs && Delivering(s.procs[pid])
    ensures var r := s.procs[pid].rec;
            && r.id in s.store && r.rev in s.written && s.store[r.id] == s.written[r.rev]
            && Deliverable(s, s.store[r.id], s.procs[pid].who) && s.store[r.id].token == r.token
            && Invalidity(s.store[r.id]).None?
            && s.store[r.id].confirmedAt.Some? && s.store[r.id].status != Pending
  {
    var r := s.procs[pid].rec;
    assert ProcInv(s, s.procs[pid]) && Synced(s, s.procs[pid]);
    assert RecInv(s, s.written[r.rev]);
    assert Copy(s, s.store[r.id]);
  }

  /** The outcome of a delivery is always stored. */
  lemma OutcomeIsStored(s: State, pid: nat, c: Choice)
    requires Inv(s) && OneAtATime(s) && Enabled(s, Move(pid, c)) && s.procs[pid].DBook?
    ensures var p := s.procs[pid];
            TurnOf(s, p, c).write == Some(Entry(p.rec.(rev := c.novel), DeliveryOutcome(p.who)))
  {
    DeliversStored(s, pid);
    assert ProcInv(s, s.procs[pid]) && Live(s.procs[pid]);
  }

  /** Where the token's record is kept. */
  lemma OneHome(s: State, id: string, t: string)
    requires Inv(s) && Holding(s, id, t)
    ensures t in s.mints && id == DocID(s.mints[t].address)
  {
    StoredFacts(s, id);
  }
}
