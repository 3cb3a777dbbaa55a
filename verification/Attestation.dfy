/** When a record past pending carries a confirmation time: under which schedules it always
    does, exactly which runs break it, and one such run. */
module Attestation {
  import opened Records
  import opened MemoryStore
  import opened Protocol
  import opened Invariant
  import opened Steps
  import opened Runs
  import opened Requests

  /** The intended invariant: whatever is past pending has been confirmed. */
  predicate Intended(r: Rec) {
    r.status == Pending || r.confirmedAt.Some?
  }

  ghost predicate AllIntended(s: State) {
    forall rev :: rev in s.written ==> Intended(s.written[rev])
  }

  // ----- A schedule under which it holds -----

  /** A Receive that is still running and holds the token. */
  predicate Receiving(p: Proc, token: string) {
    (p.RGet? || p.RPut? || p.RClock? || p.RMail? || p.RBook?) && p.rec.token == token
  }

  /** The Receive that minted the token has finished. */
  ghost predicate Settled(s: State, token: string) {
    && token in s.mints
    && forall pid :: pid in s.procs ==> !Receiving(s.procs[pid], token)
  }

  /** No Confirm of a token starts before the Receive that minted it has finished. */
  ghost predicate Patient(s: State, a: Action) {
    a.Move? && a.pid in s.procs && s.procs[a.pid].CLookup? && s.procs[a.pid].token in s.mints ==>
      Settled(s, s.procs[a.pid].token)
  }

  ghost predicate PatientRun(s: State, acts: seq<Action>)
    requires ValidRun(s, acts)
    decreases |acts|
  {
    acts == [] || (Patient(s, acts[0]) && PatientRun(Step(s, acts[0]), acts[1..]))
  }

  /** If the stored record still has the token and no confirmation, it is the very version
      the copy was read from. */
  predicate Guarded(s: State, r: Rec) {
    r.id in s.store && s.store[r.id].token == r.token && s.store[r.id].confirmedAt.None? ==>
      s.store[r.id].rev == r.rev
  }

  predicate Covered(s: State, token: string) {
    forall id :: id in s.store && s.store[id].token == token ==> s.store[id].confirmedAt.Some?
  }

  ghost predicate PatientProc(s: State, p: Proc) {
    match p
    case CAttest(r, _) => Settled(s, r.token) && Guarded(s, r)
    case CPut(r, _) => Settled(s, r.token) && Guarded(s, r)
    case CReread(token) => Settled(s, token) && Covered(s, token)
    case DSign(r, _) => r.confirmedAt.Some?
    case DStamp(r, _, _, _) => r.confirmedAt.Some?
    case DSend(r, _, _, _) => r.confirmedAt.Some?
    case DBook(r, _, _) => r.confirmedAt.Some?
    case _ => true
  }

  ghost predicate PatientInv(s: State) {
    && AllIntended(s)
    && forall pid {:trigger PatientProc(s, s.procs[pid])} :: pid in s.procs ==> PatientProc(s, s.procs[pid])
  }

  lemma SettledStays(s: State, pid: nat, c: Choice, t: Turn, token: string)
    requires pid in s.procs && Settled(s, token) && c.novel !in s.mints
    requires t.next.RGet? ==> t.next.rec.token == c.novel || Receiving(s.procs[pid], t.next.rec.token)
    requires t.next.RPut? || t.next.RClock? || t.next.RMail? || t.next.RBook? ==>
               Receiving(s.procs[pid], t.next.rec.token)
    ensures Settled(Apply(s, pid, c, t), token)
  {
    var s' := Apply(s, pid, c, t);
    forall q | q in s'.procs ensures !Receiving(s'.procs[q], token) {
      assert !Receiving(s.procs[pid], token);
      if q != pid {
        assert !Receiving(s.procs[q], token);
      }
    }
  }

  lemma ReceiveKeepsToken(s: State, p: Proc, c: Choice)
    requires Live(p)
    ensures var next := TurnOf(s, p, c).next;
            && (next.RGet? ==> next.rec.token == c.novel)
            && (next.RPut? || next.RClock? || next.RMail? || next.RBook? ==> Receiving(p, next.rec.token))
  {
  }

  /** A write to a settled token's record leaves it confirmed. */
  lemma SettledWrite(s: State, pid: nat, c: Choice, token: string)
    requires Enabled(s, Move(pid, c)) && Settled(s, token) && ProcInv(s, s.procs[pid])
    requires PatientProc(s, s.procs[pid])
    requires var w := TurnOf(s, s.procs[pid], c).write; w.Some? && w.value.rec.token == token
    ensures TurnOf(s, s.procs[pid], c).write.value.rec.confirmedAt.Some?
  {
    assert !Receiving(s.procs[pid], token);
  }

  /** A step of another process keeps what is settled, and writes a settled record confirmed. */
  lemma SettledStep(s: State, pid: nat, c: Choice, token: string)
    requires Enabled(s, Move(pid, c)) && ProcInv(s, s.procs[pid]) && PatientProc(s, s.procs[pid]) && Settled(s, token)
    ensures var t := TurnOf(s, s.procs[pid], c);
            && Settled(Step(s, Move(pid, c)), token)
            && (t.write.Some? && t.write.value.rec.token == token ==> t.write.value.rec.confirmedAt.Some?)
  {
    ReceiveKeepsToken(s, s.procs[pid], c);
    SettledStays(s, pid, c, TurnOf(s, s.procs[pid], c), token);
    if TurnOf(s, s.procs[pid], c).write.Some? && TurnOf(s, s.procs[pid], c).write.value.rec.token == token {
      SettledWrite(s, pid, c, token);
    }
  }

  lemma OthersStayPatient(s: State, pid: nat, c: Choice, q: nat)
    requires Enabled(s, Move(pid, c)) && ProcInv(s, s.procs[pid]) && PatientProc(s, s.procs[pid])
    requires q in s.procs && PatientProc(s, s.procs[q])
    ensures PatientProc(Step(s, Move(pid, c)), s.procs[q])
  {
    var p := s.procs[q];
    if p.CAttest? || p.CPut? || p.CReread? {
      SettledStep(s, pid, c, if p.CReread? then p.token else p.rec.token);
    }
  }

  /** The stored record found under a token, when the lookup is the process's own. */
  lemma LookupPatient(s: State, pid: nat, c: Choice)
    requires Inv(s) && Enabled(s, Move(pid, c)) && s.procs[pid].CLookup?
    requires Settled(s, s.procs[pid].token) || s.procs[pid].token !in s.mints
    ensures PatientProc(Step(s, Move(pid, c)), TurnOf(s, s.procs[pid], c).next)
  {
    var token := s.procs[pid].token;
    ReceiveKeepsToken(s, s.procs[pid], c);
    if ByToken(s.store, token, c.at).Found? {
      FoundFacts(s, token, c.at);
      SettledStays(s, pid, c, TurnOf(s, s.procs[pid], c), token);
    }
  }

  lemma RereadPatient(s: State, pid: nat, c: Choice)
    requires Inv(s) && Enabled(s, Move(pid, c)) && s.procs[pid].CReread? && PatientProc(s, s.procs[pid])
    ensures PatientProc(Step(s, Move(pid, c)), TurnOf(s, s.procs[pid], c).next)
  {
    if ByToken(s.store, s.procs[pid].token, c.at).Found? {
      FoundFacts(s, s.procs[pid].token, c.at);
    }
  }

  /** A Confirm whose write lost finds the token's record confirmed, or gone. */
  lemma ConflictCovers(s: State, pid: nat)
    requires Inv(s) && pid in s.procs && s.procs[pid].CPut? && PatientProc(s, s.procs[pid])
    requires PutOutcome(s.store, s.procs[pid].rec).Conflict?
    ensures Covered(s, s.procs[pid].rec.token)
  {
    var r := s.procs[pid].rec;
    assert ProcInv(s, s.procs[pid]);
    assert RecInv(s, s.written[r.rev]);
    forall id | id in s.store && s.store[id].token == r.token ensures s.store[id].confirmedAt.Some? {
      StoredFacts(s, id);
    }
  }

  lemma ConfirmPutPatient(s: State, pid: nat, c: Choice)
    requires Inv(s) && Enabled(s, Move(pid, c)) && s.procs[pid].CPut? && PatientProc(s, s.procs[pid])
    ensures PatientProc(Step(s, Move(pid, c)), TurnOf(s, s.procs[pid], c).next)
  {
    var r := s.procs[pid].rec;
    if PutOutcome(s.store, r).Conflict? {
      ConflictCovers(s, pid);
      SettledStays(s, pid, c, TurnOf(s, s.procs[pid], c), r.token);
    }
    assert ProcInv(s, s.procs[pid]);
  }

  lemma AttestPatient(s: State, pid: nat, c: Choice)
    requires Enabled(s, Move(pid, c)) && s.procs[pid].CAttest? && PatientProc(s, s.procs[pid])
    ensures PatientProc(Step(s, Move(pid, c)), TurnOf(s, s.procs[pid], c).next)
  {
    SettledStays(s, pid, c, TurnOf(s, s.procs[pid], c), s.procs[pid].rec.token);
  }

  lemma OtherPatient(s: State, pid: nat, c: Choice)
    requires Enabled(s, Move(pid, c)) && PatientProc(s, s.procs[pid])
    requires var p := s.procs[pid]; !p.CLookup? && !p.CReread? && !p.CPut? && !p.CAttest?
    ensures PatientProc(Step(s, Move(pid, c)), TurnOf(s, s.procs[pid], c).next)
  {
  }

  lemma MoverStaysPatient(s: State, pid: nat, c: Choice)
    requires Inv(s) && Enabled(s, Move(pid, c)) && Patient(s, Move(pid, c)) && PatientProc(s, s.procs[pid])
    ensures PatientProc(Step(s, Move(pid, c)), TurnOf(s, s.procs[pid], c).next)
  {
    var p := s.procs[pid];
    if p.CLookup? {
      LookupPatient(s, pid, c);
    } else if p.CReread? {
      RereadPatient(s, pid, c);
    } else if p.CPut? {
      ConfirmPutPatient(s, pid, c);
    } else if p.CAttest? {
      AttestPatient(s, pid, c);
    } else {
      OtherPatient(s, pid, c);
    }
  }

  lemma WriteIsIntended(s: State, pid: nat, c: Choice)
    requires Enabled(s, Move(pid, c)) && ProcInv(s, s.procs[pid]) && TurnOf(s, s.procs[pid], c).write.Some?
    ensures Intended(TurnOf(s, s.procs[pid], c).write.value.rec)
            <==> !(s.procs[pid].DBook? && s.procs[pid].rec.confirmedAt.None?)
  {
  }

  lemma StepKeepsPatient(s: State, a: Action)
    requires Inv(s) && PatientInv(s) && Enabled(s, a) && Patient(s, a)
    ensures PatientInv(Step(s, a))
  {
    var s' := Step(s, a);
    if a.Move? {
      assert ProcInv(s, s.procs[a.pid]) && PatientProc(s, s.procs[a.pid]);
      MoverStaysPatient(s, a.pid, a.choice);
      forall q | q in s'.procs && q != a.pid ensures PatientProc(s', s'.procs[q]) {
        assert PatientProc(s, s.procs[q]);
        OthersStayPatient(s, a.pid, a.choice, q);
      }
      if TurnOf(s, s.procs[a.pid], a.choice).write.Some? {
        WriteIsIntended(s, a.pid, a.choice);
      }
    } else {
      forall q | q in s'.procs ensures PatientProc(s', s'.procs[q]) {
        if q != a.pid {
          assert PatientProc(s, s.procs[q]);
          SwapSettles(s, a, s.procs[q]);
        }
      }
    }
  }

  lemma SwapSettles(s: State, a: Action, p: Proc)
    requires Enabled(s, a) && !a.Move? && PatientProc(s, p)
    ensures PatientProc(Step(s, a), p)
  {
    var s' := Step(s, a);
    if p.CAttest? || p.CPut? || p.CReread? {
      var token := if p.CReread? then p.token else p.rec.token;
      forall q | q in s'.procs ensures !Receiving(s'.procs[q], token) {
        assert q in s.procs ==> !Receiving(s.procs[q], token);
      }
    }
  }

  lemma {:induction false} PatientRunKeeps(s: State, acts: seq<Action>)
    requires Inv(s) && PatientInv(s) && ValidRun(s, acts) && PatientRun(s, acts)
    ensures PatientInv(Run(s, acts))
    decreases |acts|
  {
    if acts != [] {
      StepKeepsInv(s, acts[0]);
      StepKeepsPatient(s, acts[0]);
      PatientRunKeeps(Step(s, acts[0]), acts[1..]);
    }
  }

  /** In every interleaving in which no Confirm of a token starts before the Receive that
      minted it has finished, every version past pending has a confirmation time. */
  lemma PatientRunsAreAttested(cfg: Config, acts: seq<Action>)
    requires ValidRun(Init(cfg), acts) && PatientRun(Init(cfg), acts)
    ensures AllIntended(Run(Init(cfg), acts))
  {
    InvInit(cfg);
    PatientRunKeeps(Init(cfg), acts);
  }

  // ----- Exactly when it fails -----

  /** The outcome of a delivery is about to be stored on a record without confirmation. */
  ghost predicate Hazard(s: State, a: Action) {
    && a.Move? && a.pid in s.procs && s.procs[a.pid].DBook?
    && s.procs[a.pid].rec.confirmedAt.None?
    && PutOutcome(s.store, s.procs[a.pid].rec).Stored?
  }

  lemma StepIntended(s: State, a: Action)
    requires Inv(s) && AllIntended(s) && Enabled(s, a)
    ensures AllIntended(Step(s, a)) <==> !Hazard(s, a)
  {
    if a.Move? {
      assert ProcInv(s, s.procs[a.pid]);
      var t := TurnOf(s, s.procs[a.pid], a.choice);
      if t.write.Some? {
        WriteIsIntended(s, a.pid, a.choice);
        assert t.write.value.rec.rev in Step(s, a).written;
      }
    }
  }

  lemma BrokenStaysBroken(s: State, acts: seq<Action>)
    requires Inv(s) && ValidRun(s, acts) && !AllIntended(s)
    ensures !AllIntended(Run(s, acts))
  {
    RunKeepsInv(s, acts);
    var rev :| rev in s.written && !Intended(s.written[rev]);
    assert rev in Run(s, acts).written && Run(s, acts).written[rev] == s.written[rev];
  }

  lemma {:induction false} RunIntended(s: State, acts: seq<Action>)
    requires Inv(s) && AllIntended(s) && ValidRun(s, acts)
    ensures AllIntended(Run(s, acts)) <==> forall k :: 0 <= k < |acts| ==> !Hazard(StateAt(s, acts, k), acts[k])
    decreases |acts|
  {
    if acts != [] {
      var s1 := Step(s, acts[0]);
      StepKeepsInv(s, acts[0]);
      StepIntended(s, acts[0]);
      if Hazard(s, acts[0]) {
        BrokenStaysBroken(s1, acts[1..]);
        assert Hazard(StateAt(s, acts, 0), acts[0]);
      } else {
        RunIntended(s1, acts[1..]);
        if k :| 0 <= k < |acts| && Hazard(StateAt(s, acts, k), acts[k]) {
          assert Hazard(StateAt(s1, acts[1..], k - 1), acts[1..][k - 1]);
        } else {
          forall k | 0 <= k < |acts[1..]| ensures !Hazard(StateAt(s1, acts[1..], k), acts[1..][k]) {
            assert !Hazard(StateAt(s, acts, k + 1), acts[k + 1]);
          }
        }
      }
    }
  }

  /** Whoever delivers a record without confirmation is a Confirm that lost its own write and
      re-read. */
  lemma HazardIsReread(s: State, pid: nat)
    requires Reachable(s) && pid in s.procs
    requires var p := s.procs[pid]; p.DSign? || p.DStamp? || p.DSend? || p.DBook?
    requires s.procs[pid].rec.confirmedAt.None?
    ensures s.procs[pid].who.ByConfirm? && s.procs[pid].who.reread
  {
    ReachableInv(s);
    assert ProcInv(s, s.procs[pid]);
  }

  // ----- The branch that goes wrong -----

  /** No delivery under way is of a record without a confirmation time. */
  ghost predicate DeliveriesConfirmed(s: State) {
    forall pid :: !BlindIn(s, pid)
  }

  /** A Confirm that lost its write reads a record that is neither delivered nor confirmed. */
  ghost predicate BlindReread(s: State, a: Action) {
    && a.Move? && a.pid in s.procs && s.procs[a.pid].CReread?
    && var found := ByToken(s.store, s.procs[a.pid].token, a.choice.at);
       found.Found? && found.rec.status != Delivered && found.rec.confirmedAt.None?
  }

  /** The process delivers a record without a confirmation time. */
  predicate Blind(p: Proc) {
    Delivering(p) && p.rec.confirmedAt.None?
  }

  lemma TurnConfirmed(s: State, pid: nat, c: Choice)
    requires Enabled(s, Move(pid, c)) && ProcInv(s, s.procs[pid])
    ensures var p, next := s.procs[pid], TurnOf(s, s.procs[pid], c).next;
            && (Blind(next) <==> BlindReread(s, Move(pid, c)) || (Blind(p) && !next.Done?))
            && (Delivering(p) ==> Delivering(next) || next.Done?)
  {
  }

  /** How a process comes to deliver a record without confirmation, or to stop. */
  lemma BlindStep(s: State, a: Action, pid: nat)
    requires Inv(s) && Enabled(s, a)
    ensures BlindIn(Step(s, a), pid) ==> (BlindReread(s, a) && a.pid == pid) || BlindIn(s, pid)
    ensures BlindIn(s, pid) ==> BlindOrEnded(Step(s, a), pid)
    ensures BlindReread(s, a) && a.pid == pid ==> BlindIn(Step(s, a), pid)
  {
    if a.Move? && a.pid == pid {
      assert ProcInv(s, s.procs[pid]) && a == Move(pid, a.choice);
      TurnConfirmed(s, pid, a.choice);
    }
  }

  predicate BlindIn(s: State, pid: nat) {
    pid in s.procs && Blind(s.procs[pid])
  }

  predicate BlindOrEnded(s: State, pid: nat) {
    pid in s.procs && (Live(s.procs[pid]) ==> Blind(s.procs[pid]))
  }

  /** Whoever delivers a record without confirmation has made such a re-read. */
  lemma {:induction false} BlindFrom(s: State, acts: seq<Action>, n: nat, pid: nat) returns (k: nat)
    requires Inv(s) && s.procs == map[] && ValidRun(s, acts) && n <= |acts| && BlindIn(StateAt(s, acts, n), pid)
    ensures k < n && BlindReread(StateAt(s, acts, k), acts[k]) && acts[k].pid == pid
    decreases n
  {
    var before := StateAt(s, acts, n - 1);
    StateAtNext(s, acts, n - 1);
    StateAtInv(s, acts, n - 1);
    BlindStep(before, acts[n - 1], pid);
    if BlindIn(before, pid) {
      k := BlindFrom(s, acts, n - 1, pid);
    } else {
      k := n - 1;
    }
  }

  /** Throughout a run every delivery is of a confirmed record exactly when, at every re-read
      after a lost write, the record found is delivered or carries a confirmation time: the
      one branch that does not check it. */
  lemma ConfirmedExactly(cfg: Config, acts: seq<Action>)
    requires ValidRun(Init(cfg), acts)
    ensures (forall k :: 0 <= k <= |acts| ==> DeliveriesConfirmed(StateAt(Init(cfg), acts, k)))
            <==> (forall k :: 0 <= k < |acts| ==> !BlindReread(StateAt(Init(cfg), acts, k), acts[k]))
  {
    var s := Init(cfg);
    InvInit(cfg);
    if j :| 0 <= j < |acts| && BlindReread(StateAt(s, acts, j), acts[j]) {
      StateAtNext(s, acts, j);
      StateAtInv(s, acts, j);
      BlindStep(StateAt(s, acts, j), acts[j], acts[j].pid);
      assert !DeliveriesConfirmed(StateAt(s, acts, j + 1));
    } else if n :| 0 <= n <= |acts| && !DeliveriesConfirmed(StateAt(s, acts, n)) {
      var pid :| BlindIn(StateAt(s, acts, n), pid);
      var k := BlindFrom(s, acts, n, pid);
    }
  }

  // ----- What gets stored -----

  lemma EndedStays(s: State, a: Action, pid: nat)
    requires Enabled(s, a) && pid in s.procs && !Live(s.procs[pid])
    ensures BlindOrEnded(Step(s, a), pid)
  {
  }

  /** A process that made such a re-read delivers the record it found, until it ends. */
  lemma {:induction false} BlindSince(s: State, acts: seq<Action>, k: nat, n: nat)
    requires Inv(s) && ValidRun(s, acts) && k < n <= |acts| && BlindReread(StateAt(s, acts, k), acts[k])
    ensures BlindOrEnded(StateAt(s, acts, n), acts[k].pid)
    decreases n
  {
    var pid, before := acts[k].pid, StateAt(s, acts, n - 1);
    StateAtNext(s, acts, n - 1);
    StateAtInv(s, acts, n - 1);
    BlindStep(before, acts[n - 1], pid);
    if k < n - 1 {
      BlindSince(s, acts, k, n - 1);
      if !BlindIn(before, pid) {
        EndedStays(before, acts[n - 1], pid);
      }
    }
  }

  /** Action `k` is a re-read that finds a record neither delivered nor confirmed, and action
      `l` the write of the outcome of the same process's delivery. */
  ghost predicate BlindDelivery(s: State, acts: seq<Action>, k: nat, l: nat)
    requires ValidRun(s, acts) && k < l < |acts|
  {
    && BlindReread(StateAt(s, acts, k), acts[k])
    && acts[l].Move? && acts[l].pid == acts[k].pid
    && acts[l].pid in StateAt(s, acts, l).procs && StateAt(s, acts, l).procs[acts[l].pid].DBook?
  }

  ghost predicate OutcomeLoses(s: State, acts: seq<Action>, l: nat)
    requires ValidRun(s, acts) && l < |acts| && acts[l].Move?
    requires acts[l].pid in StateAt(s, acts, l).procs && StateAt(s, acts, l).procs[acts[l].pid].DBook?
  {
    !PutOutcome(StateAt(s, acts, l).store, StateAt(s, acts, l).procs[acts[l].pid].rec).Stored?
  }

  lemma HazardIsBlindDelivery(s: State, acts: seq<Action>, l: nat) returns (k: nat)
    requires Inv(s) && s.procs == map[] && ValidRun(s, acts) && l < |acts|
    requires Hazard(StateAt(s, acts, l), acts[l])
    ensures k < l && BlindDelivery(s, acts, k, l) && !OutcomeLoses(s, acts, l)
  {
    k := BlindFrom(s, acts, l, acts[l].pid);
  }

  lemma BlindDeliveryIsHazard(s: State, acts: seq<Action>, k: nat, l: nat)
    requires Inv(s) && ValidRun(s, acts) && k < l < |acts| && BlindDelivery(s, acts, k, l)
    ensures Hazard(StateAt(s, acts, l), acts[l]) <==> !OutcomeLoses(s, acts, l)
  {
    BlindSince(s, acts, k, l);
  }

  /** Exactly when the intended record invariant holds throughout a run: whenever a Confirm
      re-reads, after its lost write, a record neither delivered nor confirmed, the write of
      the outcome of the delivery it goes on to, if it gets there, loses as well. */
  lemma AttestedExactly(cfg: Config, acts: seq<Action>)
    requires ValidRun(Init(cfg), acts)
    ensures AllIntended(Run(Init(cfg), acts))
            <==> forall k, l {:trigger BlindDelivery(Init(cfg), acts, k, l)} ::
                   0 <= k < l < |acts| && BlindDelivery(Init(cfg), acts, k, l) ==> OutcomeLoses(Init(cfg), acts, l)
  {
    var s := Init(cfg);
    InvInit(cfg);
    RunIntended(s, acts);
    if AllIntended(Run(s, acts)) {
      forall k, l | 0 <= k < l < |acts| && BlindDelivery(s, acts, k, l) ensures OutcomeLoses(s, acts, l) {
        BlindDeliveryIsHazard(s, acts, k, l);
      }
    } else {
      var l :| 0 <= l < |acts| && Hazard(StateAt(s, acts, l), acts[l]);
      var k := HazardIsBlindDelivery(s, acts, l);
    }
  }

  /** So a record is stored past pending and unconfirmed only after such a re-read. */
  lemma UnconfirmedNeedsBlindReread(cfg: Config, acts: seq<Action>) returns (k: nat)
    requires ValidRun(Init(cfg), acts) && !AllIntended(Run(Init(cfg), acts))
    ensures k < |acts| && BlindReread(StateAt(Init(cfg), acts, k), acts[k])
  {
    AttestedExactly(cfg, acts);
    var i, l :| 0 <= i < l < |acts| && BlindDelivery(Init(cfg), acts, i, l);
    k := i;
  }
}
