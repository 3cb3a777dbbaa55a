/** Sequential runs, deaths included: exactly when Confirm succeeds at the authority more than
    once on one token. */
module Reopening {
  import opened Records
  import opened Protocol
  import opened Invariant
  import opened Steps
  import opened Runs
  import opened Requests
  import opened Sequential

  // ----- The actions that matter -----

  /** The process's next step books the outcome of a delivery on token `t`. */
  predicate Booking(p: Proc, t: string) {
    p.DBook? && p.rec.token == t
  }

  /** A Confirm's post on token `t` is accepted by the authority. */
  predicate ConfirmSucceeds(s: State, a: Action, t: string) {
    && a.Move? && a.pid in s.procs && s.procs[a.pid].DSend?
    && s.procs[a.pid].rec.token == t && s.procs[a.pid].who.ByConfirm? && a.choice.ok
  }

  /** The outcome of a failed Redeliver is booked, or a Confirm whose post was accepted dies
      before it has booked the outcome. */
  predicate Reopens(s: State, a: Action, t: string) {
    && !a.Start? && a.pid in s.procs && Booking(s.procs[a.pid], t)
    && if a.Kill? then s.procs[a.pid].who.ByConfirm? && s.procs[a.pid].sent
       else s.procs[a.pid].who.ByRedeliver? && !s.procs[a.pid].sent
  }

  /** The outcome of a successful Redeliver is booked. */
  predicate Recloses(s: State, a: Action, t: string) {
    a.Move? && a.pid in s.procs && Booking(s.procs[a.pid], t) && s.procs[a.pid].who.ByRedeliver? && s.procs[a.pid].sent
  }

  // ----- Whether a success stands -----

  /** A Confirm is about to book its success on the document. */
  ghost predicate BookingSuccess(s: State, id: string) {
    exists pid :: pid in s.procs && s.procs[pid].DBook? && s.procs[pid].rec.id == id
                  && s.procs[pid].who.ByConfirm? && s.procs[pid].sent
  }

  /** The stored record says delivered, or is about to. */
  ghost predicate Stands(s: State, id: string)
    requires id in s.store
  {
    s.store[id].status == Delivered || BookingSuccess(s, id)
  }

  /** The token has been posted, so it is not to be minted again, and its record is past
      pending. */
  ghost predicate Tried(s: State, id: string, t: string) {
    !Unborn(s, t) && (Holding(s, id, t) ==> s.store[id].status != Pending)
  }

  /** The record stays past pending, and a success stands after an action exactly when it
      stood before, unless the action reopens the token or closes it again. */
  ghost predicate StandsOn(s: State, a: Action, id: string, t: string)
    requires Enabled(s, a)
  {
    Holding(Step(s, a), id, t) ==>
      && Holding(s, id, t) && Step(s, a).store[id].status != Pending
      && (Stands(Step(s, a), id) <==> !Reopens(s, a, t) && (Recloses(s, a, t) || Stands(s, id)))
  }

  lemma OnlyOneBooks(s: State, pid: nat, id: string)
    requires OneAtATime(s) && pid in s.procs && Live(s.procs[pid])
    ensures BookingSuccess(s, id)
            <==> s.procs[pid].DBook? && s.procs[pid].rec.id == id && s.procs[pid].who.ByConfirm? && s.procs[pid].sent
  {
  }

  lemma QuietStands(s: State, a: Action, id: string, t: string)
    requires InTurn(s, a) && a.Start? && Tried(s, id, t)
    ensures StandsOn(s, a, id, t)
  {
    var s' := Step(s, a);
    assert forall pid :: pid in s.procs ==> s'.procs[pid] == s.procs[pid];
  }

  lemma DeathStands(s: State, a: Action, id: string, t: string)
    requires Inv(s) && OneAtATime(s) && InTurn(s, a) && a.Kill? && Tried(s, id, t)
    ensures StandsOn(s, a, id, t)
  {
    var s', p := Step(s, a), s.procs[a.pid];
    OnlyOneBooks(s, a.pid, id);
    assert !BookingSuccess(s', id);
    if p.DBook? {
      DeliversStored(s, a.pid);
      if Holding(s, id, t) {
        SameHome(s, a.pid, id, t);
      }
    }
  }

  /** A process that delivers under token `t` works on the document that holds it. */
  lemma SameHome(s: State, pid: nat, id: string, t: string)
    requires Inv(s) && OneAtATime(s) && pid in s.procs && Delivering(s.procs[pid]) && Holding(s, id, t)
    ensures s.procs[pid].rec.id == id <==> s.procs[pid].rec.token == t
  {
    DeliversStored(s, pid);
    TokensDistinct(s);
  }

  /** The process's next step does not book a success on the document. */
  lemma NextElsewhere(s: State, pid: nat, c: Choice, id: string, t: string)
    requires Inv(s) && OneAtATime(s) && InTurn(s, Move(pid, c)) && Holding(s, id, t)
    requires !ConfirmSucceeds(s, Move(pid, c), t)
    ensures var next := TurnOf(s, s.procs[pid], c).next;
            !(next.DBook? && next.rec.id == id && next.who.ByConfirm? && next.sent)
  {
    SentBySend(s, s.procs[pid], c);
    if s.procs[pid].DSend? {
      SameHome(s, pid, id, t);
    }
  }

  lemma SentBySend(s: State, p: Proc, c: Choice)
    requires Live(p)
    ensures var next := TurnOf(s, p, c).next;
            next.DBook? && next.sent ==> p.DSend? && p.rec.id == next.rec.id && p.who == next.who && c.ok
  {
  }

  /** A booking elsewhere is none on the token. */
  lemma BooksElsewhere(s: State, pid: nat, c: Choice, id: string, t: string)
    requires Inv(s) && OneAtATime(s) && InTurn(s, Move(pid, c)) && Holding(s, id, t)
    requires var w := TurnOf(s, s.procs[pid], c).write; w.None? || w.value.rec.id != id
    ensures !BookingSuccess(s, id) && !Booking(s.procs[pid], t)
  {
    OnlyOneBooks(s, pid, id);
    if s.procs[pid].DBook? {
      OutcomeIsStored(s, pid, c);
      SameHome(s, pid, id, t);
    }
  }

  /** A step that leaves the document alone. */
  lemma ElsewhereStands(s: State, a: Action, id: string, t: string)
    requires Inv(s) && OneAtATime(s) && InTurn(s, a) && a.Move? && Tried(s, id, t) && !ConfirmSucceeds(s, a, t)
    requires var w := TurnOf(s, s.procs[a.pid], a.choice).write; w.None? || w.value.rec.id != id
    ensures StandsOn(s, a, id, t)
  {
    var next, s' := TurnOf(s, s.procs[a.pid], a.choice).next, Step(s, a);
    assert a == Move(a.pid, a.choice);
    if Holding(s, id, t) {
      BooksElsewhere(s, a.pid, a.choice, id, t);
      NextElsewhere(s, a.pid, a.choice, id, t);
      assert s'.procs == s.procs[a.pid := next];
      assert !BookingSuccess(s', id);
    }
  }

  lemma AfterWrite(s: State, a: Action, id: string)
    requires OneAtATime(s) && Enabled(s, a) && a.Move?
    requires var w := TurnOf(s, s.procs[a.pid], a.choice).write; w.Some? && w.value.rec.id == id
    ensures id in Step(s, a).store && Step(s, a).store[id] == TurnOf(s, s.procs[a.pid], a.choice).write.value.rec
    ensures !BookingSuccess(Step(s, a), id)
  {
    OnlyOneBooks(s, a.pid, id);
    assert !TurnOf(s, s.procs[a.pid], a.choice).next.DBook?;
  }

  /** What the booking of an outcome stores, and over what. */
  lemma OutcomeWritten(s: State, pid: nat, c: Choice)
    requires Inv(s) && OneAtATime(s) && Enabled(s, Move(pid, c)) && s.procs[pid].DBook?
    ensures var p, w := s.procs[pid], TurnOf(s, s.procs[pid], c).write;
            && w.Some? && w.value.rec.id == p.rec.id && w.value.rec.token == p.rec.token
            && w.value.rec.status == (if p.sent then Delivered else Failed)
            && p.rec.id in s.store && s.store[p.rec.id].token == p.rec.token
            && (p.who.ByConfirm? ==> s.store[p.rec.id].status != Delivered)
  {
    OutcomeIsStored(s, pid, c);
    DeliversStored(s, pid);
    assert ProcInv(s, s.procs[pid]);
  }

  /** The outcome of a delivery, written. */
  lemma OutcomeStands(s: State, a: Action, id: string, t: string)
    requires Inv(s) && OneAtATime(s) && InTurn(s, a) && a.Move? && Tried(s, id, t)
    requires s.procs[a.pid].DBook? && s.procs[a.pid].rec.id == id
    ensures StandsOn(s, a, id, t)
  {
    assert a == Move(a.pid, a.choice);
    OnlyOneBooks(s, a.pid, id);
    OutcomeWritten(s, a.pid, a.choice);
    AfterWrite(s, a, id);
  }

  /** Any other write replaces the token, or makes an undelivered record confirmed. */
  lemma OtherWritten(s: State, pid: nat, c: Choice, t: string)
    requires Inv(s) && Enabled(s, Move(pid, c)) && !s.procs[pid].DBook? && TurnOf(s, s.procs[pid], c).write.Some?
    requires Tried(s, TurnOf(s, s.procs[pid], c).write.value.rec.id, t)
    ensures var r := TurnOf(s, s.procs[pid], c).write.value.rec;
            r.token == t ==>
              r.status == Confirmed && Holding(s, r.id, t) && s.store[r.id].status != Delivered
  {
    var p := s.procs[pid];
    assert ProcInv(s, p);
    if p.RPut? {
      assert Unborn(s, p.rec.token);
    } else {
      PutBuildsOnBase(s, p.rec);
    }
  }

  lemma OtherWriteStands(s: State, a: Action, id: string, t: string)
    requires Inv(s) && OneAtATime(s) && InTurn(s, a) && a.Move? && Tried(s, id, t)
    requires !s.procs[a.pid].DBook?
    requires var w := TurnOf(s, s.procs[a.pid], a.choice).write; w.Some? && w.value.rec.id == id
    ensures StandsOn(s, a, id, t)
  {
    assert a == Move(a.pid, a.choice);
    OnlyOneBooks(s, a.pid, id);
    OtherWritten(s, a.pid, a.choice, t);
    AfterWrite(s, a, id);
  }

  lemma BornStays(s: State, a: Action, t: string)
    requires Inv(s) && Enabled(s, a) && !Unborn(s, t)
    ensures !Unborn(Step(s, a), t)
  {
    StepKeepsInv(s, a);
    var s' := Step(s, a);
    if rev :| rev in s.written && s.written[rev].token == t {
      assert rev in s'.written && s'.written[rev].token == t;
    } else {
      var e :| e in s.events && e.token == t;
      assert e in s'.events[..|s.events|];
    }
  }

  lemma StepStands(s: State, a: Action, id: string, t: string)
    requires Inv(s) && OneAtATime(s) && InTurn(s, a) && Tried(s, id, t) && !ConfirmSucceeds(s, a, t)
    ensures Tried(Step(s, a), id, t) && StandsOn(s, a, id, t)
  {
    BornStays(s, a, t);
    if a.Start? {
      QuietStands(s, a, id, t);
    } else if a.Kill? {
      DeathStands(s, a, id, t);
    } else {
      var w := TurnOf(s, s.procs[a.pid], a.choice).write;
      assert a == Move(a.pid, a.choice);
      if s.procs[a.pid].DBook? {
        OutcomeIsStored(s, a.pid, a.choice);
      }
      if w.None? || w.value.rec.id != id {
        ElsewhereStands(s, a, id, t);
      } else if s.procs[a.pid].DBook? {
        OutcomeStands(s, a, id, t);
      } else {
        OtherWriteStands(s, a, id, t);
      }
    }
  }

  /** A Confirm's success does not come while one stands, and stands itself. */
  lemma SuccessStands(s: State, a: Action, t: string) returns (id: string)
    requires Inv(s) && OneAtATime(s) && InTurn(s, a) && ConfirmSucceeds(s, a, t)
    ensures Holding(s, id, t) && !Stands(s, id)
    ensures Tried(Step(s, a), id, t) && Holding(Step(s, a), id, t) && Stands(Step(s, a), id)
  {
    var p, s' := s.procs[a.pid], Step(s, a);
    id := p.rec.id;
    DeliversStored(s, a.pid);
    OnlyOneBooks(s, a.pid, id);
    assert s'.procs[a.pid].DBook? && s'.procs[a.pid].rec.id == id;
    assert BookingSuccess(s', id);
    assert Accepted(t) in s'.events;
  }

  // ----- Along a run -----

  /** Between the actions `i` and `n` something reopens the token, and nothing after it closes
      it again. */
  ghost predicate Reopened(s: State, acts: seq<Action>, i: nat, n: nat, t: string)
    requires ValidRun(s, acts) && n <= |acts|
  {
    exists k: nat :: i < k && k < n && ReopenedAt(s, acts, k, n, t)
  }

  ghost predicate ReopenedAt(s: State, acts: seq<Action>, k: nat, n: nat, t: string)
    requires ValidRun(s, acts) && k < n <= |acts|
  {
    && Reopens(StateAt(s, acts, k), acts[k], t)
    && forall l :: k < l < n ==> !Recloses(StateAt(s, acts, l), acts[l], t)
  }

  lemma ReopenedNext(s: State, acts: seq<Action>, i: nat, n: nat, t: string)
    requires ValidRun(s, acts) && i < n < |acts|
    ensures var w := StateAt(s, acts, n);
            Reopened(s, acts, i, n + 1, t)
            <==> Reopens(w, acts[n], t) || (!Recloses(w, acts[n], t) && Reopened(s, acts, i, n, t))
  {
    var w := StateAt(s, acts, n);
    if Reopens(w, acts[n], t) {
      assert ReopenedAt(s, acts, n, n + 1, t);
    } else {
      if Reopened(s, acts, i, n + 1, t) {
        var k: nat :| i < k < n + 1 && ReopenedAt(s, acts, k, n + 1, t);
        assert k < n && ReopenedAt(s, acts, k, n, t) && !Recloses(w, acts[n], t);
      }
      if !Recloses(w, acts[n], t) {
        if k :| i < k < n && ReopenedAt(s, acts, k, n, t) {
          assert ReopenedAt(s, acts, k, n + 1, t);
        }
      }
    }
  }

  /** No Confirm succeeds on the token in actions `i` to `n`. */
  ghost predicate NoSuccess(s: State, acts: seq<Action>, i: nat, n: nat, t: string)
    requires ValidRun(s, acts) && n <= |acts|
  {
    forall j :: i <= j < n ==> !ConfirmSucceeds(StateAt(s, acts, j), acts[j], t)
  }

  /** While the token's record is stored, the success stands unless it has been reopened. */
  ghost predicate StandsUnlessReopened(s: State, acts: seq<Action>, i: nat, n: nat, id: string, t: string)
    requires ValidRun(s, acts) && n <= |acts|
  {
    var w := StateAt(s, acts, n);
    && Tried(w, id, t)
    && (Holding(w, id, t) ==> (Stands(w, id) <==> !Reopened(s, acts, i, n, t)))
  }

  lemma {:induction false} SinceSuccess(s: State, acts: seq<Action>, i: nat, n: nat, id: string, t: string)
    requires Inv(s) && OneAtATime(s) && ValidRun(s, acts) && SequentialRun(s, acts) && i < n <= |acts|
    requires ConfirmSucceeds(StateAt(s, acts, i), acts[i], t) && Holding(StateAt(s, acts, i), id, t)
    requires NoSuccess(s, acts, i + 1, n, t)
    ensures StandsUnlessReopened(s, acts, i, n, id, t)
    decreases n
  {
    var w := StateAt(s, acts, n - 1);
    SequentialAt(s, acts, n - 1);
    StateAtNext(s, acts, n - 1);
    if i == n - 1 {
      var home := SuccessStands(w, acts[i], t);
      OneHome(w, id, t);
      OneHome(w, home, t);
    } else {
      SinceSuccess(s, acts, i, n - 1, id, t);
      StepStands(w, acts[n - 1], id, t);
      ReopenedNext(s, acts, i, n - 1, t);
    }
  }

  lemma {:induction false} LastSuccess(s: State, acts: seq<Action>, i: nat, j: nat, t: string) returns (l: nat)
    requires ValidRun(s, acts) && i < j <= |acts| && ConfirmSucceeds(StateAt(s, acts, i), acts[i], t)
    ensures i <= l < j && ConfirmSucceeds(StateAt(s, acts, l), acts[l], t) && NoSuccess(s, acts, l + 1, j, t)
    decreases j - i
  {
    if NoSuccess(s, acts, i + 1, j, t) {
      l := i;
    } else {
      var m: nat :| i + 1 <= m < j && ConfirmSucceeds(StateAt(s, acts, m), acts[m], t);
      l := LastSuccess(s, acts, m, j, t);
    }
  }

  /** A second success needs the first to have been reopened. */
  lemma SecondNeedsReopening(s: State, acts: seq<Action>, i: nat, j: nat, t: string)
    requires Inv(s) && OneAtATime(s) && ValidRun(s, acts) && SequentialRun(s, acts) && i < j < |acts|
    requires ConfirmSucceeds(StateAt(s, acts, i), acts[i], t) && ConfirmSucceeds(StateAt(s, acts, j), acts[j], t)
    ensures Reopened(s, acts, i, j, t)
  {
    var l := LastSuccess(s, acts, i, j, t);
    SequentialAt(s, acts, l);
    SequentialAt(s, acts, j);
    var first := SuccessStands(StateAt(s, acts, l), acts[l], t);
    var home := SuccessStands(StateAt(s, acts, j), acts[j], t);
    SameHomeLater(s, acts, l, j, first, home, t);
    SinceSuccess(s, acts, l, j, first, t);
    var k: nat :| l < k && k < j && ReopenedAt(s, acts, k, j, t);
  }

  lemma {:induction false} MintKept(s: State, acts: seq<Action>, j: nat, k: nat, t: string)
    requires ValidRun(s, acts) && j <= k <= |acts| && t in StateAt(s, acts, j).mints
    ensures t in StateAt(s, acts, k).mints && StateAt(s, acts, k).mints[t] == StateAt(s, acts, j).mints[t]
    decreases k - j
  {
    if j < k {
      MintKept(s, acts, j, k - 1, t);
      StateAtNext(s, acts, k - 1);
    }
  }

  lemma SameHomeLater(s: State, acts: seq<Action>, j: nat, k: nat, id: string, id': string, t: string)
    requires Inv(s) && ValidRun(s, acts) && j <= k <= |acts|
    requires Holding(StateAt(s, acts, j), id, t) && Holding(StateAt(s, acts, k), id', t)
    ensures id == id'
  {
    StateAtInv(s, acts, j);
    StateAtInv(s, acts, k);
    OneHome(StateAt(s, acts, j), id, t);
    OneHome(StateAt(s, acts, k), id', t);
    MintKept(s, acts, j, k, t);
  }

  lemma SuccessLeft(s: State, acts: seq<Action>, i: nat, a: nat, e: Event, t: string)
    requires ValidRun(s, acts) && i < |acts| && LeftBy(s, acts, i, a, e) && Counts(e, t, ConfirmSuccess)
    ensures ConfirmSucceeds(StateAt(s, acts, i), acts[i], t)
  {
  }

  /** In sequential runs, deaths included, Confirm succeeds twice on a token only if in
      between a failed Redeliver of it was booked, or a Confirm whose post had been accepted
      died before booking that. */
  lemma RepeatedSuccess(cfg: Config, acts: seq<Action>, a: nat, b: nat, t: string) returns (i: nat, k: nat, j: nat)
    requires ValidRun(Init(cfg), acts) && SequentialRun(Init(cfg), acts)
    requires a < b < |Run(Init(cfg), acts).events|
    requires Counts(Run(Init(cfg), acts).events[a], t, ConfirmSuccess)
    requires Counts(Run(Init(cfg), acts).events[b], t, ConfirmSuccess)
    ensures i < k < j < |acts|
    ensures LeftBy(Init(cfg), acts, i, a, Run(Init(cfg), acts).events[a])
    ensures LeftBy(Init(cfg), acts, j, b, Run(Init(cfg), acts).events[b])
    ensures Reopens(StateAt(Init(cfg), acts, k), acts[k], t)
  {
    var s := Init(cfg);
    InvInit(cfg);
    StateAtEnd(s, acts);
    i := EntryLeftBy(s, acts, |acts|, a);
    j := EntryLeftBy(s, acts, |acts|, b);
    LeftInOrder(s, acts, i, j);
    SuccessLeft(s, acts, i, a, Run(s, acts).events[a], t);
    SuccessLeft(s, acts, j, b, Run(s, acts).events[b], t);
    SecondNeedsReopening(s, acts, i, j, t);
    k :| i < k && k < j && ReopenedAt(s, acts, k, j, t);
  }

  /** After the last success of a Confirm on a token, the record at rest is not delivered
      exactly when the token has been reopened, and not closed again by a Redeliver. */
  lemma UndeliveredExactly(cfg: Config, acts: seq<Action>, i: nat, id: string, t: string)
    requires ValidRun(Init(cfg), acts) && SequentialRun(Init(cfg), acts) && i < |acts|
    requires ConfirmSucceeds(StateAt(Init(cfg), acts, i), acts[i], t) && NoSuccess(Init(cfg), acts, i + 1, |acts|, t)
    requires Quiet(Run(Init(cfg), acts)) && Holding(Run(Init(cfg), acts), id, t)
    ensures Run(Init(cfg), acts).store[id].status != Pending
    ensures Run(Init(cfg), acts).store[id].status != Delivered <==> Reopened(Init(cfg), acts, i, |acts|, t)
  {
    var s, w := Init(cfg), Run(Init(cfg), acts);
    InvInit(cfg);
    StateAtEnd(s, acts);
    SequentialAt(s, acts, i);
    var home := SuccessStands(StateAt(s, acts, i), acts[i], t);
    SameHomeLater(s, acts, i, |acts|, home, id, t);
    SinceSuccess(s, acts, i, |acts|, id, t);
    assert !BookingSuccess(w, id) by {
      assert forall pid :: pid in w.procs ==> !Live(w.procs[pid]);
    }
  }
}
