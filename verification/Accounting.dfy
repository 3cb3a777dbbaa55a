/** Sequential runs: the stored delivery attempts against the posts made. */
module Accounting {
  import opened Protocol
  import opened Invariant
  import opened Steps
  import opened Requests
  import opened Sequential
  import opened Reopening

  /** The delivery under way of document `id` has posted, and not booked it yet. */
  ghost predicate Unbooked(s: State, id: string)
    requires id in s.store
  {
    exists pid :: pid in s.procs && Counted(s, s.procs[pid], id)
  }

  predicate Counted(s: State, p: Proc, id: string)
    requires id in s.store
  {
    p.DBook? && p.rec.id == id && p.rec.deliveryAttempts != s.store[id].deliveryAttempts
  }

  /** A process dies that has posted on token `t` and not booked it. */
  predicate LosesPost(s: State, a: Action, t: string) {
    && a.Kill? && a.pid in s.procs && Booking(s.procs[a.pid], t)
    && s.procs[a.pid].rec.id in s.store && Counted(s, s.procs[a.pid], s.procs[a.pid].rec.id)
  }

  ghost function LostPosts(s: State, acts: seq<Action>, t: string): nat
    requires ValidRun(s, acts)
    decreases |acts|
  {
    if acts == [] then 0
    else (if LosesPost(s, acts[0], t) then 1 else 0) + LostPosts(Step(s, acts[0]), acts[1..], t)
  }

  /** With `n` posts lost so far, the record accounts for all the others. */
  ghost predicate Tally(s: State, id: string, t: string, n: nat) {
    && (Unborn(s, t) ==> n == 0)
    && (Holding(s, id, t) ==>
          s.store[id].deliveryAttempts + n + (if Unbooked(s, id) then 1 else 0) == Attempts(s.events, t))
  }

  lemma {:induction false} NoEventsNoCount(events: seq<Event>, token: string, kind: Kind)
    requires forall e :: e in events ==> e.token != token
    ensures Count(events, token, kind) == 0
  {
    if events != [] {
      NoEventsNoCount(events[..|events| - 1], token, kind);
    }
  }

  lemma OnlyOneUnbooked(s: State, pid: nat, id: string)
    requires OneAtATime(s) && pid in s.procs && Live(s.procs[pid]) && id in s.store
    ensures Unbooked(s, id) <==> Counted(s, s.procs[pid], id)
  {
  }

  /** A delivery's copy counts the post it has made over those of the version it came from. */
  lemma CountFromBase(s: State, p: Proc)
    requires Delivering(p) && ProcInv(s, p)
    ensures p.rec.rev in s.written
    ensures var base := s.written[p.rec.rev].deliveryAttempts;
            && (p.DSign? || p.DStamp? ==> p.rec.deliveryAttempts == base)
            && (p.DSend? ==> p.rec.deliveryAttempts == base + 1)
            && (p.DBook? ==> p.rec.deliveryAttempts == base || p.rec.deliveryAttempts == base + 1)
  {
  }

  lemma AtMostOneMore(s: State, pid: nat)
    requires Inv(s) && OneAtATime(s) && pid in s.procs && Delivering(s.procs[pid])
    ensures var p := s.procs[pid];
            && p.rec.id in s.store && s.store[p.rec.id].token == p.rec.token
            && (p.DSign? || p.DStamp? ==> p.rec.deliveryAttempts == s.store[p.rec.id].deliveryAttempts)
            && (p.DSend? ==> p.rec.deliveryAttempts == s.store[p.rec.id].deliveryAttempts + 1)
            && (p.DBook? && Counted(s, p, p.rec.id) ==>
                  p.rec.deliveryAttempts == s.store[p.rec.id].deliveryAttempts + 1)
  {
    DeliversStored(s, pid);
    CountFromBase(s, s.procs[pid]);
  }

  lemma ArrivalTally(s: State, a: Action, id: string, t: string, n: nat)
    requires InTurn(s, a) && a.Start? && Tally(s, id, t, n)
    ensures Tally(Step(s, a), id, t, n)
  {
    var s' := Step(s, a);
    assert forall pid :: pid in s.procs ==> s'.procs[pid] == s.procs[pid];
  }

  lemma DeathInBooking(s: State, pid: nat, id: string, t: string)
    requires Inv(s) && OneAtATime(s) && pid in s.procs && s.procs[pid].DBook? && Holding(s, id, t)
    ensures LosesPost(s, Kill(pid), t) <==> Counted(s, s.procs[pid], id)
  {
    AtMostOneMore(s, pid);
    SameHome(s, pid, id, t);
  }

  lemma LostWasPosted(s: State, a: Action, t: string)
    requires Inv(s) && LosesPost(s, a, t)
    ensures !Unborn(s, t)
  {
    assert ProcInv(s, s.procs[a.pid]);
    assert Accepted(t) in s.events;
  }

  lemma DeathTally(s: State, a: Action, id: string, t: string, n: nat)
    requires Inv(s) && OneAtATime(s) && InTurn(s, a) && a.Kill? && Tally(s, id, t, n)
    ensures Tally(Step(s, a), id, t, n + if LosesPost(s, a, t) then 1 else 0)
  {
    if LosesPost(s, a, t) {
      LostWasPosted(s, a, t);
    }
    if Holding(s, id, t) {
      NoneUnbookedAfter(s, a.pid, id);
      if s.procs[a.pid].DBook? {
        DeathInBooking(s, a.pid, id, t);
      }
    }
  }

  lemma NoneUnbookedAfter(s: State, pid: nat, id: string)
    requires OneAtATime(s) && Enabled(s, Kill(pid)) && id in s.store
    ensures Unbooked(s, id) <==> Counted(s, s.procs[pid], id)
    ensures !Unbooked(Step(s, Kill(pid)), id)
  {
    OnlyOneUnbooked(s, pid, id);
  }

  /** The log after a step: one more post of the token, or none. */
  lemma PostsAfter(s: State, a: Action, t: string)
    requires Enabled(s, a) && a.Move?
    ensures var p := s.procs[a.pid];
            Attempts(Step(s, a).events, t)
            == Attempts(s.events, t) + (if p.DSend? && p.rec.token == t then 1 else 0)
  {
    var e := TurnOf(s, s.procs[a.pid], a.choice).event;
    if e.Some? {
      CountAppend(s.events, e.value, t, Post);
    }
  }

  lemma UnbookedNext(s: State, a: Action, id: string)
    requires OneAtATime(s) && Enabled(s, a) && a.Move? && id in s.store
    requires var w := TurnOf(s, s.procs[a.pid], a.choice).write; w.None? || w.value.rec.id != id
    ensures Unbooked(Step(s, a), id) <==> Counted(s, TurnOf(s, s.procs[a.pid], a.choice).next, id)
  {
    var next, s' := TurnOf(s, s.procs[a.pid], a.choice).next, Step(s, a);
    assert s'.procs == s.procs[a.pid := next] && s'.store[id] == s.store[id];
    assert s'.procs[a.pid] == next;
  }

  /** A booking elsewhere is none on the document. */
  lemma CountedElsewhere(s: State, pid: nat, c: Choice, id: string)
    requires Inv(s) && OneAtATime(s) && Enabled(s, Move(pid, c)) && id in s.store
    requires var w := TurnOf(s, s.procs[pid], c).write; w.None? || w.value.rec.id != id
    ensures !Counted(s, s.procs[pid], id)
  {
    if s.procs[pid].DBook? {
      OutcomeIsStored(s, pid, c);
    }
  }

  /** What a step that leads to a booking does to the copy's count. */
  lemma CountKept(s: State, p: Proc, c: Choice)
    requires Live(p) && TurnOf(s, p, c).next.DBook?
    ensures var r := TurnOf(s, p, c).next.rec;
            (p.DSend? || p.DSign?) && r.id == p.rec.id && r.deliveryAttempts == p.rec.deliveryAttempts
  {
  }

  /** The process is about to book a post on the document exactly when it makes it now. */
  lemma NextCounts(s: State, pid: nat, c: Choice, id: string, t: string)
    requires Inv(s) && OneAtATime(s) && Enabled(s, Move(pid, c)) && Holding(s, id, t)
    ensures Counted(s, TurnOf(s, s.procs[pid], c).next, id) <==> s.procs[pid].DSend? && s.procs[pid].rec.token == t
  {
    var p := s.procs[pid];
    if TurnOf(s, p, c).next.DBook? {
      CountKept(s, p, c);
    }
    if p.DSign? || p.DSend? {
      AtMostOneMore(s, pid);
      SameHome(s, pid, id, t);
      assert p.DSend? ==> TurnOf(s, p, c).next.DBook?;
    }
  }

  /** A step that does not write the document. */
  lemma ElsewhereTally(s: State, a: Action, id: string, t: string, n: nat)
    requires Inv(s) && OneAtATime(s) && InTurn(s, a) && a.Move? && Tally(s, id, t, n) && Holding(s, id, t)
    requires var w := TurnOf(s, s.procs[a.pid], a.choice).write; w.None? || w.value.rec.id != id
    ensures Tally(Step(s, a), id, t, n)
  {
    assert a == Move(a.pid, a.choice);
    PostsAfter(s, a, t);
    OnlyOneUnbooked(s, a.pid, id);
    UnbookedNext(s, a, id);
    CountedElsewhere(s, a.pid, a.choice, id);
    NextCounts(s, a.pid, a.choice, id, t);
    StoredWasBorn(s, id, t);
    BornStays(s, a, t);
  }

  lemma StoredWasBorn(s: State, id: string, t: string)
    requires Inv(s) && Holding(s, id, t)
    ensures !Unborn(s, t)
  {
    assert Copy(s, s.store[id]);
  }

  /** What a step that writes the document makes of its count: a new token starts over, and
      an outcome adds the post, if the delivery made one. */
  lemma OutcomeCount(s: State, pid: nat, c: Choice)
    requires Inv(s) && OneAtATime(s) && Enabled(s, Move(pid, c)) && s.procs[pid].DBook?
    ensures var p, w := s.procs[pid], TurnOf(s, s.procs[pid], c).write;
            && w.Some? && w.value.rec.id == p.rec.id && w.value.rec.token == p.rec.token
            && Holding(s, p.rec.id, p.rec.token)
            && w.value.rec.deliveryAttempts
               == s.store[p.rec.id].deliveryAttempts + (if Counted(s, p, p.rec.id) then 1 else 0)
  {
    OutcomeIsStored(s, pid, c);
    AtMostOneMore(s, pid);
  }

  lemma OtherCount(s: State, pid: nat, c: Choice)
    requires Inv(s) && Enabled(s, Move(pid, c)) && TurnOf(s, s.procs[pid], c).write.Some?
    requires s.procs[pid].RBook? || s.procs[pid].CPut?
    ensures var r := TurnOf(s, s.procs[pid], c).write.value.rec;
            Holding(s, r.id, r.token) && r.deliveryAttempts == s.store[r.id].deliveryAttempts
  {
    assert ProcInv(s, s.procs[pid]);
    PutBuildsOnBase(s, s.procs[pid].rec);
  }

  lemma UpsertCount(s: State, pid: nat, c: Choice)
    requires Inv(s) && Enabled(s, Move(pid, c)) && TurnOf(s, s.procs[pid], c).write.Some? && s.procs[pid].RPut?
    ensures var r := TurnOf(s, s.procs[pid], c).write.value.rec;
            Unborn(s, r.token) && r.deliveryAttempts == 0
  {
    assert ProcInv(s, s.procs[pid]);
    assert Unborn(s, s.procs[pid].rec.token);
  }

  lemma WrittenCount(s: State, pid: nat, c: Choice, id: string, t: string)
    requires Inv(s) && OneAtATime(s) && Enabled(s, Move(pid, c))
    requires var w := TurnOf(s, s.procs[pid], c).write; w.Some? && w.value.rec.id == id && w.value.rec.token == t
    ensures var r, p := TurnOf(s, s.procs[pid], c).write.value.rec, s.procs[pid];
            && (p.RPut? ==> Unborn(s, t) && r.deliveryAttempts == 0)
            && (!p.RPut? ==>
                  && Holding(s, id, t)
                  && r.deliveryAttempts == s.store[id].deliveryAttempts + (if Counted(s, p, id) then 1 else 0))
  {
    if s.procs[pid].DBook? {
      OutcomeCount(s, pid, c);
    } else if s.procs[pid].RPut? {
      UpsertCount(s, pid, c);
    } else {
      OtherCount(s, pid, c);
    }
  }

  lemma WriteTally(s: State, a: Action, id: string, t: string, n: nat)
    requires Inv(s) && OneAtATime(s) && InTurn(s, a) && a.Move? && Tally(s, id, t, n)
    requires var w := TurnOf(s, s.procs[a.pid], a.choice).write;
             w.Some? && w.value.rec.id == id && w.value.rec.token == t
    ensures Tally(Step(s, a), id, t, n)
  {
    assert a == Move(a.pid, a.choice);
    PostsAfter(s, a, t);
    AfterWriteCounts(s, a, id);
    StepKeepsInv(s, a);
    StoredWasBorn(Step(s, a), id, t);
    WrittenCount(s, a.pid, a.choice, id, t);
    if s.procs[a.pid].RPut? {
      NoEventsNoCount(s.events, t, Post);
    } else {
      OnlyOneUnbooked(s, a.pid, id);
    }
  }

  lemma AfterWriteCounts(s: State, a: Action, id: string)
    requires OneAtATime(s) && Enabled(s, a) && a.Move?
    requires var w := TurnOf(s, s.procs[a.pid], a.choice).write; w.Some? && w.value.rec.id == id
    ensures id in Step(s, a).store && Step(s, a).store[id] == TurnOf(s, s.procs[a.pid], a.choice).write.value.rec
    ensures !Unbooked(Step(s, a), id) && !s.procs[a.pid].DSend?
  {
    assert !TurnOf(s, s.procs[a.pid], a.choice).next.DBook?;
  }

  lemma MoveTally(s: State, a: Action, id: string, t: string, n: nat)
    requires Inv(s) && OneAtATime(s) && InTurn(s, a) && a.Move? && Tally(s, id, t, n)
    ensures Tally(Step(s, a), id, t, n)
  {
    var w := TurnOf(s, s.procs[a.pid], a.choice).write;
    if w.Some? && w.value.rec.id == id {
      if w.value.rec.token == t {
        WriteTally(s, a, id, t, n);
      }
    } else if Holding(s, id, t) {
      ElsewhereTally(s, a, id, t, n);
    }
    if !Unborn(s, t) {
      BornStays(s, a, t);
    }
  }

  lemma {:induction false} RunTally(s: State, acts: seq<Action>, id: string, t: string, n: nat)
    requires Inv(s) && OneAtATime(s) && ValidRun(s, acts) && SequentialRun(s, acts) && Tally(s, id, t, n)
    ensures Tally(Run(s, acts), id, t, n + LostPosts(s, acts, t))
    decreases |acts|
  {
    if acts != [] {
      StepKeepsInv(s, acts[0]);
      StepKeepsOneAtATime(s, acts[0]);
      match acts[0] {
        case Start(_, _) => ArrivalTally(s, acts[0], id, t, n);
        case Kill(_) => DeathTally(s, acts[0], id, t, n);
        case Move(_, _) => MoveTally(s, acts[0], id, t, n);
      }
      RunTally(Step(s, acts[0]), acts[1..], id, t, n + if LosesPost(s, acts[0], t) then 1 else 0);
    }
  }

  /** In sequential runs the attempts in a record at rest are the posts made for its token,
      less those of processes that died before they had booked them; so they are exactly the
      posts made exactly when there was no such death. */
  lemma SequentialAccounting(cfg: Config, acts: seq<Action>, id: string, t: string)
    requires ValidRun(Init(cfg), acts) && SequentialRun(Init(cfg), acts)
    requires Quiet(Run(Init(cfg), acts)) && Holding(Run(Init(cfg), acts), id, t)
    ensures Run(Init(cfg), acts).store[id].deliveryAttempts + LostPosts(Init(cfg), acts, t)
            == Attempts(Run(Init(cfg), acts).events, t)
  {
    InvInit(cfg);
    RunTally(Init(cfg), acts, id, t, 0);
    var s := Run(Init(cfg), acts);
    assert forall pid :: pid in s.procs ==> !Live(s.procs[pid]);
  }
}
