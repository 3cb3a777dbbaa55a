/** Concrete runs, for any envelope Receive admits, on which tempting claims fail. */
module Exhibits {
  import opened Envelopes
  import opened Records
  import opened MemoryStore
  import opened Protocol
  import opened Invariant
  import opened Steps
  import opened Attestation
  import opened Sequential

  lemma {:induction false} RunAppend(s: State, acts: seq<Action>, a: Action)
    requires ValidRun(s, acts) && Enabled(Run(s, acts), a)
    ensures ValidRun(s, acts + [a]) && Run(s, acts + [a]) == Step(Run(s, acts), a)
    decreases |acts|
  {
    if acts != [] {
      assert (acts + [a])[1..] == acts[1..] + [a];
      RunAppend(Step(s, acts[0]), acts[1..], a);
    }
  }

  /** Steps keep `P`; with `alone`, those of sequential runs. */
  ghost predicate StepClosed(P: State -> bool, alone: bool) {
    forall s, a {:trigger P(Step(s, a))} ::
      Enabled(s, a) && (alone && a.Start? ==> Quiet(s)) && P(s) ==> P(Step(s, a))
  }

  /** Reachability again, by any run or by a sequential one, as the least property that holds
      at first and that steps keep; it is the lighter form to carry along a concrete run. */
  ghost predicate Visited(cfg: Config, s: State, alone: bool) {
    forall P: State -> bool :: StepClosed(P, alone) && P(Init(cfg)) ==> P(s)
  }

  lemma VisitedStep(cfg: Config, s: State, alone: bool, a: Action)
    requires Visited(cfg, s, alone) && Enabled(s, a) && (alone && a.Start? ==> Quiet(s))
    ensures Visited(cfg, Step(s, a), alone)
  {
    forall P: State -> bool | StepClosed(P, alone) && P(Init(cfg)) ensures P(Step(s, a)) {
      assert P(s);
    }
  }

  lemma VisitedAloneOrNot(cfg: Config, s: State)
    requires Visited(cfg, s, true)
    ensures Visited(cfg, s, false)
  {
    forall P: State -> bool | StepClosed(P, false) && P(Init(cfg)) ensures P(s) {
      assert StepClosed(P, true);
    }
  }

  lemma VisitedReachable(cfg: Config, s: State)
    requires Visited(cfg, s, false)
    ensures Reachable(s)
  {
    var P: State -> bool := x => Reachable(x);
    assert ValidRun(Init(cfg), []) && Run(Init(cfg), []) == Init(cfg);
    forall x, a | Enabled(x, a) && P(x) ensures P(Step(x, a)) {
      var at, acts :| ValidRun(Init(at), acts) && x == Run(Init(at), acts);
      RunAppend(Init(at), acts, a);
    }
    assert StepClosed(P, false) && P(Init(cfg));
  }

  /** A sequential run leads to the state. */
  ghost predicate ReachedAlone(cfg: Config, s: State) {
    exists acts :: ValidRun(Init(cfg), acts) && SequentialRun(Init(cfg), acts) && s == Run(Init(cfg), acts)
  }

  lemma {:induction false} SequentialAppend(s: State, acts: seq<Action>, a: Action)
    requires ValidRun(s, acts) && SequentialRun(s, acts)
    requires Enabled(Run(s, acts), a) && (a.Start? ==> Quiet(Run(s, acts)))
    ensures ValidRun(s, acts + [a]) && SequentialRun(s, acts + [a])
    decreases |acts|
  {
    RunAppend(s, acts, a);
    if acts != [] {
      assert (acts + [a])[1..] == acts[1..] + [a];
      SequentialAppend(Step(s, acts[0]), acts[1..], a);
    }
  }

  lemma VisitedAlone(cfg: Config, s: State)
    requires Visited(cfg, s, true)
    ensures ReachedAlone(cfg, s)
  {
    var P: State -> bool := x => ReachedAlone(cfg, x);
    assert ValidRun(Init(cfg), []) && SequentialRun(Init(cfg), []) && Run(Init(cfg), []) == Init(cfg);
    forall x, a | Enabled(x, a) && (a.Start? ==> Quiet(x)) && P(x) ensures P(Step(x, a)) {
      var acts :| ValidRun(Init(cfg), acts) && SequentialRun(Init(cfg), acts) && x == Run(Init(cfg), acts);
      SequentialAppend(Init(cfg), acts, a);
      RunAppend(Init(cfg), acts, a);
    }
    assert StepClosed(P, true) && P(Init(cfg));
  }

  /** Everything happens at time 1. */
  function Answer(novel: string, ok: bool, v: Verdicts): Choice {
    Choice(1, novel, ok, false, "error", v)
  }

  /** The strings newToken and newRev return, one longer than the other. */
  function Name(n: nat): (name: string)
    ensures |name| == n + 1
  {
    seq(n + 1, _ => 'x')
  }

  /** One stored document; the names up to `n` may have been used. */
  ghost predicate At(s: State, r: Rec, n: nat) {
    && s.store == map[r.id := r] && s.clock <= 1
    && (forall x :: x in s.mints || x in s.written ==> |x| <= n)
  }

  /** The turn of process `pid` when the environment answers with `ok` and the next name. */
  ghost function Next(s: State, pid: nat, n: nat, ok: bool, v: Verdicts): Turn
    requires pid in s.procs && Live(s.procs[pid])
  {
    TurnOf(s, s.procs[pid], Answer(Name(n), ok, v))
  }

  /** One more step of the run, told by its turn. */
  lemma Go(cfg: Config, alone: bool, s: State, pid: nat, n: nat, ok: bool, v: Verdicts, r: Rec) returns (s': State)
    requires Visited(cfg, s, alone) && At(s, r, n) && pid in s.procs && Live(s.procs[pid]) && !s.procs[pid].RGate?
    requires var t := Next(s, pid, n, ok, v);
             t.mint.None? && (t.write.Some? ==> t.write.value.rec.id == r.id && t.write.value.rec.rev == Name(n))
    ensures Visited(cfg, s', alone)
    ensures var t := Next(s, pid, n, ok, v);
            && At(s', if t.write.Some? then t.write.value.rec else r, n + 1)
            && s'.procs == s.procs[pid := t.next]
            && s'.events == (if t.event.Some? then s.events + [t.event.value] else s.events)
  {
    var a := Move(pid, Answer(Name(n), ok, v));
    VisitedStep(cfg, s, alone, a);
    s' := Step(s, a);
  }

  lemma Arrives(cfg: Config, alone: bool, s: State, pid: nat, p: Proc, r: Rec, n: nat) returns (s': State)
    requires Visited(cfg, s, alone) && At(s, r, n) && pid !in s.procs && Request(p) && (alone ==> Quiet(s))
    ensures Visited(cfg, s', alone) && At(s', r, n) && s'.procs == s.procs[pid := p] && s'.events == s.events
  {
    VisitedStep(cfg, s, alone, Start(pid, p));
    s' := Step(s, Start(pid, p));
  }

  lemma LookupOnly(s: State, r: Rec, now: Time)
    requires s.store == map[r.id := r] && r.token != "" && !TokenExpired(r, now)
    ensures ByToken(s.store, r.token, now) == Found(r)
  {
    LookupUnique(s.store, r.id);
  }

  predicate Admissible(cfg: Config, env: Env, v: Verdicts, subject: Address, email: string) {
    && Gates(cfg.identity, env, v) == Admitted(subject, email) && env.head.Some? && subject != ""
  }

  function Received(subject: Address, email: string, env: Env): Rec {
    Minted(subject, email, env, Name(0), 1).(rev := Name(2))
  }

  /** A Receive up to its first write. */
  lemma MintAndGet(cfg: Config, env: Env, v: Verdicts, subject: Address, email: string) returns (s: State)
    requires Admissible(cfg, env, v, subject, email)
    ensures Visited(cfg, s, true) && s.store == map[] && s.clock <= 1
    ensures s.procs == map[0 := RPut(Minted(subject, email, env, Name(0), 1))]
    ensures s.mints.Keys == {Name(0)} && s.written == map[] && s.events == []
  {
    var s1 := Step(Init(cfg), Start(0, RGate(env)));
    VisitedStep(cfg, Init(cfg), true, Start(0, RGate(env)));
    var s2 := Step(s1, Move(0, Answer(Name(0), true, v)));
    VisitedStep(cfg, s1, true, Move(0, Answer(Name(0), true, v)));
    s := Step(s2, Move(0, Answer(Name(1), true, v)));
    VisitedStep(cfg, s2, true, Move(0, Answer(Name(1), true, v)));
  }

  lemma FirstWrite(cfg: Config, s0: State, v: Verdicts, r: Rec) returns (s: State)
    requires Visited(cfg, s0, true) && s0.store == map[] && s0.clock <= 1
    requires s0.procs.Keys == {0} && s0.procs[0] == RPut(r)
    requires s0.mints.Keys == {Name(0)} && s0.written == map[] && s0.events == [] && Invalidity(r).None? && r.rev == ""
    ensures Visited(cfg, s, true) && At(s, r.(rev := Name(2)), 3)
    ensures s.procs.Keys == {0} && s.procs[0] == RClock(r.(rev := Name(2))) && s.events == []
  {
    VisitedStep(cfg, s0, true, Move(0, Answer(Name(2), true, v)));
    s := Step(s0, Move(0, Answer(Name(2), true, v)));
  }

  lemma FirstStored(cfg: Config, env: Env, v: Verdicts, subject: Address, email: string) returns (s: State)
    requires Admissible(cfg, env, v, subject, email)
    ensures Visited(cfg, s, true) && At(s, Received(subject, email, env), 3) && s.events == []
    ensures s.procs.Keys == {0} && s.procs[0] == RClock(Received(subject, email, env))
  {
    var m := Minted(subject, email, env, Name(0), 1);
    var s1 := MintAndGet(cfg, env, v, subject, email);
    s := FirstWrite(cfg, s1, v, m);
  }

  /** The email is sent. */
  lemma MailsOut(cfg: Config, s0: State, v: Verdicts, r: Rec) returns (s: State)
    requires Visited(cfg, s0, true) && At(s0, r, 3) && s0.procs.Keys == {0} && s0.procs[0] == RClock(r)
    ensures Visited(cfg, s, true) && At(s, r, 5) && s.events == s0.events + [Mailed(r.token, r.email, true)]
    ensures s.procs.Keys == {0} && s.procs[0] == RBook(MailSent(r, 1), true)
  {
    s := Go(cfg, true, s0, 0, 3, true, v, r);
    s := Go(cfg, true, s, 0, 4, true, v, r);
  }

  /** A Receive up to the point where its email is out and its bookkeeping write is next. */
  lemma EmailOut(cfg: Config, env: Env, v: Verdicts, subject: Address, email: string) returns (s: State)
    requires Admissible(cfg, env, v, subject, email)
    ensures Visited(cfg, s, true) && At(s, Received(subject, email, env), 5)
    ensures s.procs.Keys == {0} && s.procs[0] == RBook(MailSent(Received(subject, email, env), 1), true)
    ensures s.events == [Mailed(Name(0), email, true)]
  {
    var s1 := FirstStored(cfg, env, v, subject, email);
    s := MailsOut(cfg, s1, v, Received(subject, email, env));
  }

  /** The link is opened and the form posted at once. */
  lemma PostedAtOnce(cfg: Config, s0: State, v: Verdicts, r: Rec) returns (s: State)
    requires Visited(cfg, s0, false) && At(s0, r, 5) && s0.procs.Keys == {0}
    requires r.token != "" && !TokenExpired(r, 1) && r.status == Pending
    ensures Visited(cfg, s, false) && At(s, r, 6)
    ensures s.procs.Keys == {0, 1} && s.procs[0] == s0.procs[0] && s.procs[1] == CLookup(r.token)
  {
    s := Arrives(cfg, false, s0, 1, HGate(r.token, true), r, 5);
    LookupOnly(s, r, 1);
    s := Go(cfg, false, s, 1, 5, true, v, r);
  }

  /** Confirm up to its own write. */
  lemma ConfirmBegins(cfg: Config, alone: bool, s0: State, n: nat, v: Verdicts, r: Rec) returns (s: State)
    requires Visited(cfg, s0, alone) && At(s0, r, n) && 1 in s0.procs && s0.procs[1] == CLookup(r.token)
    requires r.token != "" && !TokenExpired(r, 1) && r.status == Pending && r.confirmedAt.None?
    ensures Visited(cfg, s, alone) && At(s, r, n + 2) && s.events == s0.events
    ensures s.procs == s0.procs[1 := CPut(Attested(r, 1), 1)]
  {
    LookupOnly(s0, r, 1);
    var s1 := Go(cfg, alone, s0, 1, n, true, v, r);
    s := Go(cfg, alone, s1, 1, n + 1, true, v, r);
  }

  /** Receive's bookkeeping write wins... */
  lemma BookkeepingWins(cfg: Config, s0: State, v: Verdicts, r: Rec) returns (s: State)
    requires Visited(cfg, s0, false) && At(s0, r, 8) && s0.procs.Keys == {0, 1}
    requires s0.procs[0] == RBook(MailSent(r, 1), true) && Invalidity(r).None?
    ensures Visited(cfg, s, false) && At(s, MailSent(r, 1).(rev := Name(8)), 9)
    ensures s.procs.Keys == {0, 1} && s.procs[1] == s0.procs[1]
  {
    s := Go(cfg, false, s0, 0, 8, true, v, r);
  }

  /** ...and Confirm loses its own... */
  lemma ConfirmLoses(cfg: Config, s0: State, v: Verdicts, r: Rec, b: Rec) returns (s: State)
    requires Visited(cfg, s0, false) && At(s0, b, 9) && s0.procs.Keys == {0, 1}
    requires s0.procs[1] == CPut(r, 1) && Invalidity(r).None? && r.id == b.id && r.token == b.token && r.rev != b.rev
    ensures Visited(cfg, s, false) && At(s, b, 10) && s.procs.Keys == {0, 1} && s.procs[1] == CReread(b.token)
  {
    s := Go(cfg, false, s0, 1, 9, true, v, b);
  }

  /** ...re-reads, and turns to delivery. */
  lemma ConfirmRereads(cfg: Config, s0: State, v: Verdicts, b: Rec) returns (s: State)
    requires Visited(cfg, s0, false) && At(s0, b, 10) && s0.procs.Keys == {0, 1} && s0.procs[1] == CReread(b.token)
    requires b.token != "" && !TokenExpired(b, 1) && b.status == Pending
    ensures Visited(cfg, s, false) && At(s, b, 11)
    ensures s.procs.Keys == {0, 1} && s.procs[1] == DSign(b, ByConfirm(1, true))
  {
    LookupOnly(s0, b, 1);
    s := Go(cfg, false, s0, 1, 10, true, v, b);
  }

  /** One more entry in the log, of a post of the token. */
  predicate OnePost(before: seq<Event>, after: seq<Event>, token: string, who: Caller, sent: bool) {
    && |after| == |before| + 1 && before <= after
    && var e := after[|before|]; e.Posted? && e.token == token && e.who == who && e.ok == sent
  }

  /** Delivery with the given answer of the authority, up to the outcome write. */
  lemma Posts(cfg: Config, alone: bool, s0: State, pid: nat, n: nat, v: Verdicts, b: Rec, who: Caller, sent: bool)
    returns (s: State)
    requires Visited(cfg, s0, alone) && At(s0, b, n) && pid in s0.procs && s0.procs[pid] == DSign(b, who)
    requires b.envelope.Some? && b.envelope.value.head.Some?
    ensures Visited(cfg, s, alone) && At(s, b, n + 3) && OnePost(s0.events, s.events, b.token, who, sent)
    ensures s.procs
            == s0.procs[pid := DBook(if sent then Sent(Stamped(b, 1)) else Unsent(Stamped(b, 1), "error"), who, sent)]
  {
    var s1 := Prepares(cfg, alone, s0, pid, n, v, b, who);
    s := Go(cfg, alone, s1, pid, n + 2, sent, v, b);
  }

  /** Delivery up to the post. */
  lemma Prepares(cfg: Config, alone: bool, s0: State, pid: nat, n: nat, v: Verdicts, b: Rec, who: Caller)
    returns (s: State)
    requires Visited(cfg, s0, alone) && At(s0, b, n) && pid in s0.procs && s0.procs[pid] == DSign(b, who)
    requires b.envelope.Some? && b.envelope.value.head.Some?
    ensures Visited(cfg, s, alone) && At(s, b, n + 2) && s.events == s0.events
    ensures pid in s.procs && s.procs == s0.procs[pid := s.procs[pid]]
    ensures s.procs[pid].DSend? && s.procs[pid].rec == Stamped(b, 1) && s.procs[pid].who == who
  {
    s := Go(cfg, alone, s0, pid, n, true, v, b);
    s := Go(cfg, alone, s, pid, n + 1, true, v, b);
  }

  /** Up to the two writes that compete. */
  lemma UpToConflict(cfg: Config, env: Env, v: Verdicts, subject: Address, email: string) returns (s: State)
    requires Admissible(cfg, env, v, subject, email)
    ensures var r := Received(subject, email, env);
            && Visited(cfg, s, false) && At(s, r, 8) && s.procs.Keys == {0, 1}
            && s.procs[0] == RBook(MailSent(r, 1), true) && s.procs[1] == CPut(Attested(r, 1), 1)
  {
    var r := Received(subject, email, env);
    var s1 := EmailOut(cfg, env, v, subject, email);
    VisitedAloneOrNot(cfg, s1);
    var s2 := PostedAtOnce(cfg, s1, v, r);
    s := ConfirmBegins(cfg, false, s2, 6, v, r);
  }

  lemma UpToDelivery(cfg: Config, env: Env, v: Verdicts, subject: Address, email: string) returns (s: State, b: Rec)
    requires Admissible(cfg, env, v, subject, email)
    ensures b == MailSent(Received(subject, email, env), 1).(rev := Name(8))
    ensures Visited(cfg, s, false) && At(s, b, 11)
    ensures s.procs.Keys == {0, 1} && s.procs[1] == DSign(b, ByConfirm(1, true))
  {
    var r := Received(subject, email, env);
    b := MailSent(r, 1).(rev := Name(8));
    var s1 := UpToConflict(cfg, env, v, subject, email);
    var s2 := BookkeepingWins(cfg, s1, v, r);
    var s3 := ConfirmLoses(cfg, s2, v, Attested(r, 1), b);
    s := ConfirmRereads(cfg, s3, v, b);
  }

  /** The outcome write, which stores the unconfirmed record past pending. */
  lemma BooksOutcome(cfg: Config, s0: State, v: Verdicts, d: Rec, b: Rec, sent: bool) returns (s: State, r: Rec)
    requires Visited(cfg, s0, false) && At(s0, b, 14) && s0.procs.Keys == {0, 1}
    requires s0.procs[1] == DBook(d, ByConfirm(1, true), sent) && Invalidity(d).None? && d.id == b.id && d.rev == b.rev
    ensures Visited(cfg, s, false) && At(s, r, 15) && s.procs.Keys == {0, 1} && r == d.(rev := Name(14))
    ensures s.procs[1] == Done(DeliveryResult(r, ByConfirm(1, true), sent))
  {
    s := Go(cfg, false, s0, 1, 14, true, v, b);
    r := d.(rev := Name(14));
  }

  lemma StoredUnconfirmed(cfg: Config, s: State, id: string)
    requires Visited(cfg, s, false) && id in s.store && !Intended(s.store[id])
    ensures Reachable(s) && !AllIntended(s) && Accepted(s.store[id].token) in s.events
  {
    VisitedReachable(cfg, s);
    ReachableInv(s);
    assert Copy(s, s.store[id]);
    assert RecInv(s, s.written[s.store[id].rev]);
  }

  /** Up to the outcome write. */
  lemma UpToOutcome(cfg: Config, env: Env, v: Verdicts, subject: Address, email: string, sent: bool)
    returns (s: State, b: Rec, d: Rec)
    requires Admissible(cfg, env, v, subject, email)
    ensures d == (if sent then Sent(Stamped(b, 1)) else Unsent(Stamped(b, 1), "error"))
    ensures b.id == DocID(subject) && b.confirmedAt.None? && Invalidity(d).None?
    ensures Visited(cfg, s, false) && At(s, b, 14) && s.procs.Keys == {0, 1}
    ensures s.procs[1] == DBook(d, ByConfirm(1, true), sent)
  {
    var s1;
    s1, b := UpToDelivery(cfg, env, v, subject, email);
    d := if sent then Sent(Stamped(b, 1)) else Unsent(Stamped(b, 1), "error");
    assert Invalidity(d) == Invalidity(b);
    s := Posts(cfg, false, s1, 1, 11, v, b, ByConfirm(1, true), sent);
  }

  /** For every envelope Receive admits there is a run in which the declaration is made, the
      record ends delivered (or failed, if the authority refuses), and no confirmation
      time is ever recorded: the write Confirm lost was to Receive's own bookkeeping. */
  lemma HazardRun(cfg: Config, env: Env, v: Verdicts, subject: Address, email: string, sent: bool)
    returns (s: State, r: Rec)
    requires Admissible(cfg, env, v, subject, email)
    ensures Reachable(s) && !AllIntended(s) && Accepted(r.token) in s.events
    ensures r.id == DocID(subject) && r.confirmedAt.None? && r.status == (if sent then Delivered else Failed)
    ensures Visited(cfg, s, false) && At(s, r, 15) && s.procs.Keys == {0, 1}
    ensures s.procs[1] == Done(if sent then ConfirmOk(r) else Errored(ErrUnavailable))
  {
    var s1, b, d := UpToOutcome(cfg, env, v, subject, email, sent);
    s, r := BooksOutcome(cfg, s1, v, d, b, sent);
    StoredUnconfirmed(cfg, s, r.id);
  }

  /** In that run the page has said that the confirmation is saved, and yet the operator's
      Redeliver answers that there is none. */
  lemma SavedConfirmationIsRefused(cfg: Config, env: Env, v: Verdicts, subject: Address, email: string)
    returns (s: State)
    requires Admissible(cfg, env, v, subject, email)
    ensures Reachable(s) && 1 in s.procs && s.procs[1] == Done(Errored(ErrUnavailable))
    ensures 2 in s.procs && s.procs[2] == Done(Errored(ErrValidation))
  {
    var s1, r := HazardRun(cfg, env, v, subject, email, false);
    s := Arrives(cfg, false, s1, 2, XGet(subject), r, 15);
    s := Go(cfg, false, s, 2, 15, true, v, r);
    VisitedReachable(cfg, s);
  }

  // ----- A death makes Confirm post twice -----

  /** A Receive from beginning to end. */
  lemma Registered(cfg: Config, env: Env, v: Verdicts, subject: Address, email: string) returns (s: State, b: Rec)
    requires Admissible(cfg, env, v, subject, email)
    ensures b == MailSent(Received(subject, email, env), 1).(rev := Name(5))
    ensures Visited(cfg, s, true) && At(s, b, 6) && s.procs == map[0 := Done(ReceiveOk(b))]
    ensures s.events == [Mailed(Name(0), email, true)]
  {
    var r := Received(subject, email, env);
    b := MailSent(r, 1).(rev := Name(5));
    s := EmailOut(cfg, env, v, subject, email);
    s := Go(cfg, true, s, 0, 5, true, v, r);
    assert s.procs == map[0 := Done(ReceiveOk(b))];
  }

  /** Nothing runs. */
  predicate Idle(procs: map<nat, Proc>) {
    forall pid :: pid in procs ==> !Live(procs[pid])
  }

  /** The form is posted, with the box ticked if the record is pending. */
  lemma OpensLink(cfg: Config, s0: State, pid: nat, n: nat, v: Verdicts, r: Rec) returns (s: State)
    requires Visited(cfg, s0, true) && At(s0, r, n) && Idle(s0.procs) && pid !in s0.procs
    requires r.token != "" && !TokenExpired(r, 1)
    ensures Visited(cfg, s, true) && At(s, r, n + 1) && s.procs == s0.procs[pid := CLookup(r.token)]
    ensures s.events == if r.status == Pending then s0.events + [Accepted(r.token)] else s0.events
  {
    s := Arrives(cfg, true, s0, pid, HGate(r.token, r.status == Pending), r, n);
    LookupOnly(s, r, 1);
    s := Go(cfg, true, s, pid, n, true, v, r);
    assert s.procs == s0.procs[pid := CLookup(r.token)];
  }

  /** Confirm's own write wins. */
  lemma ConfirmStores(cfg: Config, s0: State, v: Verdicts, b: Rec, c: Rec) returns (s: State)
    requires Visited(cfg, s0, true) && At(s0, b, 9) && 1 in s0.procs && s0.procs[1] == CPut(Attested(b, 1), 1)
    requires Invalidity(b).None? && c == Attested(b, 1).(rev := Name(9))
    ensures Visited(cfg, s, true) && At(s, c, 10) && s.events == s0.events
    ensures s.procs == s0.procs[1 := DSign(c, ByConfirm(1, false))]
  {
    assert Invalidity(Attested(b, 1)).None?;
    s := Go(cfg, true, s0, 1, 9, true, v, b);
  }

  /** A Confirm of the pending record, up to its delivery. */
  lemma Confirms(cfg: Config, s0: State, v: Verdicts, b: Rec) returns (s: State, c: Rec)
    requires Visited(cfg, s0, true) && At(s0, b, 6) && Idle(s0.procs) && 1 !in s0.procs
    requires b.token != "" && !TokenExpired(b, 1) && b.status == Pending && b.confirmedAt.None? && Invalidity(b).None?
    ensures c == Attested(b, 1).(rev := Name(9)) && Visited(cfg, s, true) && At(s, c, 10)
    ensures s.procs == s0.procs[1 := DSign(c, ByConfirm(1, false))] && s.events == s0.events + [Accepted(b.token)]
  {
    c := Attested(b, 1).(rev := Name(9));
    var s1 := OpensAndBegins(cfg, s0, v, b);
    s := ConfirmStores(cfg, s1, v, b, c);
    assert s.procs == s0.procs[1 := DSign(c, ByConfirm(1, false))];
  }

  lemma OpensAndBegins(cfg: Config, s0: State, v: Verdicts, b: Rec) returns (s: State)
    requires Visited(cfg, s0, true) && At(s0, b, 6) && Idle(s0.procs) && 1 !in s0.procs
    requires b.token != "" && !TokenExpired(b, 1) && b.status == Pending && b.confirmedAt.None?
    ensures Visited(cfg, s, true) && At(s, b, 9) && s.events == s0.events + [Accepted(b.token)]
    ensures s.procs == s0.procs[1 := CPut(Attested(b, 1), 1)]
  {
    var s1 := OpensLink(cfg, s0, 1, 6, v, b);
    s := ConfirmBegins(cfg, true, s1, 7, v, b);
    assert s.procs == s0.procs[1 := CPut(Attested(b, 1), 1)];
  }

  /** A Confirm of a confirmed record, up to its delivery. */
  lemma Retries(cfg: Config, s0: State, v: Verdicts, c: Rec) returns (s: State)
    requires Visited(cfg, s0, true) && At(s0, c, 13) && Idle(s0.procs) && 2 !in s0.procs
    requires Retriable(c)
    ensures Visited(cfg, s, true) && At(s, c, 15) && s.events == s0.events
    ensures s.procs == s0.procs[2 := DSign(c, ByConfirm(1, false))]
  {
    var s1 := OpensLink(cfg, s0, 2, 13, v, c);
    LookupOnly(s1, c, 1);
    s := Go(cfg, true, s1, 2, 14, true, v, c);
    assert s.procs == s0.procs[2 := DSign(c, ByConfirm(1, false))];
  }

  /** Delivery by a Confirm, alone in the system; the process has got as far as its write. */
  lemma SucceedsAlone(cfg: Config, s0: State, pid: nat, n: nat, v: Verdicts, c: Rec) returns (s: State)
    requires Visited(cfg, s0, true) && At(s0, c, n) && pid in s0.procs && s0.procs[pid] == DSign(c, ByConfirm(1, false))
    requires c.envelope.Some? && c.envelope.value.head.Some?
    ensures Visited(cfg, s, true) && At(s, c, n + 3)
    ensures pid in s.procs && Booked(s.procs[pid]) && s.procs == s0.procs[pid := s.procs[pid]]
    ensures OnePost(s0.events, s.events, c.token, ByConfirm(1, false), true)
  {
    s := Posts(cfg, true, s0, pid, n, v, c, ByConfirm(1, false), true);
  }

  /** The write of a Confirm's success is next. */
  predicate Booked(p: Proc) {
    p.DBook? && p.who.ByConfirm? && p.sent
  }

  lemma Dies(cfg: Config, s0: State, pid: nat, r: Rec, n: nat) returns (s: State)
    requires Visited(cfg, s0, true) && At(s0, r, n) && pid in s0.procs && Booked(s0.procs[pid])
    ensures Visited(cfg, s, true) && At(s, r, n) && s.procs == s0.procs[pid := Dead] && s.events == s0.events
  {
    VisitedStep(cfg, s0, true, Kill(pid));
    s := Step(s0, Kill(pid));
  }

  /** Up to the first delivery. */
  lemma FirstConfirmed(cfg: Config, env: Env, v: Verdicts, subject: Address, email: string) returns (s: State, c: Rec)
    requires Admissible(cfg, env, v, subject, email)
    ensures Visited(cfg, s, true) && At(s, c, 10) && Retriable(c) && c.token == Name(0)
    ensures s.procs.Keys == {0, 1} && s.procs[0].Done? && s.procs[1] == DSign(c, ByConfirm(1, false))
    ensures s.events == [Mailed(Name(0), email, true), Accepted(Name(0))]
  {
    var s0, b := Registered(cfg, env, v, subject, email);
    s, c := Confirms(cfg, s0, v, b);
  }

  /** A confirmed record under a live token. */
  predicate Retriable(c: Rec) {
    && c.token != "" && !TokenExpired(c, 1) && c.status == Confirmed && c.confirmedAt.Some?
    && c.envelope.Some? && c.envelope.value.head.Some?
  }

  /** Up to the death. */
  lemma FirstSuccess(cfg: Config, env: Env, v: Verdicts, subject: Address, email: string) returns (s: State, c: Rec)
    requires Admissible(cfg, env, v, subject, email)
    ensures Visited(cfg, s, true) && At(s, c, 13) && s.procs.Keys == {0, 1} && s.procs[0].Done? && s.procs[1] == Dead
    ensures Retriable(c) && c.token == Name(0)
    ensures OnePost([Mailed(Name(0), email, true), Accepted(Name(0))], s.events, Name(0), ByConfirm(1, false), true)
  {
    var s1;
    s1, c := FirstConfirmed(cfg, env, v, subject, email);
    var s2 := SucceedsAlone(cfg, s1, 1, 10, v, c);
    s := Dies(cfg, s2, 1, c, 13);
  }

  /** For every envelope Receive admits there is a sequential run, without any Redeliver, in
      which the authority accepts two posts of the same token from Confirm: the first Confirm
      dies between its post and the write of the outcome. */
  lemma DeathRun(cfg: Config, env: Env, v: Verdicts, subject: Address, email: string) returns (s: State)
    requires Admissible(cfg, env, v, subject, email)
    ensures ReachedAlone(cfg, s) && s.procs.Keys == {0, 1, 2}
    ensures s.procs[0].Done? && s.procs[1] == Dead && Booked(s.procs[2])
    ensures |s.events| == 4 && s.events[..2] == [Mailed(Name(0), email, true), Accepted(Name(0))]
    ensures Counts(s.events[2], Name(0), ConfirmSuccess) && Counts(s.events[3], Name(0), ConfirmSuccess)
  {
    var s1, c := FirstSuccess(cfg, env, v, subject, email);
    var s2 := Retries(cfg, s1, v, c);
    s := SucceedsAlone(cfg, s2, 2, 15, v, c);
    VisitedAlone(cfg, s);
  }
}
