/** Following one request through the protocol: `Tracks(start, w, ...)` says that `w` lies
    on the solo run of the request from `start`. */
module Tracking {
  import opened Envelopes
  import opened Records
  import opened MemoryStore
  import opened Protocol
  import opened Invariant
  import opened Steps
  import opened SoloRuns
  import opened Sequential

  ghost predicate MoveClosed(P: State -> bool, pid: nat, x: Answers) {
    forall s {:trigger P(s)} :: P(s) && Prepared(s, pid, x) && Live(s.procs[pid]) ==>
                                  Enabled(s, MoveOf(s, pid, x)) && P(Step(s, MoveOf(s, pid, x)))
  }

  /** The least relation that holds at the start, if the request is prepared there, and that
      the request's steps keep. */
  ghost predicate Tracks(start: State, w: State, pid: nat, x: Answers) {
    forall P: State -> bool ::
      MoveClosed(P, pid, x) && (Prepared(start, pid, x) && Inv(start) ==> P(start)) ==> P(w)
  }

  lemma TracksFacts(start: State, w: State, pid: nat, x: Answers)
    requires Tracks(start, w, pid, x)
    ensures Prepared(start, pid, x) && Prepared(w, pid, x) && Solo(w, pid, x) == Solo(start, pid, x)
    ensures Inv(w)
  {
    var P: State -> bool := s => && Prepared(start, pid, x) && Prepared(s, pid, x) && Inv(s)
                                 && Solo(s, pid, x) == Solo(start, pid, x);
    forall s | P(s) && Live(s.procs[pid])
      ensures Enabled(s, MoveOf(s, pid, x)) && P(Step(s, MoveOf(s, pid, x)))
    {
      PreparedStep(s, pid, x);
      StepKeepsInv(s, MoveOf(s, pid, x));
    }
    assert MoveClosed(P, pid, x);
    assert P(w);
  }

  lemma TracksDistinct(start: State, w: State, pid: nat, x: Answers)
    requires Tracks(start, w, pid, x)
    ensures DistinctTokens(w.store)
  {
    TracksFacts(start, w, pid, x);
    TokensDistinct(w);
  }

  /** One more step, told by its turn. */
  lemma Advance(start: State, w: State, pid: nat, x: Answers, t: Turn) returns (w': State)
    requires Tracks(start, w, pid, x) && pid in w.procs && Live(w.procs[pid])
    requires t == TurnOf(w, w.procs[pid], x[Rank(w.procs[pid])])
    ensures Tracks(start, w', pid, x)
    ensures w'.cfg == w.cfg && w'.procs == w.procs[pid := t.next]
    ensures w'.store == if t.write.Some? then w.store[t.write.value.rec.id := t.write.value.rec] else w.store
    ensures w'.events == if t.event.Some? then w.events + [t.event.value] else w.events
  {
    TracksFacts(start, w, pid, x);
    PreparedStep(w, pid, x);
    w' := Step(w, MoveOf(w, pid, x));
    forall P: State -> bool | MoveClosed(P, pid, x) && (Prepared(start, pid, x) && Inv(start) ==> P(start))
      ensures P(w')
    {
      assert P(w);
    }
  }

  // ----- A request from its arrival to its end -----

  /** The request may arrive under the unused number `pid`, and `x` answers its steps. */
  predicate CanArrive(w: State, pid: nat, request: Proc, x: Answers) {
    && pid !in w.procs && Request(request) && Usable(w, x, Rank(request))
    && (request.RGate? && x[6].verdicts.valid ==> request.env.head.Some?)
  }

  function Arrived(w: State, pid: nat, request: Proc): State {
    w.(procs := w.procs[pid := request])
  }

  /** The state once the request has arrived and been served. */
  ghost function Served(w: State, pid: nat, request: Proc, x: Answers): State
    requires CanArrive(w, pid, request, x)
  {
    Solo(Arrived(w, pid, request), pid, x)
  }

  /** Moves of one process leave the others where they are. */
  lemma {:induction false} MovesOfOne(s: State, acts: seq<Action>, pid: nat)
    requires ValidRun(s, acts) && pid in s.procs && forall a :: a in acts ==> a.Move? && a.pid == pid
    ensures SequentialRun(s, acts)
    ensures Run(s, acts).procs.Keys == s.procs.Keys
    ensures forall q :: q in s.procs && q != pid ==> Run(s, acts).procs[q] == s.procs[q]
    decreases |acts|
  {
    if acts != [] {
      MovesOfOne(Step(s, acts[0]), acts[1..], pid);
    }
  }

  /** Serving a request in a quiet state is a sequential run of the protocol, and leaves the
      state quiet for the next. */
  lemma ServedIsSequential(w: State, pid: nat, request: Proc, x: Answers) returns (acts: seq<Action>)
    requires CanArrive(w, pid, request, x)
    ensures ValidRun(w, acts) && Run(w, acts) == Served(w, pid, request, x)
    ensures forall a :: a in acts ==> !a.Kill?
    ensures Quiet(w) ==> SequentialRun(w, acts) && Quiet(Served(w, pid, request, x))
  {
    var s := Arrived(w, pid, request);
    var rest := SoloIsRun(s, pid, x);
    acts := [Start(pid, request)] + rest;
    assert acts[1..] == rest;
    MovesOfOne(s, rest, pid);
  }

  lemma Begins(w: State, pid: nat, request: Proc, x: Answers) returns (start: State)
    requires CanArrive(w, pid, request, x) && Inv(w)
    ensures start == Arrived(w, pid, request) && Tracks(start, start, pid, x) && AtStep(start, pid, request)
  {
    start := Arrived(w, pid, request);
    SwapProcKeepsInv(w, pid, request);
  }

  /** A request tracked to its end has been served. */
  lemma Ends(w: State, pid: nat, request: Proc, x: Answers, w': State, outcome: Outcome)
    requires CanArrive(w, pid, request, x) && Tracks(Arrived(w, pid, request), w', pid, x)
    requires AtStep(w', pid, Done(outcome))
    ensures w' == Served(w, pid, request, x) && Inv(w')
  {
    TracksFacts(Arrived(w, pid, request), w', pid, x);
  }

  /** The process `pid` is about to take step `p`. */
  predicate AtStep(w: State, pid: nat, p: Proc) {
    pid in w.procs && w.procs[pid] == p
  }

  // ----- Each step, as the code that takes it sees it -----

  /** The process goes on to `next`, leaving an event or a stored record behind, or neither. */
  predicate Moved(w: State, w': State, pid: nat, next: Proc, event: Option<Event>, stored: Option<Rec>) {
    && w'.cfg == w.cfg && AtStep(w', pid, next)
    && w'.events == (if event.Some? then w.events + [event.value] else w.events)
    && w'.store == (if stored.Some? then w.store[stored.value.id := stored.value] else w.store)
  }

  /** A Put of `r`: what comes next, and what is stored, by its outcome. */
  predicate MovedByPut(w: State, w': State, pid: nat, r: Rec, novel: string, stored: Proc, lost: Proc) {
    if PutOutcome(w.store, r).Stored? then Moved(w, w', pid, stored, None, Some(r.(rev := novel)))
    else Moved(w, w', pid, lost, None, None)
  }

  lemma Signs(start: State, w: State, pid: nat, x: Answers, r: Rec, who: Caller) returns (w': State)
    requires Tracks(start, w, pid, x) && AtStep(w, pid, DSign(r, who))
    ensures Tracks(start, w', pid, x)
    ensures if x[4].ok && r.envelope.Some? && r.envelope.value.head.Some? then
              var env := CounterSigned(w.cfg.identity, r.envelope.value, r.address, x[4].at);
              Moved(w, w', pid, DStamp(r, who, env, x[4].at), None, None)
            else
              Moved(w, w', pid, DBook(Unsent(r, x[4].text), who, false), Some(SignRefused(r.token, who)), None)
  {
    w' := Advance(start, w, pid, x, DeliverTurn(w, w.procs[pid], x[4]));
  }

  lemma Stamps(start: State, w: State, pid: nat, x: Answers, r: Rec, who: Caller, env: Env, signedAt: Time)
    returns (w': State)
    requires Tracks(start, w, pid, x) && AtStep(w, pid, DStamp(r, who, env, signedAt))
    ensures Tracks(start, w', pid, x)
    ensures Moved(w, w', pid, DSend(Stamped(r, x[3].at), who, env, signedAt), None, None)
  {
    w' := Advance(start, w, pid, x, DeliverTurn(w, w.procs[pid], x[3]));
  }

  lemma Posts(start: State, w: State, pid: nat, x: Answers, r: Rec, who: Caller, env: Env, signedAt: Time)
    returns (w': State)
    requires Tracks(start, w, pid, x) && AtStep(w, pid, DSend(r, who, env, signedAt))
    ensures Tracks(start, w', pid, x)
    ensures Moved(w, w', pid, DBook(if x[2].ok then Sent(r) else Unsent(r, x[2].text), who, x[2].ok),
                  Some(Posted(r.token, w.cfg.authority, who, env, signedAt, x[2].ok)), None)
  {
    w' := Advance(start, w, pid, x, DeliverTurn(w, w.procs[pid], x[2]));
  }

  lemma BooksOutcome(start: State, w: State, pid: nat, x: Answers, r: Rec, who: Caller, sent: bool) returns (w': State)
    requires Tracks(start, w, pid, x) && AtStep(w, pid, DBook(r, who, sent))
    ensures Tracks(start, w', pid, x)
    ensures MovedByPut(w, w', pid, r, x[1].novel, Done(DeliveryResult(r.(rev := x[1].novel), who, sent)),
                       Done(DeliveryResult(r, who, sent)))
  {
    w' := Advance(start, w, pid, x, DeliverTurn(w, w.procs[pid], x[1]));
  }

  /** Both lookups of a Confirm. */
  lemma LooksUp(start: State, w: State, pid: nat, x: Answers, token: string) returns (w': State)
    requires Tracks(start, w, pid, x) && AtStep(w, pid, CLookup(token))
    ensures Tracks(start, w', pid, x)
    ensures Moved(w, w', pid,
                  match ByToken(w.store, token, x[8].at)
                  case Missed(e) => Done(Errored(e))
                  case Found(r) =>
                    if r.status == Delivered then Done(ConfirmOk(r))
                    else if r.confirmedAt.None? then CAttest(r, x[8].at)
                    else DSign(r, ByConfirm(x[8].at, false)), None, None)
  {
    w' := Advance(start, w, pid, x, ConfirmTurn(w, w.procs[pid], x[8]));
  }

  lemma Rereads(start: State, w: State, pid: nat, x: Answers, token: string) returns (w': State)
    requires Tracks(start, w, pid, x) && AtStep(w, pid, CReread(token))
    ensures Tracks(start, w', pid, x)
    ensures Moved(w, w', pid,
                  match ByToken(w.store, token, x[5].at)
                  case Missed(e) => Done(Errored(e))
                  case Found(r) =>
                    if r.status == Delivered then Done(ConfirmOk(r))
                    else DSign(r, ByConfirm(x[5].at, true)), None, None)
  {
    w' := Advance(start, w, pid, x, ConfirmTurn(w, w.procs[pid], x[5]));
  }

  /** Confirm marks its copy confirmed and tries to store it. */
  lemma Attests(start: State, w: State, pid: nat, x: Answers, r: Rec, seenAt: Time) returns (w': State)
    requires Tracks(start, w, pid, x) && AtStep(w, pid, CAttest(r, seenAt))
    ensures Tracks(start, w', pid, x)
    ensures var c := Attested(r, x[7].at);
            MovedByPut(w, w', pid, c, x[6].novel, DSign(c.(rev := x[6].novel), ByConfirm(seenAt, false)),
                       if PutOutcome(w.store, c).Conflict? then CReread(r.token) else Done(Errored(ErrInternal)))
  {
    var w1 := Advance(start, w, pid, x, ConfirmTurn(w, w.procs[pid], x[7]));
    w' := Advance(start, w1, pid, x, ConfirmTurn(w1, w1.procs[pid], x[6]));
  }

  lemma RedeliverReads(start: State, w: State, pid: nat, x: Answers, address: Address) returns (w': State)
    requires Tracks(start, w, pid, x) && AtStep(w, pid, XGet(address))
    ensures Tracks(start, w', pid, x)
    ensures Moved(w, w', pid,
                  if DocID(address) !in w.store then Done(Errored(ErrNotFound))
                  else if w.store[DocID(address)].confirmedAt.None? then Done(Errored(ErrValidation))
                  else DSign(w.store[DocID(address)], ByRedeliver), None, None)
  {
    w' := Advance(start, w, pid, x, ConfirmTurn(w, w.procs[pid], x[5]));
  }

  lemma HandlerLooksUp(start: State, w: State, pid: nat, x: Answers, token: string, accept: bool) returns (w': State)
    requires Tracks(start, w, pid, x) && AtStep(w, pid, HGate(token, accept))
    ensures Tracks(start, w', pid, x)
    ensures match ByToken(w.store, token, x[9].at)
            case Missed(e) => Moved(w, w', pid, Done(Errored(e)), None, None)
            case Found(r) =>
              if r.status != Pending then Moved(w, w', pid, CLookup(token), None, None)
              else if !accept then Moved(w, w', pid, Done(Unticked), None, None)
              else Moved(w, w', pid, CLookup(token), Some(Accepted(token)), None)
  {
    w' := Advance(start, w, pid, x, ConfirmTurn(w, w.procs[pid], x[9]));
  }

  lemma Gated(start: State, w: State, pid: nat, x: Answers, env: Env, answer: GateAnswer) returns (w': State)
    requires Tracks(start, w, pid, x) && AtStep(w, pid, RGate(env))
    requires answer == Gates(w.cfg.identity, env, x[6].verdicts)
    ensures Tracks(start, w', pid, x)
    ensures Moved(w, w', pid,
                  match answer
                  case Refused(e) => Done(Errored(e))
                  case Admitted(subject, email) =>
                    if !x[6].ok then Done(Errored(ErrInternal))
                    else RGet(Minted(subject, email, env, x[6].novel, x[6].at)), None, None)
  {
    w' := Advance(start, w, pid, x, ReceiveTurn(w, w.procs[pid], x[6]));
  }

  /** upsert's read of the previous revision, and its write. */
  lemma Upserts(start: State, w: State, pid: nat, x: Answers, r: Rec) returns (w': State)
    requires Tracks(start, w, pid, x) && AtStep(w, pid, RGet(r))
    ensures Tracks(start, w', pid, x)
    ensures var g := if r.id in w.store then r.(rev := w.store[r.id].rev) else r;
            MovedByPut(w, w', pid, g, x[4].novel, RClock(r.(rev := x[4].novel)), Done(Errored(ErrInternal)))
  {
    var w1 := Advance(start, w, pid, x, ReceiveTurn(w, w.procs[pid], x[5]));
    w' := Advance(start, w1, pid, x, ReceiveTurn(w1, w1.procs[pid], x[4]));
  }

  lemma Mails(start: State, w: State, pid: nat, x: Answers, r: Rec) returns (w': State)
    requires Tracks(start, w, pid, x) && AtStep(w, pid, RClock(r))
    ensures Tracks(start, w', pid, x)
    ensures Moved(w, w', pid, RBook(if x[2].ok then MailSent(r, x[3].at) else MailFailed(r, x[2].text), x[2].ok),
                  Some(Mailed(r.token, r.email, x[2].ok)), None)
  {
    var w1 := Advance(start, w, pid, x, ReceiveTurn(w, w.procs[pid], x[3]));
    w' := Advance(start, w1, pid, x, ReceiveTurn(w1, w1.procs[pid], x[2]));
  }

  lemma BooksMail(start: State, w: State, pid: nat, x: Answers, r: Rec, sent: bool) returns (w': State)
    requires Tracks(start, w, pid, x) && AtStep(w, pid, RBook(r, sent))
    ensures Tracks(start, w', pid, x)
    ensures MovedByPut(w, w', pid, r, x[1].novel,
                       Done(if sent then ReceiveOk(r.(rev := x[1].novel)) else Errored(ErrInternal)),
                       Done(if sent then ReceiveOk(r) else Errored(ErrInternal)))
  {
    w' := Advance(start, w, pid, x, ReceiveTurn(w, w.procs[pid], x[1]));
  }
}
