/** Each step of each process keeps the invariant, so every run does. */
module Steps {
  import opened Envelopes
  import opened Records
  import opened MemoryStore
  import opened Protocol
  import opened Invariant

  // ----- What a look at the store tells -----

  lemma StoredFacts(s: State, id: string)
    requires Inv(s) && id in s.store
    ensures Copy(s, s.store[id]) && RecInv(s, s.store[id])
    ensures id == DocID(s.mints[s.store[id].token].address)
  {
    assert Copy(s, s.store[id]);
  }

  lemma TokensDistinct(s: State)
    requires Inv(s)
    ensures DistinctTokens(s.store)
  {
    forall i, j | i in s.store && j in s.store && s.store[i].token == s.store[j].token ensures i == j {
      StoredFacts(s, i);
      StoredFacts(s, j);
    }
  }

  /** A live token resolves to the stored record it was minted for, inside its window. */
  lemma FoundFacts(s: State, token: string, now: Time)
    requires Inv(s) && now >= s.clock && ByToken(s.store, token, now).Found?
    ensures var r := ByToken(s.store, token, now).rec;
            && r.token == token && r.id in s.store && s.store[r.id] == r
            && Copy(s, r) && RecInv(s, r) && InWindow(s, token, now)
  {
    var r := ByToken(s.store, token, now).rec;
    var id :| id in s.store && s.store[id].token == token && s.store[id] == r;
    StoredFacts(s, id);
    assert MintOk(s, token, s.mints[token]);
  }

  lemma StoredAnswer(s: State, id: string, now: Time)
    requires Inv(s) && id in s.store
    ensures var r := s.store[id];
            ByToken(s.store, r.token, now) == if now < r.receivedAt + 72 * HOUR then Found(r) else Missed(ErrGone)
  {
    TokensDistinct(s);
    LookupUnique(s.store, id);
    StoredFacts(s, id);
  }

  lemma NoAnswer(s: State, token: string, now: Time)
    requires forall id :: id in s.store ==> s.store[id].token != token
    ensures ByToken(s.store, token, now) == Missed(ErrNotFound)
  {
  }

  /** What a lookup answers: the record stored with the token for 72 hours from its receipt,
      then gone; and not found without one. */
  lemma LookupExactly(s: State, token: string, now: Time)
    requires Inv(s)
    ensures forall id :: id in s.store && s.store[id].token == token ==>
              ByToken(s.store, token, now)
              == if now < s.store[id].receivedAt + 72 * HOUR then Found(s.store[id]) else Missed(ErrGone)
    ensures (forall id :: id in s.store ==> s.store[id].token != token) <==>
            ByToken(s.store, token, now) == Missed(ErrNotFound)
  {
    if forall id :: id in s.store ==> s.store[id].token != token {
      NoAnswer(s, token, now);
    } else {
      forall id | id in s.store && s.store[id].token == token
        ensures ByToken(s.store, token, now)
                == if now < s.store[id].receivedAt + 72 * HOUR then Found(s.store[id]) else Missed(ErrGone)
      {
        StoredAnswer(s, id, now);
      }
    }
  }

  /** A written version: its record holds of the log, and its token is nobody's secret. */
  ghost predicate Base(s: State, rev: string) {
    && rev in s.written && rev != "" && s.written[rev].rev == rev
    && RecInv(s, s.written[rev])
    && !Unborn(s, s.written[rev].token)
    && forall q :: q in s.procs ==> !Minting(s.procs[q], s.written[rev].token)
  }

  lemma BaseFacts(s: State, rev: string)
    requires Versions(s) && FreshTokens(s) && rev in s.written
    ensures Base(s, rev)
  {
    assert RecInv(s, s.written[rev]);
    forall q | q in s.procs ensures !Minting(s.procs[q], s.written[rev].token) {
      assert s.procs[q].RGet? || s.procs[q].RPut? ==> Unborn(s, s.procs[q].rec.token);
    }
  }

  /** No lost update: a write that succeeds replaces exactly the version its record came from. */
  lemma PutBuildsOnBase(s: State, r: Rec)
    requires Versions(s) && Stores(s) && r.rev in s.written && PutOutcome(s.store, r).Stored?
    ensures r.id in s.store && s.store[r.id] == s.written[r.rev]
  {
    assert RecInv(s, s.written[r.rev]);
    assert Copy(s, s.store[r.id]);
  }

  /** What the step of one process may rely on. */
  ghost predicate Ready(s: State, pid: nat, c: Choice) {
    && pid in s.procs && ProcInv(s, s.procs[pid])
    && c.at >= s.clock && c.novel != "" && c.novel !in s.mints && c.novel !in s.written
    && c.text != ""
  }

  /** A write of `r` finds in the store the version `r` came from. */
  predicate OnBase(s: State, r: Rec) {
    PutOutcome(s.store, r).Stored? ==> r.id in s.store && r.rev in s.written && s.store[r.id] == s.written[r.rev]
  }

  /** A turn that at most writes a good version, and reaches a step whose invariant holds
      already... */
  ghost predicate QuietOk(s: State, pid: nat, c: Choice, t: Turn) {
    && FairFor(s, c, t) && t.event.None? && t.mint.None?
    && ProcInv(s, t.next) && !t.next.RGet? && !t.next.RPut?
    && (t.write.Some? ==> WriteOk(s, pid, c, t.write.value))
  }

  /** ...is a good turn. */
  lemma QuietTurnOk(s: State, pid: nat, c: Choice, t: Turn)
    requires QuietOk(s, pid, c, t)
    ensures TurnOk(s, pid, c, t)
  {
    var s' := Apply(s, pid, c, t);
    ApplyGrows(s, pid, c, t);
    ProcInvMonotone(s, s', t.next);
  }

  lemma GotoQuiet(s: State, pid: nat, c: Choice, next: Proc)
    requires c.at >= s.clock && ProcInv(s, next) && !next.RGet? && !next.RPut?
    ensures QuietOk(s, pid, c, Goto(next))
  {
  }

  /** A turn that leaves a good entry in the log, and reaches a step whose invariant then
      holds, is a good turn. */
  lemma LoggedTurnOk(s: State, pid: nat, c: Choice, t: Turn)
    requires t.event.Some? && t.write.None? && t.mint.None? && !t.next.RGet? && !t.next.RPut?
    requires EventOk(s, t.event.value, s.events) && !Unborn(s, t.event.value.token)
    requires ProcInv(Apply(s, pid, c, t), t.next)
    ensures TurnOk(s, pid, c, t)
  {
  }

  // ----- Receive -----

  lemma NovelUnborn(s: State, novel: string)
    requires Inv(s) && novel !in s.mints
    ensures Unborn(s, novel)
    ensures forall q :: q in s.procs ==> !Minting(s.procs[q], novel)
  {
    forall q | q in s.procs ensures !Minting(s.procs[q], novel) {
      assert ProcInv(s, s.procs[q]);
    }
    forall rev | rev in s.written ensures s.written[rev].token != novel {
      assert RecInv(s, s.written[rev]);
    }
    forall e | e in s.events ensures e.token != novel {
      var i :| 0 <= i < |s.events| && s.events[i] == e;
      assert EventAt(s, i);
    }
  }

  lemma MintTurn(s: State, pid: nat, c: Choice)
    requires Ready(s, pid, c) && s.procs[pid].RGate? && (c.verdicts.valid ==> s.procs[pid].env.head.Some?)
    requires Unborn(s, c.novel) && forall q :: q in s.procs ==> !Minting(s.procs[q], c.novel)
    requires ReceiveTurn(s, s.procs[pid], c).mint.Some?
    ensures TurnOk(s, pid, c, ReceiveTurn(s, s.procs[pid], c))
  {
  }

  lemma GateTurn(s: State, pid: nat, c: Choice)
    requires Ready(s, pid, c) && s.procs[pid].RGate? && (c.verdicts.valid ==> s.procs[pid].env.head.Some?)
    requires Unborn(s, c.novel) && forall q :: q in s.procs ==> !Minting(s.procs[q], c.novel)
    ensures TurnOk(s, pid, c, ReceiveTurn(s, s.procs[pid], c))
  {
    var t := ReceiveTurn(s, s.procs[pid], c);
    if t.mint.Some? {
      MintTurn(s, pid, c);
    } else {
      GotoQuiet(s, pid, c, t.next);
      QuietTurnOk(s, pid, c, t);
    }
  }

  lemma GetTurn(s: State, pid: nat, c: Choice)
    requires Ready(s, pid, c) && s.procs[pid].RGet?
    requires Unborn(s, s.procs[pid].rec.token)
    requires forall q :: q in s.procs && q != pid ==> !Minting(s.procs[q], s.procs[pid].rec.token)
    ensures TurnOk(s, pid, c, ReceiveTurn(s, s.procs[pid], c))
  {
  }

  lemma UpsertTurn(s: State, pid: nat, c: Choice)
    requires Ready(s, pid, c) && s.procs[pid].RPut?
    requires Unborn(s, s.procs[pid].rec.token)
    requires forall q :: q in s.procs && q != pid ==> !Minting(s.procs[q], s.procs[pid].rec.token)
    requires var r := s.procs[pid].rec;
             PutOutcome(s.store, r).Stored? && r.id in s.store ==>
               s.store[r.id].id == r.id && s.store[r.id].address == r.address && s.store[r.id].token != r.token
    ensures TurnOk(s, pid, c, ReceiveTurn(s, s.procs[pid], c))
  {
    var r := s.procs[pid].rec;
    assert Invalidity(r.(rev := c.novel)) == Invalidity(r);
  }

  lemma MailTurn(s: State, pid: nat, c: Choice)
    requires Ready(s, pid, c) && s.procs[pid].RMail? && Base(s, s.procs[pid].rec.rev)
    ensures TurnOk(s, pid, c, ReceiveTurn(s, s.procs[pid], c))
  {
  }

  lemma BookTurn(s: State, pid: nat, c: Choice)
    requires Ready(s, pid, c) && s.procs[pid].RBook? && Base(s, s.procs[pid].rec.rev) && OnBase(s, s.procs[pid].rec)
    ensures QuietOk(s, pid, c, ReceiveTurn(s, s.procs[pid], c))
  {
  }

  // ----- Confirm and Redeliver up to the delivery -----

  /** What a successful token lookup hands back. */
  ghost predicate FoundOk(s: State, token: string, now: Time) {
    ByToken(s.store, token, now).Found? ==>
      var r := ByToken(s.store, token, now).rec;
      r.token == token && Copy(s, r) && Base(s, r.rev) && InWindow(s, token, now)
  }

  /** The accepted token. */
  lemma TickTurn(s: State, pid: nat, c: Choice)
    requires Ready(s, pid, c) && s.procs[pid].HGate? && FoundOk(s, s.procs[pid].token, c.at)
    requires ConfirmTurn(s, s.procs[pid], c).event.Some?
    ensures TurnOk(s, pid, c, ConfirmTurn(s, s.procs[pid], c))
  {
    LoggedTurnOk(s, pid, c, ConfirmTurn(s, s.procs[pid], c));
  }

  lemma NoTickTurn(s: State, pid: nat, c: Choice)
    requires Ready(s, pid, c) && s.procs[pid].HGate? && FoundOk(s, s.procs[pid].token, c.at)
    requires ConfirmTurn(s, s.procs[pid], c).event.None?
    ensures QuietOk(s, pid, c, ConfirmTurn(s, s.procs[pid], c))
  {
    var token := s.procs[pid].token;
    if ByToken(s.store, token, c.at).Found? {
      assert RecInv(s, s.written[ByToken(s.store, token, c.at).rec.rev]);
    }
  }

  lemma HandlerTurn(s: State, pid: nat, c: Choice)
    requires Ready(s, pid, c) && s.procs[pid].HGate? && FoundOk(s, s.procs[pid].token, c.at)
    ensures TurnOk(s, pid, c, ConfirmTurn(s, s.procs[pid], c))
  {
    if ConfirmTurn(s, s.procs[pid], c).event.Some? {
      TickTurn(s, pid, c);
    } else {
      NoTickTurn(s, pid, c);
      QuietTurnOk(s, pid, c, ConfirmTurn(s, s.procs[pid], c));
    }
  }

  /** What may be done with the record found. */
  ghost predicate Serviceable(s: State, r: Rec, now: Time) {
    && Copy(s, r)
    && if r.status == Delivered then OutcomeInv(s, ConfirmOk(r))
       else && Deliverable(s, r, ByConfirm(now, true))
            && (r.confirmedAt.Some? ==> Deliverable(s, r, ByConfirm(now, false)))
  }

  lemma FoundServes(s: State, token: string, now: Time)
    requires FoundOk(s, token, now) && ByToken(s.store, token, now).Found? && Accepted(token) in s.events
    ensures Serviceable(s, ByToken(s.store, token, now).rec, now)
  {
  }

  /** Where a lookup leads, first or second. */
  lemma FoundNext(s: State, token: string, now: Time)
    requires var found := ByToken(s.store, token, now); found.Found? ==> Serviceable(s, found.rec, now)
    ensures var found := ByToken(s.store, token, now);
            found.Found? ==>
              var r := found.rec;
              if r.status == Delivered then ProcInv(s, Done(ConfirmOk(r)))
              else && (r.confirmedAt.None? ==> ProcInv(s, CAttest(r, now)))
                   && (r.confirmedAt.Some? ==> ProcInv(s, DSign(r, ByConfirm(now, false))))
                   && ProcInv(s, DSign(r, ByConfirm(now, true)))
  {
  }

  lemma ConfirmWrite(s: State, pid: nat, c: Choice)
    requires Ready(s, pid, c) && s.procs[pid].CPut? && Base(s, s.procs[pid].rec.rev) && OnBase(s, s.procs[pid].rec)
    requires PutOutcome(s.store, s.procs[pid].rec).Stored?
    ensures WriteOk(s, pid, c, Entry(s.procs[pid].rec.(rev := c.novel), Attestation))
  {
  }

  lemma ConfirmStoresTurn(s: State, pid: nat, c: Choice)
    requires Ready(s, pid, c) && s.procs[pid].CPut? && Base(s, s.procs[pid].rec.rev) && OnBase(s, s.procs[pid].rec)
    requires PutOutcome(s.store, s.procs[pid].rec).Stored?
    ensures TurnOk(s, pid, c, ConfirmTurn(s, s.procs[pid], c))
  {
    ConfirmWrite(s, pid, c);
  }

  lemma ConfirmPutTurn(s: State, pid: nat, c: Choice)
    requires Ready(s, pid, c) && s.procs[pid].CPut? && Base(s, s.procs[pid].rec.rev) && OnBase(s, s.procs[pid].rec)
    ensures TurnOk(s, pid, c, ConfirmTurn(s, s.procs[pid], c))
  {
    if PutOutcome(s.store, s.procs[pid].rec).Stored? {
      ConfirmStoresTurn(s, pid, c);
    } else {
      QuietTurnOk(s, pid, c, ConfirmTurn(s, s.procs[pid], c));
    }
  }

  lemma RedeliverTurn(s: State, pid: nat, c: Choice)
    requires Ready(s, pid, c) && s.procs[pid].XGet?
    requires var id := DocID(s.procs[pid].address);
             id in s.store ==> Copy(s, s.store[id]) && RecInv(s, s.store[id])
    ensures QuietOk(s, pid, c, ConfirmTurn(s, s.procs[pid], c))
  {
  }

  // ----- deliver -----

  /** A delivery's outcome `r`, ready to be booked. */
  lemma BookingInv(s: State, s': State, r: Rec, who: Caller, sent: bool)
    requires Grows(s, s') && r.rev in s.written
    requires Deliverable(s, s.written[r.rev], who) && Outcomes(s.written[r.rev], r)
    requires r.deliveryAttempts <= Attempts(s'.events, r.token) && (sent <==> r.status == Delivered)
    requires sent ==> r.lastDeliveryError == "" && Succeeded(s'.events, r.token) && r.deliveryAttempts >= 1
    requires !sent ==> r.lastDeliveryError != ""
    ensures ProcInv(s', DBook(r, who, sent))
  {
    DeliverableMonotone(s, s', s.written[r.rev], who);
  }

  lemma RefusedNext(s: State, pid: nat, c: Choice)
    requires Ready(s, pid, c) && s.procs[pid].DSign? && Base(s, s.procs[pid].rec.rev)
    requires DeliverTurn(s, s.procs[pid], c).event.Some?
    ensures ProcInv(Apply(s, pid, c, DeliverTurn(s, s.procs[pid], c)),
                    DBook(Unsent(s.procs[pid].rec, c.text), s.procs[pid].who, false))
  {
    var p, t := s.procs[pid], DeliverTurn(s, s.procs[pid], c);
    CountAppend(s.events, t.event.value, p.rec.token, Post);
    ApplyGrows(s, pid, c, t);
    BookingInv(s, Apply(s, pid, c, t), Unsent(p.rec, c.text), p.who, false);
  }

  lemma RefusedTurn(s: State, pid: nat, c: Choice)
    requires Ready(s, pid, c) && s.procs[pid].DSign? && Base(s, s.procs[pid].rec.rev)
    requires DeliverTurn(s, s.procs[pid], c).event.Some?
    ensures TurnOk(s, pid, c, DeliverTurn(s, s.procs[pid], c))
  {
    RefusedNext(s, pid, c);
    LoggedTurnOk(s, pid, c, DeliverTurn(s, s.procs[pid], c));
  }

  lemma SignTurn(s: State, pid: nat, c: Choice)
    requires Ready(s, pid, c) && s.procs[pid].DSign? && Base(s, s.procs[pid].rec.rev)
    ensures TurnOk(s, pid, c, DeliverTurn(s, s.procs[pid], c))
  {
    if DeliverTurn(s, s.procs[pid], c).event.Some? {
      RefusedTurn(s, pid, c);
    } else {
      QuietTurnOk(s, pid, c, DeliverTurn(s, s.procs[pid], c));
    }
  }

  lemma PostNext(s: State, pid: nat, c: Choice)
    requires Ready(s, pid, c) && s.procs[pid].DSend? && Base(s, s.procs[pid].rec.rev)
    ensures var p := s.procs[pid];
            ProcInv(Apply(s, pid, c, DeliverTurn(s, p, c)),
                    DBook(if c.ok then Sent(p.rec) else Unsent(p.rec, c.text), p.who, c.ok))
  {
    var p, t := s.procs[pid], DeliverTurn(s, s.procs[pid], c);
    CountAppend(s.events, t.event.value, p.rec.token, Post);
    assert t.event.value in Apply(s, pid, c, t).events;
    ApplyGrows(s, pid, c, t);
    BookingInv(s, Apply(s, pid, c, t), if c.ok then Sent(p.rec) else Unsent(p.rec, c.text), p.who, c.ok);
  }

  lemma PostLogged(s: State, pid: nat, c: Choice)
    requires Ready(s, pid, c) && s.procs[pid].DSend? && Base(s, s.procs[pid].rec.rev)
    ensures var p := s.procs[pid];
            && EventOk(s, Posted(p.rec.token, s.cfg.authority, p.who, p.env, p.signedAt, c.ok), s.events)
            && !Unborn(s, p.rec.token)
  {
  }

  lemma PostTurn(s: State, pid: nat, c: Choice)
    requires Ready(s, pid, c) && s.procs[pid].DSend? && Base(s, s.procs[pid].rec.rev)
    ensures TurnOk(s, pid, c, DeliverTurn(s, s.procs[pid], c))
  {
    PostNext(s, pid, c);
    PostLogged(s, pid, c);
    LoggedTurnOk(s, pid, c, DeliverTurn(s, s.procs[pid], c));
  }

  /** The version a delivery's outcome becomes, when its write wins. */
  lemma OutcomeVersion(s: State, pid: nat, c: Choice)
    requires Ready(s, pid, c) && s.procs[pid].DBook? && Base(s, s.procs[pid].rec.rev)
    ensures RecInv(s, s.procs[pid].rec.(rev := c.novel))
  {
  }

  lemma OutcomeFollows(s: State, pid: nat, c: Choice)
    requires Ready(s, pid, c) && s.procs[pid].DBook? && OnBase(s, s.procs[pid].rec)
    requires PutOutcome(s.store, s.procs[pid].rec).Stored?
    ensures var p := s.procs[pid];
            && p.rec.id in s.store && s.store[p.rec.id].token == p.rec.token
            && Successor(s.store[p.rec.id], Entry(p.rec.(rev := c.novel), DeliveryOutcome(p.who)))
  {
  }

  lemma OutcomeWrite(s: State, pid: nat, c: Choice)
    requires Ready(s, pid, c) && s.procs[pid].DBook? && Base(s, s.procs[pid].rec.rev) && OnBase(s, s.procs[pid].rec)
    requires PutOutcome(s.store, s.procs[pid].rec).Stored?
    ensures WriteOk(s, pid, c, Entry(s.procs[pid].rec.(rev := c.novel), DeliveryOutcome(s.procs[pid].who)))
  {
    OutcomeVersion(s, pid, c);
    OutcomeFollows(s, pid, c);
  }

  lemma OutcomeDone(s: State, pid: nat, c: Choice)
    requires Ready(s, pid, c) && s.procs[pid].DBook?
    ensures ProcInv(s, DeliverTurn(s, s.procs[pid], c).next)
  {
  }

  lemma OutcomeTurn(s: State, pid: nat, c: Choice)
    requires Ready(s, pid, c) && s.procs[pid].DBook? && Base(s, s.procs[pid].rec.rev) && OnBase(s, s.procs[pid].rec)
    ensures QuietOk(s, pid, c, DeliverTurn(s, s.procs[pid], c))
  {
    if PutOutcome(s.store, s.procs[pid].rec).Stored? {
      OutcomeWrite(s, pid, c);
    }
    OutcomeDone(s, pid, c);
  }

  // ----- All steps, all runs -----

  lemma ReceiveTurnOk(s: State, pid: nat, c: Choice)
    requires Inv(s) && Enabled(s, Move(pid, c))
    requires var p := s.procs[pid]; p.RGate? || p.RGet? || p.RPut?
    ensures TurnOk(s, pid, c, ReceiveTurn(s, s.procs[pid], c))
  {
    assert Ready(s, pid, c);
    match s.procs[pid]
    case RGate(_) =>
      NovelUnborn(s, c.novel);
      GateTurn(s, pid, c);
    case RGet(_) => GetTurn(s, pid, c);
    case RPut(r) =>
      assert Unborn(s, r.token);
      if r.id in s.store {
        StoredFacts(s, r.id);
        DocIDInjective(r.address, s.store[r.id].address);
      }
      UpsertTurn(s, pid, c);
  }

  /** A process whose local copy came from the store can rely on that version. */
  lemma HolderFacts(s: State, pid: nat, c: Choice)
    requires Inv(s) && Enabled(s, Move(pid, c))
    requires var p := s.procs[pid];
             p.RMail? || p.RBook? || p.CPut? || p.DSign? || p.DSend? || p.DBook?
    ensures Ready(s, pid, c) && Base(s, s.procs[pid].rec.rev) && OnBase(s, s.procs[pid].rec)
  {
    var r := s.procs[pid].rec;
    assert ProcInv(s, s.procs[pid]);
    BaseFacts(s, r.rev);
    if PutOutcome(s.store, r).Stored? {
      PutBuildsOnBase(s, r);
    }
  }

  lemma WriterTurnOk(s: State, pid: nat, c: Choice)
    requires Ready(s, pid, c)
    requires var p := s.procs[pid]; p.RMail? || p.CPut?
    requires Base(s, s.procs[pid].rec.rev) && OnBase(s, s.procs[pid].rec)
    ensures TurnOk(s, pid, c, TurnOf(s, s.procs[pid], c))
  {
    if s.procs[pid].RMail? {
      MailTurn(s, pid, c);
    } else {
      ConfirmPutTurn(s, pid, c);
    }
  }

  lemma DelivererTurnOk(s: State, pid: nat, c: Choice)
    requires Ready(s, pid, c)
    requires var p := s.procs[pid]; p.DSign? || p.DSend?
    requires Base(s, s.procs[pid].rec.rev)
    ensures TurnOk(s, pid, c, TurnOf(s, s.procs[pid], c))
  {
    if s.procs[pid].DSign? {
      SignTurn(s, pid, c);
    } else {
      PostTurn(s, pid, c);
    }
  }

  lemma BookerQuiet(s: State, pid: nat, c: Choice)
    requires Ready(s, pid, c)
    requires var p := s.procs[pid]; p.RBook? || p.DBook?
    requires Base(s, s.procs[pid].rec.rev) && OnBase(s, s.procs[pid].rec)
    ensures QuietOk(s, pid, c, TurnOf(s, s.procs[pid], c))
  {
    if s.procs[pid].RBook? {
      BookTurn(s, pid, c);
    } else {
      OutcomeTurn(s, pid, c);
    }
  }

  lemma ReaderFacts(s: State, pid: nat, c: Choice)
    requires Inv(s) && Enabled(s, Move(pid, c))
    requires var p := s.procs[pid]; p.HGate? || p.CLookup? || p.CReread?
    ensures Ready(s, pid, c) && FoundOk(s, s.procs[pid].token, c.at)
  {
    var token := s.procs[pid].token;
    if ByToken(s.store, token, c.at).Found? {
      FoundFacts(s, token, c.at);
      BaseFacts(s, ByToken(s.store, token, c.at).rec.rev);
    }
  }

  lemma ReaderQuiet(s: State, pid: nat, c: Choice)
    requires Ready(s, pid, c)
    requires var p := s.procs[pid]; p.CLookup? || p.CReread?
    requires FoundOk(s, s.procs[pid].token, c.at)
    ensures QuietOk(s, pid, c, TurnOf(s, s.procs[pid], c))
  {
    var p := s.procs[pid];
    if ByToken(s.store, p.token, c.at).Found? {
      FoundServes(s, p.token, c.at);
    }
    FoundNext(s, p.token, c.at);
    GotoQuiet(s, pid, c, TurnOf(s, p, c).next);
  }

  lemma LocalQuiet(s: State, pid: nat, c: Choice)
    requires Ready(s, pid, c)
    requires var p := s.procs[pid]; p.RClock? || p.CAttest? || p.DStamp?
    ensures QuietOk(s, pid, c, TurnOf(s, s.procs[pid], c))
  {
    GotoQuiet(s, pid, c, TurnOf(s, s.procs[pid], c).next);
  }

  lemma RedeliverQuiet(s: State, pid: nat, c: Choice)
    requires Inv(s) && Enabled(s, Move(pid, c)) && s.procs[pid].XGet?
    ensures QuietOk(s, pid, c, TurnOf(s, s.procs[pid], c))
  {
    var id := DocID(s.procs[pid].address);
    if id in s.store {
      StoredFacts(s, id);
    }
    RedeliverTurn(s, pid, c);
  }

  /** The steps that leave no event and mint no token. */
  predicate Quieter(p: Proc) {
    p.RClock? || p.CAttest? || p.DStamp? || p.CLookup? || p.CReread? || p.XGet? || p.RBook? || p.DBook?
  }

  lemma QuietTurn(s: State, pid: nat, c: Choice)
    requires Inv(s) && Enabled(s, Move(pid, c)) && Quieter(s.procs[pid])
    ensures QuietOk(s, pid, c, TurnOf(s, s.procs[pid], c))
  {
    var p := s.procs[pid];
    if p.RBook? || p.DBook? {
      HolderFacts(s, pid, c);
      BookerQuiet(s, pid, c);
    } else if p.CLookup? || p.CReread? {
      ReaderFacts(s, pid, c);
      ReaderQuiet(s, pid, c);
    } else if p.XGet? {
      RedeliverQuiet(s, pid, c);
    } else {
      LocalQuiet(s, pid, c);
    }
  }

  lemma TurnOfOk(s: State, pid: nat, c: Choice)
    requires Inv(s) && Enabled(s, Move(pid, c))
    ensures TurnOk(s, pid, c, TurnOf(s, s.procs[pid], c))
  {
    var p := s.procs[pid];
    if Quieter(p) {
      QuietTurn(s, pid, c);
      QuietTurnOk(s, pid, c, TurnOf(s, p, c));
    } else if p.RGate? || p.RGet? || p.RPut? {
      ReceiveTurnOk(s, pid, c);
    } else if p.HGate? {
      ReaderFacts(s, pid, c);
      HandlerTurn(s, pid, c);
    } else {
      HolderFacts(s, pid, c);
      if p.DSign? || p.DSend? {
        DelivererTurnOk(s, pid, c);
      } else {
        WriterTurnOk(s, pid, c);
      }
    }
  }

  /** A request that arrives or dies changes nothing but the process table. */
  lemma SwapProcKeepsInv(s: State, pid: nat, p: Proc)
    requires Inv(s) && (Request(p) || p == Dead)
    ensures Inv(s.(procs := s.procs[pid := p]))
  {
    var c := Choice(s.clock, "", true, false, "", Verdicts(true, PartyInvalid, AuthorityOk));
    QuietTurnOk(s, pid, c, Goto(p));
    ApplyKeepsInv(s, pid, c, Goto(p));
    assert Apply(s, pid, c, Goto(p)) == s.(procs := s.procs[pid := p]);
  }

  lemma StepKeepsInv(s: State, a: Action)
    requires Inv(s) && Enabled(s, a)
    ensures Inv(Step(s, a)) && Grows(s, Step(s, a))
  {
    match a
    case Start(pid, request) => SwapProcKeepsInv(s, pid, request);
    case Kill(pid) => SwapProcKeepsInv(s, pid, Dead);
    case Move(pid, c) =>
      TurnOfOk(s, pid, c);
      ApplyKeepsInv(s, pid, c, TurnOf(s, s.procs[pid], c));
      ApplyGrows(s, pid, c, TurnOf(s, s.procs[pid], c));
  }

  /** The invariant holds in every state of every run, and history only grows along it. */
  lemma {:induction false} RunKeepsInv(s: State, acts: seq<Action>)
    requires Inv(s) && ValidRun(s, acts)
    ensures Inv(Run(s, acts)) && Grows(s, Run(s, acts))
    decreases |acts|
  {
    if acts != [] {
      StepKeepsInv(s, acts[0]);
      RunKeepsInv(Step(s, acts[0]), acts[1..]);
    }
  }

  ghost predicate Reachable(s: State) {
    exists cfg, acts :: ValidRun(Init(cfg), acts) && s == Run(Init(cfg), acts)
  }

  lemma ReachableInv(s: State)
    requires Reachable(s)
    ensures Inv(s)
  {
    var cfg, acts :| ValidRun(Init(cfg), acts) && s == Run(Init(cfg), acts);
    InvInit(cfg);
    RunKeepsInv(Init(cfg), acts);
  }
}
