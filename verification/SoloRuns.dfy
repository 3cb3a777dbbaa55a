/** One request run from its next step to its end with no other request in between, and
    what such a request achieves. */
module SoloRuns {
  import opened Envelopes
  import opened Records
  import opened MemoryStore
  import opened Protocol
  import opened Invariant
  import opened Steps

  /** A bound on the steps a process has left. */
  function Rank(p: Proc): (k: nat)
    ensures k < 10
  {
    match p
    case HGate(_, _) => 9
    case CLookup(_) => 8
    case CAttest(_, _) => 7
    case CPut(_, _) => 6
    case CReread(_) => 5
    case XGet(_) => 5
    case DSign(_, _) => 4
    case DStamp(_, _, _, _) => 3
    case DSend(_, _, _, _) => 2
    case DBook(_, _, _) => 1
    case RGate(_) => 6
    case RGet(_) => 5
    case RPut(_) => 4
    case RClock(_) => 3
    case RMail(_, _) => 2
    case RBook(_, _) => 1
    case Done(_) => 0
    case Dead => 0
  }

  /** The environment's answers to one request, by the rank of the step they answer. For the
      handler and Confirm: 9 and 8 the two lookups, 7 the confirmation time, 6 its write, 5
      the re-read; for Redeliver: 5 its read; for a delivery: 4 the countersigning, 3 the
      attempt's time, 2 the post, 1 the outcome's write; for Receive: 6 the gates and the
      token, 5 the read and 4 the write of upsert, 3 the mail's time, 2 the mail, 1 its note. */
  type Answers = x: seq<Choice> | |x| == 10
    witness seq(10, _ => Choice(0, "", false, false, "", Verdicts(false, PartyMissing, AuthorityMissing)))

  /** The answers to the steps of rank `k` and below are fair: later steps see later clocks,
      and no token or revision is handed out twice. */
  predicate Usable(s: State, x: Answers, k: nat)
    requires k < 10
  {
    && (forall i {:trigger x[i]} :: 0 < i <= k ==>
          && x[i].at >= s.clock && x[i].text != ""
          && x[i].novel != "" && x[i].novel !in s.mints && x[i].novel !in s.written)
    && (forall i, j {:trigger x[i], x[j]} :: 0 < i < j <= k ==> x[j].at <= x[i].at && x[i].novel != x[j].novel)
  }

  predicate Prepared(s: State, pid: nat, x: Answers) {
    && pid in s.procs && Usable(s, x, Rank(s.procs[pid]))
    && (s.procs[pid].RGate? && x[6].verdicts.valid ==> s.procs[pid].env.head.Some?)
  }

  function MoveOf(s: State, pid: nat, x: Answers): Action
    requires pid in s.procs
  {
    Move(pid, x[Rank(s.procs[pid])])
  }

  lemma RankDrops(s: State, p: Proc, c: Choice)
    requires Live(p)
    ensures Rank(TurnOf(s, p, c).next) < Rank(p)
    ensures !TurnOf(s, p, c).next.RGate?
    ensures TurnOf(s, p, c).write.Some? ==> TurnOf(s, p, c).write.value.rec.rev == c.novel
  {
  }

  lemma PreparedStep(s: State, pid: nat, x: Answers)
    requires Prepared(s, pid, x) && Live(s.procs[pid])
    ensures Enabled(s, MoveOf(s, pid, x))
    ensures Prepared(Step(s, MoveOf(s, pid, x)), pid, x)
    ensures Rank(Step(s, MoveOf(s, pid, x)).procs[pid]) < Rank(s.procs[pid])
  {
    RankDrops(s, s.procs[pid], x[Rank(s.procs[pid])]);
  }

  /** The state in which the process has finished. */
  ghost function Solo(s: State, pid: nat, x: Answers): State
    requires Prepared(s, pid, x)
    decreases Rank(s.procs[pid])
  {
    if !Live(s.procs[pid]) then s
    else
      PreparedStep(s, pid, x);
      Solo(Step(s, MoveOf(s, pid, x)), pid, x)
  }

  /** It is a run of the protocol, made of this process's steps only. */
  lemma {:induction false} SoloIsRun(s: State, pid: nat, x: Answers) returns (acts: seq<Action>)
    requires Prepared(s, pid, x)
    ensures ValidRun(s, acts) && Run(s, acts) == Solo(s, pid, x)
    ensures forall a :: a in acts ==> a.Move? && a.pid == pid
    ensures pid in Solo(s, pid, x).procs && !Live(Solo(s, pid, x).procs[pid])
    decreases Rank(s.procs[pid])
  {
    if !Live(s.procs[pid]) {
      acts := [];
    } else {
      PreparedStep(s, pid, x);
      var rest := SoloIsRun(Step(s, MoveOf(s, pid, x)), pid, x);
      acts := [MoveOf(s, pid, x)] + rest;
      assert acts[1..] == rest;
    }
  }

  lemma SoloKeepsInv(s: State, pid: nat, x: Answers)
    requires Prepared(s, pid, x) && Inv(s)
    ensures Inv(Solo(s, pid, x)) && Grows(s, Solo(s, pid, x))
  {
    var acts := SoloIsRun(s, pid, x);
    RunKeepsInv(s, acts);
  }

  /** One step of a solo run, told by its turn. */
  lemma SoloUnfold(s: State, pid: nat, x: Answers, t: Turn) returns (s': State)
    requires Prepared(s, pid, x) && Live(s.procs[pid]) && t == TurnOf(s, s.procs[pid], x[Rank(s.procs[pid])])
    ensures Prepared(s', pid, x) && Solo(s', pid, x) == Solo(s, pid, x)
    ensures s'.cfg == s.cfg && s'.procs == s.procs[pid := t.next] && s'.clock == x[Rank(s.procs[pid])].at
    ensures s'.store == if t.write.Some? then s.store[t.write.value.rec.id := t.write.value.rec] else s.store
    ensures s'.events == if t.event.Some? then s.events + [t.event.value] else s.events
    ensures t.write.None? ==> s'.written == s.written && s'.history == s.history
    ensures t.mint.None? ==> s'.mints == s.mints
  {
    PreparedStep(s, pid, x);
    s' := Step(s, MoveOf(s, pid, x));
  }

  // ----- What a delivery achieves alone -----

  lemma SoloBooks(s: State, pid: nat, x: Answers)
    requires Prepared(s, pid, x) && s.procs[pid].DBook?
    requires var r := s.procs[pid].rec; r.id in s.store && s.store[r.id].rev == r.rev && Invalidity(r).None?
    ensures var s', d := Solo(s, pid, x), s.procs[pid].rec.(rev := x[1].novel);
            && s'.store == s.store[d.id := d] && s'.events == s.events && s'.clock == x[1].at
            && pid in s'.procs && s'.procs[pid] == Done(DeliveryResult(d, s.procs[pid].who, s.procs[pid].sent))
  {
    var r, who, sent := s.procs[pid].rec, s.procs[pid].who, s.procs[pid].sent;
    var d := r.(rev := x[1].novel);
    var s1 := SoloUnfold(s, pid, x, Turn(Done(DeliveryResult(d, who, sent)), None,
                         Some(Entry(d, DeliveryOutcome(who))), None));
  }

  /** A record after its delivery has posted and booked the answer. */
  function AfterPost(r: Rec, x: Answers): Rec {
    (if x[2].ok then Sent(r) else Unsent(r, x[2].text)).(rev := x[1].novel)
  }

  lemma SoloPosts(s: State, pid: nat, x: Answers)
    requires Prepared(s, pid, x) && s.procs[pid].DSend?
    requires var r := s.procs[pid].rec; r.id in s.store && s.store[r.id].rev == r.rev && Invalidity(r).None?
    ensures var p, s' := s.procs[pid], Solo(s, pid, x);
            var d := AfterPost(p.rec, x);
            && s'.store == s.store[d.id := d] && s'.clock == x[1].at
            && s'.events == s.events + [Posted(p.rec.token, s.cfg.authority, p.who, p.env, p.signedAt, x[2].ok)]
            && pid in s'.procs && s'.procs[pid] == Done(DeliveryResult(d, p.who, x[2].ok))
  {
    var p := s.procs[pid];
    var d := if x[2].ok then Sent(p.rec) else Unsent(p.rec, x[2].text);
    var s1 := SoloUnfold(s, pid, x, Turn(DBook(d, p.who, x[2].ok),
                         Some(Posted(p.rec.token, s.cfg.authority, p.who, p.env, p.signedAt, x[2].ok)), None, None));
    SoloBooks(s1, pid, x);
  }

  lemma SoloStamps(s: State, pid: nat, x: Answers)
    requires Prepared(s, pid, x) && s.procs[pid].DStamp?
    requires var r := s.procs[pid].rec; r.id in s.store && s.store[r.id].rev == r.rev && Invalidity(r).None?
    ensures var p, s' := s.procs[pid], Solo(s, pid, x);
            var d := AfterPost(Stamped(p.rec, x[3].at), x);
            && s'.store == s.store[d.id := d] && s'.clock == x[1].at
            && s'.events == s.events + [Posted(p.rec.token, s.cfg.authority, p.who, p.env, p.signedAt, x[2].ok)]
            && pid in s'.procs && s'.procs[pid] == Done(DeliveryResult(d, p.who, x[2].ok))
  {
    var p, d := s.procs[pid], Stamped(s.procs[pid].rec, x[3].at);
    assert Invalidity(d) == Invalidity(p.rec) && d.id == p.rec.id && d.rev == p.rec.rev && d.token == p.rec.token;
    var s1 := SoloUnfold(s, pid, x, Goto(DSend(d, p.who, p.env, p.signedAt)));
    SoloPosts(s1, pid, x);
  }

  /** A delivery of the stored record, once the copy is countersigned: it posts once, stores
      the outcome and ends accordingly. */
  lemma SoloDelivers(s: State, pid: nat, x: Answers)
    requires Prepared(s, pid, x) && s.procs[pid].DSign? && x[4].ok
    requires var r := s.procs[pid].rec;
             && r.id in s.store && s.store[r.id].rev == r.rev && Invalidity(r).None?
             && r.envelope.Some? && r.envelope.value.head.Some?
    ensures var r, who, s' := s.procs[pid].rec, s.procs[pid].who, Solo(s, pid, x);
            var d := AfterPost(Stamped(r, x[3].at), x);
            && s'.store == s.store[r.id := d] && s'.clock == x[1].at
            && s'.events == s.events
               + [Posted(r.token, s.cfg.authority, who,
                         CounterSigned(s.cfg.identity, r.envelope.value, r.address, x[4].at), x[4].at, x[2].ok)]
            && pid in s'.procs && s'.procs[pid] == Done(DeliveryResult(d, who, x[2].ok))
  {
    var r, who := s.procs[pid].rec, s.procs[pid].who;
    var env := CounterSigned(s.cfg.identity, r.envelope.value, r.address, x[4].at);
    var s1 := SoloUnfold(s, pid, x, Goto(DStamp(r, who, env, x[4].at)));
    SoloStamps(s1, pid, x);
  }

  /** A delivery whose copy cannot be countersigned: nothing is posted, no attempt is counted,
      and the record is stored failed with the error. */
  lemma SoloRefused(s: State, pid: nat, x: Answers)
    requires Prepared(s, pid, x) && s.procs[pid].DSign?
    requires var r := s.procs[pid].rec;
             && r.id in s.store && s.store[r.id].rev == r.rev && Invalidity(r).None?
             && !(x[4].ok && r.envelope.Some? && r.envelope.value.head.Some?)
    ensures var r, who, s' := s.procs[pid].rec, s.procs[pid].who, Solo(s, pid, x);
            var d := Unsent(r, x[4].text).(rev := x[1].novel);
            && s'.store == s.store[r.id := d] && s'.events == s.events + [SignRefused(r.token, who)]
            && pid in s'.procs && s'.procs[pid] == Done(DeliveryResult(d, who, false))
  {
    var r, who := s.procs[pid].rec, s.procs[pid].who;
    var next := DBook(Unsent(r, x[4].text), who, false);
    var s1 := SoloUnfold(s, pid, x, Turn(next, Some(SignRefused(r.token, who)), None, None));
    SoloBooks(s1, pid, x);
  }

  lemma SoloAttests(s: State, pid: nat, x: Answers) returns (s': State)
    requires Prepared(s, pid, x) && s.procs[pid].CAttest?
    requires var r := s.procs[pid].rec; r.id in s.store && s.store[r.id].rev == r.rev && Invalidity(r).None?
    ensures Prepared(s', pid, x) && Solo(s', pid, x) == Solo(s, pid, x) && s'.cfg == s.cfg && s'.events == s.events
    ensures var c := Attested(s.procs[pid].rec, x[7].at).(rev := x[6].novel);
            s'.procs[pid] == DSign(c, ByConfirm(s.procs[pid].seenAt, false)) && s'.store == s.store[c.id := c]
  {
    var c, seenAt := Attested(s.procs[pid].rec, x[7].at), s.procs[pid].seenAt;
    var s1 := SoloUnfold(s, pid, x, Goto(CPut(c, seenAt)));
    s' := SoloConfirmWrites(s1, pid, x);
  }

  lemma SoloConfirmWrites(s: State, pid: nat, x: Answers) returns (s': State)
    requires Prepared(s, pid, x) && s.procs[pid].CPut? && PutOutcome(s.store, s.procs[pid].rec).Stored?
    ensures Prepared(s', pid, x) && Solo(s', pid, x) == Solo(s, pid, x) && s'.cfg == s.cfg && s'.events == s.events
    ensures var c := s.procs[pid].rec.(rev := x[6].novel);
            s'.procs[pid] == DSign(c, ByConfirm(s.procs[pid].seenAt, false)) && s'.store == s.store[c.id := c]
  {
    var c := s.procs[pid].rec.(rev := x[6].novel);
    s' := SoloUnfold(s, pid, x, Turn(DSign(c, ByConfirm(s.procs[pid].seenAt, false)), None,
                     Some(Entry(c, Attestation)), None));
  }

  /** What Confirm delivers when it finds `r`. */
  function ConfirmedBy(r: Rec, x: Answers): (c: Rec)
    ensures c.id == r.id && c.token == r.token && c.envelope == r.envelope
    ensures c.address == r.address && c.confirmedAt.Some?
    ensures Invalidity(r).None? ==> Invalidity(c).None?
  {
    if r.confirmedAt.Some? then r else Attested(r, x[7].at).(rev := x[6].novel)
  }

  /** Confirm on a live token whose record is not delivered goes to delivery with a
      confirmed record: the one stored, if it carried a confirmation, or the one it has
      just stored itself. */
  lemma SoloConfirmReachesDelivery(s: State, pid: nat, x: Answers, r: Rec) returns (s': State)
    requires Prepared(s, pid, x) && s.procs[pid] == CLookup(r.token)
    requires ByToken(s.store, r.token, x[8].at) == Found(r)
    requires r.id in s.store && s.store[r.id] == r && Invalidity(r).None? && r.status != Delivered
    ensures Prepared(s', pid, x) && Solo(s', pid, x) == Solo(s, pid, x) && s'.cfg == s.cfg && s'.events == s.events
    ensures s'.procs[pid] == DSign(ConfirmedBy(r, x), ByConfirm(x[8].at, false))
    ensures s'.store == s.store[r.id := ConfirmedBy(r, x)]
  {
    if r.confirmedAt.Some? {
      s' := SoloUnfold(s, pid, x, Goto(DSign(r, ByConfirm(x[8].at, false))));
    } else {
      s' := SoloUnfold(s, pid, x, Goto(CAttest(r, x[8].at)));
      s' := SoloAttests(s', pid, x);
    }
  }

  /** What is known of a stored record. */
  ghost predicate Known(s: State, r: Rec) {
    && r.id in s.store && s.store[r.id] == r && Invalidity(r).None?
    && r.token in s.mints && r.envelope == Some(s.mints[r.token].env) && r.envelope.value.head.Some?
    && forall now: Time :: ByToken(s.store, r.token, now)
                     == if now < r.receivedAt + 72 * HOUR then Found(r) else Missed(ErrGone)
  }

  lemma StoredIsKnown(s: State, id: string)
    requires Inv(s) && id in s.store
    ensures Known(s, s.store[id]) && s.store[id].id == id
  {
    StoredFacts(s, id);
    assert MintOk(s, s.store[id].token, s.mints[s.store[id].token]);
    forall now: Time ensures ByToken(s.store, s.store[id].token, now)
                       == if now < s.store[id].receivedAt + 72 * HOUR then Found(s.store[id]) else Missed(ErrGone)
    {
      LookupExactly(s, s.store[id].token, now);
    }
  }

  lemma PostedCounts(events: seq<Event>, e: Event)
    requires e.Posted?
    ensures Count(events + [e], e.token, ConfirmSuccess)
            == Count(events, e.token, ConfirmSuccess) + (if e.who.ByConfirm? && e.ok then 1 else 0)
  {
    CountAppend(events, e, e.token, ConfirmSuccess);
  }

  /** A Confirm before the expiry, with countersigning and posting succeeding, always ends
      with the record delivered, whatever failed before; on a record already delivered it
      posts nothing. */
  lemma ConfirmDelivers(s: State, pid: nat, x: Answers, r: Rec)
    requires Known(s, r) && Prepared(s, pid, x) && s.procs[pid] == CLookup(r.token)
    requires x[8].at < r.receivedAt + 72 * HOUR && x[4].ok && x[2].ok
    ensures var s' := Solo(s, pid, x);
            && r.id in s'.store && s'.store[r.id].token == r.token && s'.store[r.id].status == Delivered
            && pid in s'.procs && s'.procs[pid] == Done(ConfirmOk(s'.store[r.id]))
            && Count(s'.events, r.token, ConfirmSuccess)
               == Count(s.events, r.token, ConfirmSuccess) + (if r.status == Delivered then 0 else 1)
            && (r.status == Delivered ==> s'.events == s.events && s'.store == s.store)
  {
    if r.status == Delivered {
      ConfirmOnDelivered(s, pid, x, r);
    } else {
      ConfirmOnUndelivered(s, pid, x, r);
    }
  }

  lemma ConfirmOnDelivered(s: State, pid: nat, x: Answers, r: Rec)
    requires Known(s, r) && Prepared(s, pid, x) && s.procs[pid] == CLookup(r.token)
    requires x[8].at < r.receivedAt + 72 * HOUR && r.status == Delivered
    ensures var s' := Solo(s, pid, x);
            && s'.store == s.store && s'.events == s.events && pid in s'.procs && s'.procs[pid] == Done(ConfirmOk(r))
  {
    var s1 := SoloUnfold(s, pid, x, Goto(Done(ConfirmOk(r))));
  }

  lemma ConfirmOnUndelivered(s: State, pid: nat, x: Answers, r: Rec)
    requires Known(s, r) && Prepared(s, pid, x) && s.procs[pid] == CLookup(r.token)
    requires x[8].at < r.receivedAt + 72 * HOUR && x[4].ok && x[2].ok && r.status != Delivered
    ensures var s' := Solo(s, pid, x);
            && r.id in s'.store && s'.store[r.id].token == r.token && s'.store[r.id].status == Delivered
            && pid in s'.procs && s'.procs[pid] == Done(ConfirmOk(s'.store[r.id]))
            && Count(s'.events, r.token, ConfirmSuccess) == Count(s.events, r.token, ConfirmSuccess) + 1
  {
    var s1 := SoloConfirmReachesDelivery(s, pid, x, r);
    ConfirmEnds(s, s1, pid, x, ConfirmedBy(r, x));
  }

  lemma ConfirmEnds(s: State, s1: State, pid: nat, x: Answers, c: Rec)
    requires Prepared(s1, pid, x) && s1.procs[pid] == DSign(c, ByConfirm(x[8].at, false)) && x[4].ok && x[2].ok
    requires s1.store == s.store[c.id := c] && s1.events == s.events && s1.cfg == s.cfg
    requires Invalidity(c).None? && c.envelope.Some? && c.envelope.value.head.Some?
    ensures var s' := Solo(s1, pid, x);
            && c.id in s'.store && s'.store[c.id].token == c.token && s'.store[c.id].status == Delivered
            && pid in s'.procs && s'.procs[pid] == Done(ConfirmOk(s'.store[c.id]))
            && Count(s'.events, c.token, ConfirmSuccess) == Count(s.events, c.token, ConfirmSuccess) + 1
  {
    SoloDelivers(s1, pid, x);
    PostedCounts(s.events, Posted(c.token, s.cfg.authority, ByConfirm(x[8].at, false),
                 CounterSigned(s.cfg.identity, c.envelope.value, c.address, x[4].at), x[4].at, true));
  }

  /** How a Confirm alone ends, and what it leaves stored, in every case: gone once the link is
      72 hours old; at once when the record is delivered already; and otherwise confirmed, and
      delivered or failed, as countersigning and posting go. */
  lemma ConfirmEndsExactly(s: State, pid: nat, x: Answers, r: Rec)
    requires Known(s, r) && Prepared(s, pid, x) && s.procs[pid] == CLookup(r.token)
    ensures var s' := Solo(s, pid, x);
            && pid in s'.procs && r.id in s'.store
            && var stored := s'.store[r.id];
               if x[8].at >= r.receivedAt + 72 * HOUR then
                 s'.procs[pid] == Done(Errored(ErrGone)) && s'.store == s.store && s'.events == s.events
               else if r.status == Delivered then
                 s'.procs[pid] == Done(ConfirmOk(r)) && s'.store == s.store && s'.events == s.events
               else
                 && stored.address == r.address && stored.token == r.token && stored.confirmedAt.Some?
                 && if x[4].ok && x[2].ok
                    then stored.status == Delivered && s'.procs[pid] == Done(ConfirmOk(stored))
                    else stored.status == Failed && s'.procs[pid] == Done(Errored(ErrUnavailable))
  {
    if x[8].at >= r.receivedAt + 72 * HOUR {
      RefusalChangesNothing(s, pid, x, ErrGone);
    } else if r.status == Delivered {
      ConfirmOnDelivered(s, pid, x, r);
    } else {
      var s1 := SoloConfirmReachesDelivery(s, pid, x, r);
      if x[4].ok {
        SoloDelivers(s1, pid, x);
      } else {
        SoloRefused(s1, pid, x);
      }
    }
  }

  /** A Confirm or Redeliver that may not deliver: an unknown or expired token, an unknown
      address, an address not confirmed. */
  ghost predicate Refuses(s: State, p: Proc, x: Answers, e: Error) {
    match p
    case CLookup(token) => ByToken(s.store, token, x[8].at) == Missed(e)
    case XGet(address) =>
      if DocID(address) !in s.store then e == ErrNotFound
      else s.store[DocID(address)].confirmedAt.None? && e == ErrValidation
    case _ => false
  }

  /** It ends with its error, and changes nothing. */
  lemma RefusalChangesNothing(s: State, pid: nat, x: Answers, e: Error)
    requires Prepared(s, pid, x) && Refuses(s, s.procs[pid], x, e)
    ensures var s' := Solo(s, pid, x);
            && s'.store == s.store && s'.events == s.events && s'.written == s.written
            && pid in s'.procs && s'.procs[pid] == Done(Errored(e))
  {
    var s1 := SoloUnfold(s, pid, x, Goto(Done(Errored(e))));
  }

  /** Otherwise a Redeliver delivers the stored record, whatever its status. */
  lemma RedeliverDelivers(s: State, pid: nat, x: Answers, r: Rec)
    requires Known(s, r) && Prepared(s, pid, x) && s.procs[pid] == XGet(r.address) && r.confirmedAt.Some? && x[4].ok
    ensures var s' := Solo(s, pid, x);
            var d := AfterPost(Stamped(r, x[3].at), x);
            && s'.store == s.store[r.id := d] && pid in s'.procs
            && s'.procs[pid] == Done(if x[2].ok then RedeliverOk(d) else Errored(ErrInternal))
            && s'.events == s.events
               + [Posted(r.token, s.cfg.authority, ByRedeliver,
                         CounterSigned(s.cfg.identity, r.envelope.value, r.address, x[4].at), x[4].at, x[2].ok)]
  {
    var s1 := SoloUnfold(s, pid, x, Goto(DSign(r, ByRedeliver)));
    SoloDelivers(s1, pid, x);
  }

  /** A Redeliver whose post the authority refuses takes a delivered record back to failed,
      so that the next Confirm posts, and succeeds, once more. */
  lemma RedeliverCanUndo(s: State, pid: nat, x: Answers, r: Rec)
    requires Known(s, r) && Prepared(s, pid, x) && s.procs[pid] == XGet(r.address)
    requires r.status == Delivered && r.confirmedAt.Some?
    requires x[4].ok && !x[2].ok
    ensures var s' := Solo(s, pid, x);
            && s'.store == s.store[r.id := Unsent(Stamped(r, x[3].at), x[2].text).(rev := x[1].novel)]
            && Count(s'.events, r.token, ConfirmSuccess) == Count(s.events, r.token, ConfirmSuccess)
  {
    RedeliverDelivers(s, pid, x, r);
    PostedCounts(s.events, Posted(r.token, s.cfg.authority, ByRedeliver,
                 CounterSigned(s.cfg.identity, r.envelope.value, r.address, x[4].at), x[4].at, false));
  }

  // ----- What a Receive achieves alone -----

  /** A Receive that no one disturbs: a refusal before the first write leaves store, versions
      and log as they were; otherwise the record is stored pending with the outcome of its
      one email, and the request succeeds exactly when that email went out. */
  lemma SoloReceives(s: State, pid: nat, x: Answers)
    requires Prepared(s, pid, x) && s.procs[pid].RGate?
    ensures var env, s' := s.procs[pid].env, Solo(s, pid, x);
            && pid in s'.procs
            && match Gates(s.cfg.identity, env, x[6].verdicts)
               case Refused(e) =>
                 && s'.store == s.store && s'.written == s.written && s'.events == s.events && s'.mints == s.mints
                 && s'.procs[pid] == Done(Errored(e))
               case Admitted(subject, email) =>
                 if !x[6].ok || subject == "" then
                   && s'.store == s.store && s'.written == s.written && s'.events == s.events
                   && s'.procs[pid] == Done(Errored(ErrInternal))
                 else
                   MailOutcome(s, s', pid, Minted(subject, email, env, x[6].novel, x[6].at), x)
  {
    var env := s.procs[pid].env;
    match Gates(s.cfg.identity, env, x[6].verdicts)
    case Refused(e) =>
      var s1 := SoloUnfold(s, pid, x, Goto(Done(Errored(e))));
    case Admitted(subject, email) =>
      if !x[6].ok {
        var s1 := SoloUnfold(s, pid, x, Goto(Done(Errored(ErrInternal))));
      } else {
        var m := Minted(subject, email, env, x[6].novel, x[6].at);
        var mint := Mint(subject, email, env, x[6].at, x[6].verdicts);
        var s1 := SoloUnfold(s, pid, x, Turn(RGet(m), None, None, Some(mint)));
        if subject == "" {
          SoloRejects(s1, pid, x);
        } else {
          SoloUpserts(s1, pid, x);
          MailOutcomeRebase(s, s1, Solo(s, pid, x), pid, m, m, x);
        }
      }
  }

  /** The same, field by field: what a Receive that is admitted and gets its token leaves stored
      for the subject, whatever was stored before. */
  lemma ReceiveEndsExactly(s: State, pid: nat, x: Answers, subject: Address, email: string)
    requires Prepared(s, pid, x) && s.procs[pid].RGate? && x[6].ok && subject != ""
    requires Gates(s.cfg.identity, s.procs[pid].env, x[6].verdicts) == Admitted(subject, email)
    ensures var env, s', id := s.procs[pid].env, Solo(s, pid, x), "verification:" + subject;
            && id in s'.store && s'.store == s.store[id := s'.store[id]] && pid in s'.procs
            && s'.events == s.events + [Mailed(x[6].novel, email, x[2].ok)]
            && var r := s'.store[id];
               && r.id == id && r.address == subject && r.email == email && r.envelope == Some(env)
               && r.token == x[6].novel && r.receivedAt == x[6].at && r.tokenExpiresAt == x[6].at + 72 * HOUR
               && r.status == Pending && r.confirmedAt.None?
               && r.deliveryAttempts == 0 && r.lastDeliveryAt.None? && r.lastDeliveryError == ""
               && (x[2].ok ==> r.emailSentAt == Some(x[3].at) && r.lastEmailError == ""
                               && s'.procs[pid] == Done(ReceiveOk(r)))
               && (!x[2].ok ==> r.emailSentAt.None? && r.lastEmailError == x[2].text
                                && s'.procs[pid] == Done(Errored(ErrInternal)))
  {
    SoloReceives(s, pid, x);
  }

  /** An upserted record after its email and its bookkeeping write. */
  function AfterMail(w: Rec, x: Answers): Rec {
    (if x[2].ok then MailSent(w, x[3].at) else MailFailed(w, x[2].text)).(rev := x[1].novel)
  }

  ghost predicate MailOutcome(s: State, s': State, pid: nat, w: Rec, x: Answers) {
    var r := AfterMail(w, x);
    && pid in s'.procs
    && s'.store == s.store[w.id := r]
    && s'.events == s.events + [Mailed(w.token, w.email, x[2].ok)]
    && s'.procs[pid] == Done(if x[2].ok then ReceiveOk(r) else Errored(ErrInternal))
  }

  /** upsert's record, over the revision that is stored. */
  function Upserted(s: State, m: Rec): (g: Rec)
    ensures Invalidity(g) == Invalidity(m) && g == m.(rev := g.rev)
    ensures m.rev == "" && Invalidity(m).None? ==> PutOutcome(s.store, g).Stored?
  {
    if m.id in s.store then m.(rev := s.store[m.id].rev) else m
  }

  lemma SoloUpserts(s: State, pid: nat, x: Answers)
    requires Prepared(s, pid, x) && s.procs[pid].RGet? && s.procs[pid].rec.rev == ""
    requires Invalidity(s.procs[pid].rec).None?
    ensures MailOutcome(s, Solo(s, pid, x), pid, s.procs[pid].rec, x)
  {
    var m := s.procs[pid].rec;
    var g := Upserted(s, m);
    var s1 := SoloUnfold(s, pid, x, Goto(RPut(g)));
    SoloWrites(s1, pid, x);
    MailOutcomeRebase(s, s, Solo(s, pid, x), pid, m, g, x);
  }

  lemma SoloRejects(s: State, pid: nat, x: Answers)
    requires Prepared(s, pid, x) && s.procs[pid].RGet? && Invalidity(s.procs[pid].rec).Some?
    ensures var s' := Solo(s, pid, x);
            && s'.store == s.store && s'.written == s.written && s'.events == s.events
            && pid in s'.procs && s'.procs[pid] == Done(Errored(ErrInternal))
  {
    var s1 := SoloUnfold(s, pid, x, Goto(RPut(Upserted(s, s.procs[pid].rec))));
    var s2 := SoloUnfold(s1, pid, x, Goto(Done(Errored(ErrInternal))));
  }

  lemma MailOutcomeRebase(s: State, s1: State, s': State, pid: nat, m: Rec, w: Rec, x: Answers)
    requires w == m.(rev := w.rev) && (s1.store == s.store || s1.store == s.store[w.id := w]) && s1.events == s.events
    requires MailOutcome(s1, s', pid, w, x)
    ensures MailOutcome(s, s', pid, m, x)
  {
    assert AfterMail(w, x) == AfterMail(m, x);
  }

  lemma SoloWrites(s: State, pid: nat, x: Answers)
    requires Prepared(s, pid, x) && s.procs[pid].RPut?
    requires PutOutcome(s.store, s.procs[pid].rec).Stored?
    ensures MailOutcome(s, Solo(s, pid, x), pid, s.procs[pid].rec, x)
  {
    var m := s.procs[pid].rec;
    var w := m.(rev := x[4].novel);
    var s1 := SoloUnfold(s, pid, x, Turn(RClock(w), None, Some(Entry(w, Upsert)), None));
    SoloMails(s1, pid, x);
    MailOutcomeRebase(s, s1, Solo(s, pid, x), pid, m, w, x);
  }

  lemma SoloMails(s: State, pid: nat, x: Answers)
    requires Prepared(s, pid, x) && s.procs[pid].RClock?
    requires var w := s.procs[pid].rec; w.id in s.store && s.store[w.id].rev == w.rev && Invalidity(w).None?
    ensures MailOutcome(s, Solo(s, pid, x), pid, s.procs[pid].rec, x)
  {
    var s1 := SoloUnfold(s, pid, x, Goto(RMail(s.procs[pid].rec, x[3].at)));
    SoloSends(s1, pid, x);
  }

  lemma SoloSends(s: State, pid: nat, x: Answers)
    requires Prepared(s, pid, x) && s.procs[pid].RMail? && s.procs[pid].at == x[3].at
    requires var w := s.procs[pid].rec; w.id in s.store && s.store[w.id].rev == w.rev && Invalidity(w).None?
    ensures MailOutcome(s, Solo(s, pid, x), pid, s.procs[pid].rec, x)
  {
    var w := s.procs[pid].rec;
    var b := if x[2].ok then MailSent(w, x[3].at) else MailFailed(w, x[2].text);
    assert AfterMail(w, x) == b.(rev := x[1].novel) && Invalidity(b).None?;
    var s1 := SoloUnfold(s, pid, x, Turn(RBook(b, x[2].ok), Some(Mailed(w.token, w.email, x[2].ok)), None, None));
    SoloMailBooks(s1, pid, x);
  }

  lemma SoloMailBooks(s: State, pid: nat, x: Answers)
    requires Prepared(s, pid, x) && s.procs[pid].RBook?
    requires var b := s.procs[pid].rec; b.id in s.store && s.store[b.id].rev == b.rev && Invalidity(b).None?
    ensures var b, s' := s.procs[pid].rec, Solo(s, pid, x);
            && pid in s'.procs && s'.store == s.store[b.id := b.(rev := x[1].novel)] && s'.events == s.events
            && s'.procs[pid]
               == Done(if s.procs[pid].sent then ReceiveOk(b.(rev := x[1].novel)) else Errored(ErrInternal))
  {
    var b := s.procs[pid].rec.(rev := x[1].novel);
    var s1 := SoloUnfold(s, pid, x, Turn(Done(if s.procs[pid].sent then ReceiveOk(b) else Errored(ErrInternal)), None,
                         Some(Entry(b, Bookkeeping)), None));
  }

  /** After a Receive that was admitted, the token the subject's record had before is gone:
      no later lookup finds it, even when the new email did not go out. */
  lemma ReceiveReplacesToken(s: State, pid: nat, x: Answers, subject: Address, email: string, now: Time)
    requires Inv(s) && Prepared(s, pid, x) && s.procs[pid].RGate? && subject != "" && DocID(subject) in s.store
    requires Gates(s.cfg.identity, s.procs[pid].env, x[6].verdicts) == Admitted(subject, email) && x[6].ok
    ensures var previous := s.store[DocID(subject)].token;
            ByToken(Solo(s, pid, x).store, previous, now) == Missed(ErrNotFound)
  {
    SoloReceives(s, pid, x);
    StoredFacts(s, DocID(subject));
    TokensDistinct(s);
    var w := AfterMail(Minted(subject, email, s.procs[pid].env, x[6].novel, x[6].at), x);
    ReplacedToken(s.store, DocID(subject), w, now);
  }

  lemma ReplacedToken(store: map<string, Rec>, id: string, w: Rec, now: Time)
    requires DistinctTokens(store) && id in store && w.token != store[id].token
    ensures ByToken(store[id := w], store[id].token, now) == Missed(ErrNotFound)
  {
    var after := store[id := w];
    assert forall d :: d in after ==> after[d].token != store[id].token;
  }
}
