/** What an error means: over every interleaving, a request fails with an error only for that
    error's reason. */
module Failures {
  import opened Envelopes
  import opened Records
  import opened MemoryStore
  import opened Protocol
  import opened Invariant
  import opened Steps
  import opened Runs
  import opened Requests
  import opened Provenance

  /** No stored record has the token. */
  ghost predicate Unknown(s: State, token: string) {
    forall id :: id in s.store ==> s.store[id].token != token
  }

  /** A stored record with the token is 72 hours old, or older. */
  ghost predicate Lapsed(s: State, token: string, now: Time) {
    exists id :: id in s.store && s.store[id].token == token && now >= s.store[id].receivedAt + 72 * HOUR
  }

  lemma MissedFor(s: State, token: string, now: Time)
    requires Inv(s) && ByToken(s.store, token, now).Missed?
    ensures var e := ByToken(s.store, token, now).error;
            (e == ErrNotFound && Unknown(s, token)) || (e == ErrGone && Lapsed(s, token, now))
  {
    LookupExactly(s, token, now);
  }

  // ----- One step -----

  /** A lookup that misses. */
  ghost predicate LookupFails(s: State, p: Proc, c: Choice, e: Error) {
    && (p.HGate? || p.CLookup? || p.CReread?)
    && ((e == ErrNotFound && Unknown(s, p.token)) || (e == ErrGone && Lapsed(s, p.token, c.at)))
  }

  lemma LookupErrs(s: State, p: Proc, c: Choice, e: Error)
    requires Inv(s) && (p.HGate? || p.CLookup? || p.CReread?) && ConfirmTurn(s, p, c).next == Done(Errored(e))
    ensures LookupFails(s, p, c, e)
  {
    MissedFor(s, p.token, c.at);
  }

  lemma ConfirmWriteErrs(s: State, pid: nat, c: Choice)
    requires Inv(s) && Enabled(s, Move(pid, c)) && s.procs[pid].CPut?
    ensures !ConfirmTurn(s, s.procs[pid], c).next.Done?
  {
    HolderFacts(s, pid, c);
    ValidWhenAttested(s.written[s.procs[pid].rec.rev], s.procs[pid].rec);
  }

  lemma ValidWhenAttested(b: Rec, r: Rec)
    requires Invalidity(b).None? && r.confirmedAt.Some? && r == Attested(b, r.confirmedAt.value)
    ensures Invalidity(r).None?
  {
  }

  lemma DeliveryErrs(s: State, p: Proc, c: Choice, e: Error)
    requires Delivering(p) && DeliverTurn(s, p, c).next == Done(Errored(e))
    ensures p.DBook? && !p.sent && e == if p.who.ByConfirm? then ErrUnavailable else ErrInternal
  {
  }

  lemma ConfirmErrs(s: State, pid: nat, c: Choice, request: Proc, e: Error)
    requires Inv(s) && Enabled(s, Move(pid, c)) && request.HGate? && For(s.procs[pid], request)
    requires TurnOf(s, s.procs[pid], c).next == Done(Errored(e))
    ensures var p := s.procs[pid];
            || (LookupFails(s, p, c, e) && p.token == request.token)
            || (p.DBook? && !p.sent && e == ErrUnavailable && p.rec.token == request.token)
  {
    var p := s.procs[pid];
    if Delivering(p) {
      DeliveryErrs(s, p, c, e);
    } else if p.CPut? {
      ConfirmWriteErrs(s, pid, c);
    } else if !p.CAttest? {
      LookupErrs(s, p, c, e);
    }
  }

  lemma RedeliverErrs(s: State, pid: nat, c: Choice, request: Proc, e: Error)
    requires Enabled(s, Move(pid, c)) && request.XGet? && For(s.procs[pid], request)
    requires TurnOf(s, s.procs[pid], c).next == Done(Errored(e))
    ensures var p, id := s.procs[pid], "verification:" + request.address;
            || (p == request && e == ErrNotFound && id !in s.store)
            || (p == request && e == ErrValidation && id in s.store && s.store[id].confirmedAt.None?)
            || (p.DBook? && !p.sent && e == ErrInternal && p.rec.address == request.address)
  {
    if Delivering(s.procs[pid]) {
      DeliveryErrs(s, s.procs[pid], c, e);
    }
  }

  lemma ReceiveErrs(s: State, pid: nat, c: Choice, request: Proc, e: Error)
    requires Enabled(s, Move(pid, c)) && request.RGate? && For(s.procs[pid], request)
    requires TurnOf(s, s.procs[pid], c).next == Done(Errored(e))
    ensures var p, g := s.procs[pid], Gates(s.cfg.identity, request.env, c.verdicts);
            || (p == request && g == Refused(e))
            || (p == request && g.Admitted? && !c.ok && e == ErrInternal)
            || (p.RPut? && !PutOutcome(s.store, p.rec).Stored? && e == ErrInternal)
            || (p.RBook? && !p.sent && e == ErrInternal)
  {
  }

  // ----- Whole runs -----

  lemma {:induction false} ProcsStay(s: State, acts: seq<Action>, k: nat, n: nat, pid: nat)
    requires ValidRun(s, acts) && k <= n <= |acts| && pid in StateAt(s, acts, k).procs
    ensures pid in StateAt(s, acts, n).procs
    decreases n - k
  {
    if k < n {
      ProcsStay(s, acts, k, n - 1, pid);
      StateAtNext(s, acts, n - 1);
    }
  }

  /** The request that started at action `j` has failed with `e`. */
  ghost predicate Fails(cfg: Config, acts: seq<Action>, j: nat, e: Error)
    requires ValidRun(Init(cfg), acts)
  {
    && j < |acts| && acts[j].Start? && acts[j].pid in Run(Init(cfg), acts).procs
    && Run(Init(cfg), acts).procs[acts[j].pid] == Done(Errored(e))
  }

  lemma FailedAt(cfg: Config, acts: seq<Action>, j: nat, e: Error) returns (k: nat, p: Proc)
    requires ValidRun(Init(cfg), acts) && Fails(cfg, acts, j, e)
    ensures j < k < |acts| && Takes(Init(cfg), acts, k, acts[j].pid, p, Done(Errored(e)))
    ensures Inv(StateAt(Init(cfg), acts, k)) && Enabled(StateAt(Init(cfg), acts, k), acts[k])
    ensures For(p, acts[j].request) && StateAt(Init(cfg), acts, k).cfg == cfg
  {
    InvInit(cfg);
    StateAtEnd(Init(cfg), acts);
    k, p := CameBy(Init(cfg), acts, |acts|, acts[j].pid);
    StateAtNext(Init(cfg), acts, j);
    if k <= j {
      ProcsStay(Init(cfg), acts, k, j, acts[j].pid);
    }
    StateAtInv(Init(cfg), acts, k);
    StateAtNext(Init(cfg), acts, k);
    StaysFor(Init(cfg), acts, j, k);
    GrowsAlong(Init(cfg), acts, 0, k);
  }

  /** The delivery has failed: at an earlier action of the process that makes action `k`, the
      envelope could not be countersigned, or the post was not accepted. */
  ghost predicate DeliveryFailed(s: State, acts: seq<Action>, m: nat, k: nat, token: string)
    requires ValidRun(s, acts) && k < |acts|
  {
    && m < k && acts[m].Move? && acts[k].Move? && acts[m].pid == acts[k].pid
    && acts[m].pid in StateAt(s, acts, m).procs
    && var p := StateAt(s, acts, m).procs[acts[m].pid];
       (p.DSign? || (p.DSend? && !acts[m].choice.ok)) && p.rec.token == token
  }

  lemma UnsentFailed(cfg: Config, acts: seq<Action>, k: nat) returns (m: nat)
    requires ValidRun(Init(cfg), acts) && k < |acts| && acts[k].Move? && acts[k].pid in StateAt(Init(cfg), acts, k).procs
    requires var p := StateAt(Init(cfg), acts, k).procs[acts[k].pid]; p.DBook? && !p.sent
    ensures DeliveryFailed(Init(cfg), acts, m, k, StateAt(Init(cfg), acts, k).procs[acts[k].pid].rec.token)
  {
    var q := StateAt(Init(cfg), acts, k).procs[acts[k].pid];
    var p;
    m, p := CameBy(Init(cfg), acts, k, acts[k].pid);
    BackFromBook(StateAt(Init(cfg), acts, m), p, acts[m].choice, q.rec, q.who, q.sent);
  }

  /** A POST of a token's link fails only because no stored record has the token, because the
      stored one is 72 hours old, or, with the unavailable error, because its own delivery has
      failed; a lost write never fails it. */
  lemma WhyConfirmFails(cfg: Config, acts: seq<Action>, j: nat, e: Error) returns (k: nat, m: nat)
    requires ValidRun(Init(cfg), acts) && Fails(cfg, acts, j, e) && acts[j].request.HGate?
    ensures j < k < |acts| && acts[k].Move? && acts[k].pid == acts[j].pid
    ensures var before, token := StateAt(Init(cfg), acts, k), acts[j].request.token;
            || (e == ErrNotFound && Unknown(before, token))
            || (e == ErrGone && Lapsed(before, token, acts[k].choice.at))
            || (e == ErrUnavailable && DeliveryFailed(Init(cfg), acts, m, k, token))
  {
    var p;
    k, p := FailedAt(cfg, acts, j, e);
    ConfirmErrs(StateAt(Init(cfg), acts, k), acts[j].pid, acts[k].choice, acts[j].request, e);
    m := 0;
    if p.DBook? {
      m := UnsentFailed(cfg, acts, k);
    }
  }

  /** A Redeliver fails only because nothing is stored for the address, because what is stored
      is not confirmed, or, with the internal error, because its own delivery has failed. */
  lemma WhyRedeliverFails(cfg: Config, acts: seq<Action>, j: nat, e: Error) returns (k: nat, m: nat, token: string)
    requires ValidRun(Init(cfg), acts) && Fails(cfg, acts, j, e) && acts[j].request.XGet?
    ensures j < k < |acts| && acts[k].Move? && acts[k].pid == acts[j].pid
    ensures var before, id := StateAt(Init(cfg), acts, k), "verification:" + acts[j].request.address;
            || (e == ErrNotFound && id !in before.store)
            || (e == ErrValidation && id in before.store && before.store[id].confirmedAt.None?)
            || (e == ErrInternal && DeliveryFailed(Init(cfg), acts, m, k, token))
  {
    var p;
    k, p := FailedAt(cfg, acts, j, e);
    RedeliverErrs(StateAt(Init(cfg), acts, k), acts[j].pid, acts[k].choice, acts[j].request, e);
    m, token := 0, "";
    if p.DBook? {
      m := UnsentFailed(cfg, acts, k);
      token := p.rec.token;
    }
  }

  /** A Receive fails only by its checks, or, with the internal error, because it got no token,
      because its write was refused, or because its mail did not go out. */
  lemma WhyReceiveFails(cfg: Config, acts: seq<Action>, j: nat, e: Error) returns (k: nat, m: nat)
    requires ValidRun(Init(cfg), acts) && Fails(cfg, acts, j, e) && acts[j].request.RGate?
    ensures j < k < |acts| && acts[k].Move? && acts[k].pid == acts[j].pid
    ensures var before, c := StateAt(Init(cfg), acts, k), acts[k].choice;
            && acts[k].pid in before.procs
            && var p, g := before.procs[acts[k].pid], Gates(cfg.identity, acts[j].request.env, c.verdicts);
               || (p == acts[j].request && g == Refused(e))
               || (p == acts[j].request && g.Admitted? && !c.ok && e == ErrInternal)
               || (p.RPut? && !PutOutcome(before.store, p.rec).Stored? && e == ErrInternal)
               || (p.RBook? && e == ErrInternal && MailFails(Init(cfg), acts, m, k))
  {
    var p, o;
    k, p := FailedAt(cfg, acts, j, e);
    ReceiveErrs(StateAt(Init(cfg), acts, k), acts[j].pid, acts[k].choice, acts[j].request, e);
    m := 0;
    if p.RBook? {
      m, o := CameBy(Init(cfg), acts, k, acts[k].pid);
      BackFromNote(StateAt(Init(cfg), acts, m), o, acts[m].choice, p.rec, p.sent);
    }
  }

  /** At an earlier action of the process that makes action `k`, the mail did not go out. */
  ghost predicate MailFails(s: State, acts: seq<Action>, m: nat, k: nat)
    requires ValidRun(s, acts) && k < |acts|
  {
    && m < k && acts[m].Move? && acts[k].Move? && acts[m].pid == acts[k].pid && !acts[m].choice.ok
    && acts[m].pid in StateAt(s, acts, m).procs && StateAt(s, acts, m).procs[acts[m].pid].RMail?
  }
}
