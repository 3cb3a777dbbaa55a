/** What a process carries with it: the request it serves, and the lookup that let it
    deliver. */
module Requests {
  import opened Envelopes
  import opened Records
  import opened Protocol
  import opened Invariant
  import opened Steps
  import opened Runs

  /** The copy of a record a process works on. */
  predicate Holds(p: Proc, r: Rec) {
    && (p.RGet? || p.RPut? || p.RClock? || p.RMail? || p.RBook? || p.CAttest? || p.CPut?
        || p.DSign? || p.DStamp? || p.DSend? || p.DBook?)
    && p.rec == r
  }

  predicate Delivering(p: Proc) {
    p.DSign? || p.DStamp? || p.DSend? || p.DBook?
  }

  // ----- The request -----

  /** The process works on what the request asked for, and no other record. */
  predicate For(p: Proc, request: Proc) {
    p == request || p.Dead? || (p.Done? && p.outcome.Errored?)
    || match request
       case RGate(env) =>
         || ((p.RGet? || p.RPut? || p.RClock? || p.RMail? || p.RBook?) && p.rec.envelope == Some(env))
         || (p.Done? && p.outcome.ReceiveOk? && p.outcome.rec.envelope == Some(env))
       case HGate(token, _) =>
         || ((p.CLookup? || p.CReread?) && p.token == token)
         || ((p.CAttest? || p.CPut? || (Delivering(p) && p.who.ByConfirm?)) && p.rec.token == token)
         || (p.Done? && (p.outcome == Unticked || (p.outcome.ConfirmOk? && p.outcome.rec.token == token)))
       case XGet(address) =>
         || (Delivering(p) && p.who.ByRedeliver? && p.rec.address == address)
         || (p.Done? && p.outcome.RedeliverOk? && p.outcome.rec.address == address)
       case _ => false
  }

  lemma ReceiveStaysFor(s: State, p: Proc, c: Choice, request: Proc)
    requires Live(p) && request.RGate? && For(p, request)
    ensures For(TurnOf(s, p, c).next, request)
  {
  }

  lemma ConfirmStaysFor(s: State, p: Proc, c: Choice, request: Proc)
    requires Live(p) && request.HGate? && For(p, request)
    ensures For(TurnOf(s, p, c).next, request)
  {
  }

  lemma RedeliverStaysFor(s: State, p: Proc, c: Choice, request: Proc)
    requires Live(p) && request.XGet? && For(p, request)
    requires var id := DocID(request.address); id in s.store ==> s.store[id].address == request.address
    ensures For(TurnOf(s, p, c).next, request)
  {
  }

  lemma StoredAddress(s: State, address: Address)
    requires Inv(s) && DocID(address) in s.store
    ensures s.store[DocID(address)].address == address
  {
    StoredFacts(s, DocID(address));
    DocIDInjective(s.store[DocID(address)].address, address);
  }

  lemma TurnStaysFor(s: State, p: Proc, c: Choice, request: Proc)
    requires Inv(s) && Live(p) && Request(request) && For(p, request)
    ensures For(TurnOf(s, p, c).next, request)
  {
    match request
    case RGate(_) => ReceiveStaysFor(s, p, c, request);
    case HGate(_, _) => ConfirmStaysFor(s, p, c, request);
    case XGet(address) =>
      if DocID(address) in s.store {
        StoredAddress(s, address);
      }
      RedeliverStaysFor(s, p, c, request);
  }

  /** From its arrival on, a process only ever works for its own request. */
  lemma {:induction false} StaysFor(s: State, acts: seq<Action>, j: nat, n: nat)
    requires Inv(s) && ValidRun(s, acts) && j < n <= |acts| && acts[j].Start?
    ensures acts[j].pid in StateAt(s, acts, n).procs
    ensures For(StateAt(s, acts, n).procs[acts[j].pid], acts[j].request)
    decreases n
  {
    var pid, before := acts[j].pid, StateAt(s, acts, n - 1);
    StateAtNext(s, acts, n - 1);
    if j < n - 1 {
      StaysFor(s, acts, j, n - 1);
      StateAtNext(s, acts, j);
      if acts[n - 1].Move? && acts[n - 1].pid == pid {
        StateAtInv(s, acts, n - 1);
        TurnStaysFor(before, before.procs[pid], acts[n - 1].choice, acts[j].request);
      }
    }
  }

  // ----- The lookup -----

  /** The process goes on from a lookup of `token` made at `seenAt`. */
  predicate Saw(p: Proc, token: string, seenAt: Time) {
    || ((p.CAttest? || p.CPut?) && p.rec.token == token && p.seenAt == seenAt)
    || (Delivering(p) && p.rec.token == token && p.who.ByConfirm? && p.who.seenAt == seenAt)
  }

  /** Action `k` is Confirm's lookup of the token, first or second, by process `pid`: it
      finds the record, unexpired, at the time `seenAt`. */
  ghost predicate LooksUpAt(s: State, acts: seq<Action>, k: nat, pid: nat, token: string, seenAt: Time)
    requires ValidRun(s, acts) && k < |acts|
  {
    var before := StateAt(s, acts, k);
    && acts[k].Move? && acts[k].pid == pid && acts[k].choice.at == seenAt
    && pid in before.procs && (before.procs[pid] == CLookup(token) || before.procs[pid] == CReread(token))
    && ByToken(before.store, token, seenAt).Found?
  }

  lemma SawBefore(s: State, p: Proc, c: Choice, token: string, seenAt: Time)
    requires Live(p) && Saw(TurnOf(s, p, c).next, token, seenAt)
    ensures || Saw(p, token, seenAt)
            || (&& (p == CLookup(token) || p == CReread(token))
                && c.at == seenAt && ByToken(s.store, token, seenAt).Found?)
  {
  }

  ghost predicate SawAt(s: State, acts: seq<Action>, n: nat, pid: nat, token: string, seenAt: Time)
    requires ValidRun(s, acts) && n <= |acts|
  {
    pid in StateAt(s, acts, n).procs && Saw(StateAt(s, acts, n).procs[pid], token, seenAt)
  }

  lemma SawOrLooksUp(s: State, acts: seq<Action>, n: nat, pid: nat, token: string, seenAt: Time)
    requires ValidRun(s, acts) && n < |acts| && SawAt(s, acts, n + 1, pid, token, seenAt)
    ensures SawAt(s, acts, n, pid, token, seenAt) || LooksUpAt(s, acts, n, pid, token, seenAt)
  {
    var before := StateAt(s, acts, n);
    StateAtNext(s, acts, n);
    if acts[n].Move? && acts[n].pid == pid {
      SawBefore(before, before.procs[pid], acts[n].choice, token, seenAt);
    }
  }

  /** Whoever goes on from a lookup has made it, and no other since. */
  lemma {:induction false} LookupMade(s: State, acts: seq<Action>, n: nat, pid: nat, token: string, seenAt: Time)
    returns (k: nat)
    requires ValidRun(s, acts) && n <= |acts| && s.procs == map[] && SawAt(s, acts, n, pid, token, seenAt)
    ensures k < n && LooksUpAt(s, acts, k, pid, token, seenAt)
    ensures forall m :: k < m <= n ==> SawAt(s, acts, m, pid, token, seenAt)
    decreases n
  {
    assert n > 0;
    SawOrLooksUp(s, acts, n - 1, pid, token, seenAt);
    if SawAt(s, acts, n - 1, pid, token, seenAt) {
      k := LookupMade(s, acts, n - 1, pid, token, seenAt);
    } else {
      k := n - 1;
    }
  }
}
