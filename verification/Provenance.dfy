/** Where everything comes from: each stored version told field by field from the version it
    replaces and the actions of its own writer, each post from the actions of its poster. */
module Provenance {
  import opened Envelopes
  import opened Records
  import opened MemoryStore
  import opened Protocol
  import opened Invariant
  import opened Steps
  import opened Runs
  import opened Safety

  // ----- Going back in a run -----

  /** Action `k` takes the process `pid` from step `p` to step `q`. */
  ghost predicate Takes(s: State, acts: seq<Action>, k: nat, pid: nat, p: Proc, q: Proc)
    requires ValidRun(s, acts) && k < |acts|
  {
    var before := StateAt(s, acts, k);
    && acts[k].Move? && acts[k].pid == pid && pid in before.procs && before.procs[pid] == p && Live(p)
    && TurnOf(before, p, acts[k].choice).next == q
  }

  /** A process past its arrival was taken where it is by one of its own actions. */
  lemma {:induction false} CameBy(s: State, acts: seq<Action>, n: nat, pid: nat) returns (k: nat, p: Proc)
    requires ValidRun(s, acts) && n <= |acts| && s.procs == map[] && pid in StateAt(s, acts, n).procs
    requires var q := StateAt(s, acts, n).procs[pid]; !Request(q) && !q.Dead?
    ensures k < n && Takes(s, acts, k, pid, p, StateAt(s, acts, n).procs[pid])
    decreases n
  {
    assert n > 0;
    StateAtNext(s, acts, n - 1);
    if acts[n - 1].Move? && acts[n - 1].pid == pid {
      k, p := n - 1, StateAt(s, acts, n - 1).procs[pid];
    } else {
      k, p := CameBy(s, acts, n - 1, pid);
    }
  }

  lemma {:induction false} GrowsAlong(s: State, acts: seq<Action>, k: nat, n: nat)
    requires Inv(s) && ValidRun(s, acts) && k <= n <= |acts|
    ensures Grows(StateAt(s, acts, k), StateAt(s, acts, n))
    decreases n - k
  {
    if k < n {
      GrowsAlong(s, acts, k, n - 1);
      StateAtInv(s, acts, n - 1);
      StateAtNext(s, acts, n - 1);
      StepKeepsInv(StateAt(s, acts, n - 1), acts[n - 1]);
    }
  }

  // ----- One step back -----

  lemma BackFromPut(s: State, p: Proc, c: Choice, r: Rec, seenAt: Time)
    requires Live(p) && TurnOf(s, p, c).next == CPut(r, seenAt)
    ensures p.CAttest? && r == p.rec.(status := Confirmed, confirmedAt := Some(c.at))
  {
  }

  lemma BackFromBook(s: State, p: Proc, c: Choice, r: Rec, who: Caller, sent: bool)
    requires Live(p) && TurnOf(s, p, c).next == DBook(r, who, sent)
    ensures p.DSign? || p.DSend?
    ensures p.DSign? ==> r == p.rec.(status := Failed, lastDeliveryError := c.text) && !sent
    ensures p.DSend? ==> r == p.rec.(status := if c.ok then Delivered else Failed,
                                     lastDeliveryError := if c.ok then "" else c.text) && sent == c.ok
  {
  }

  lemma BackFromSend(s: State, p: Proc, c: Choice, r: Rec, who: Caller, env: Env, signedAt: Time)
    requires Live(p) && TurnOf(s, p, c).next == DSend(r, who, env, signedAt)
    ensures p.DStamp? && p.env == env && p.signedAt == signedAt
    ensures r == p.rec.(deliveryAttempts := p.rec.deliveryAttempts + 1, lastDeliveryAt := Some(c.at))
  {
  }

  lemma BackFromStamp(s: State, p: Proc, c: Choice, r: Rec, who: Caller, env: Env, signedAt: Time)
    requires Live(p) && TurnOf(s, p, c).next == DStamp(r, who, env, signedAt)
    ensures p == DSign(r, who) && c.ok && signedAt == c.at
    ensures r.envelope.Some? && r.envelope.value.head.Some?
    ensures env == CounterSigned(s.cfg.identity, r.envelope.value, r.address, c.at)
  {
  }

  lemma BackFromNote(s: State, p: Proc, c: Choice, r: Rec, sent: bool)
    requires Live(p) && TurnOf(s, p, c).next == RBook(r, sent)
    ensures p.RMail? && sent == c.ok
    ensures r == if c.ok then p.rec.(emailSentAt := Some(p.at), lastEmailError := "")
                 else p.rec.(lastEmailError := c.text)
  {
  }

  lemma BackFromMail(s: State, p: Proc, c: Choice, r: Rec, at: Time)
    requires Live(p) && TurnOf(s, p, c).next == RMail(r, at)
    ensures p == RClock(r) && at == c.at
  {
  }

  lemma BackFromUpsert(s: State, p: Proc, c: Choice, r: Rec)
    requires Live(p) && TurnOf(s, p, c).next == RPut(r)
    ensures p.RGet? && r == p.rec.(rev := r.rev)
  {
  }

  lemma BackFromGet(s: State, p: Proc, c: Choice, r: Rec)
    requires Live(p) && TurnOf(s, p, c).next == RGet(r)
    ensures p.RGate? && Gates(s.cfg.identity, p.env, c.verdicts).Admitted?
    ensures var g := Gates(s.cfg.identity, p.env, c.verdicts); FirstVersion(r, g.subject, g.email, p.env, c.novel, c.at)
  {
  }

  /** The record that a Receive of `env` mints for `subject` under `token` at `now`. */
  predicate FirstVersion(r: Rec, subject: Address, email: string, env: Env, token: string, now: Time) {
    && r.id == "verification:" + subject && r.address == subject && r.email == email
    && r.token == token && r.tokenExpiresAt == now + 72 * HOUR && r.receivedAt == now && r.status == Pending
    && r.envelope == Some(env)
    && (env.head.Some? ==>
          && r.envelopeUUID == env.head.value.uuid
          && r.envelopeDigest == if env.head.value.digest.None? then ""
                                 else env.head.value.digest.value.algorithm + ":" + env.head.value.digest.value.value)
    && r.emailSentAt.None? && r.lastEmailError == "" && r.confirmedAt.None?
    && r.deliveryAttempts == 0 && r.lastDeliveryAt.None? && r.lastDeliveryError == ""
  }

  // ----- Every stored version -----

  /** Action `l` is a Put that succeeds. */
  ghost predicate Wins(s: State, acts: seq<Action>, l: nat)
    requires ValidRun(s, acts) && l < |acts|
  {
    var before := StateAt(s, acts, l);
    && acts[l].Move? && acts[l].pid in before.procs && Writing(before.procs[acts[l].pid])
    && PutOutcome(before.store, before.procs[acts[l].pid].rec).Stored?
  }

  /** Action `k`, made at step `p`, is an earlier one of the process that makes action `l`. */
  ghost predicate Earlier(s: State, acts: seq<Action>, k: nat, l: nat, p: Proc)
    requires ValidRun(s, acts) && l < |acts|
  {
    && k < l && acts[k].Move? && acts[l].Move? && acts[k].pid == acts[l].pid
    && acts[k].pid in StateAt(s, acts, k).procs && StateAt(s, acts, k).procs[acts[k].pid] == p
  }

  /** Action `l` stores `next`, under a new revision, in place of the version `b`. */
  ghost predicate Replaces(s: State, acts: seq<Action>, l: nat, b: Rec, next: Rec)
    requires ValidRun(s, acts) && l < |acts|
  {
    var before := StateAt(s, acts, l);
    && acts[l].Move? && b.id in before.store && before.store[b.id] == b
    && StateAt(s, acts, l + 1).store == before.store[b.id := next.(rev := acts[l].choice.novel)]
  }

  lemma CopyAt(s: State, acts: seq<Action>, k: nat, l: nat, b: Rec)
    requires Inv(s) && ValidRun(s, acts) && k <= l <= |acts| && Copy(StateAt(s, acts, k), b)
    ensures Copy(StateAt(s, acts, l), b)
  {
    GrowsAlong(s, acts, k, l);
  }

  lemma WinStores(s: State, acts: seq<Action>, l: nat)
    requires ValidRun(s, acts) && l < |acts| && Wins(s, acts, l)
    ensures var before := StateAt(s, acts, l);
            var r := before.procs[acts[l].pid].rec;
            StateAt(s, acts, l + 1).store == before.store[r.id := r.(rev := acts[l].choice.novel)]
  {
    StateAtNext(s, acts, l);
    PutTakesEffect(StateAt(s, acts, l), acts[l].pid, acts[l].choice);
  }

  /** A write by a process that has held the version `b` replaces `b`. */
  lemma WinReplaces(s: State, acts: seq<Action>, k: nat, l: nat, b: Rec)
    requires Inv(s) && ValidRun(s, acts) && k <= l < |acts| && Wins(s, acts, l) && Copy(StateAt(s, acts, k), b)
    requires var p := StateAt(s, acts, l).procs[acts[l].pid]; !p.RPut? && p.rec.rev == b.rev && p.rec.id == b.id
    ensures Replaces(s, acts, l, b, StateAt(s, acts, l).procs[acts[l].pid].rec)
  {
    CopyAt(s, acts, k, l, b);
    StateAtInv(s, acts, l);
    PutReplacesBase(StateAt(s, acts, l), acts[l].pid);
    WinStores(s, acts, l);
  }

  lemma HeldCopy(s: State, acts: seq<Action>, k: nat, pid: nat)
    requires Inv(s) && ValidRun(s, acts) && k <= |acts| && pid in StateAt(s, acts, k).procs
    requires var p := StateAt(s, acts, k).procs[pid]; p.CAttest? || p.DSign? || p.DStamp? || p.RClock?
    ensures Copy(StateAt(s, acts, k), StateAt(s, acts, k).procs[pid].rec)
  {
    StateAtInv(s, acts, k);
    var w := StateAt(s, acts, k);
    assert ProcInv(w, w.procs[pid]);
  }

  /** What Confirm's write stores: the version it looked up, confirmed, at the moment at which
      its own process declared it confirmed. */
  lemma ConfirmationWritten(cfg: Config, acts: seq<Action>, l: nat) returns (k: nat, b: Rec, seenAt: Time)
    requires ValidRun(Init(cfg), acts) && l < |acts| && Wins(Init(cfg), acts, l)
    requires StateAt(Init(cfg), acts, l).procs[acts[l].pid].CPut?
    ensures Earlier(Init(cfg), acts, k, l, CAttest(b, seenAt))
    ensures Replaces(Init(cfg), acts, l, b, b.(status := Confirmed, confirmedAt := Some(acts[k].choice.at)))
  {
    var s, pid := Init(cfg), acts[l].pid;
    var p;
    var q := StateAt(s, acts, l).procs[pid];
    InvInit(cfg);
    k, p := CameBy(s, acts, l, pid);
    BackFromPut(StateAt(s, acts, k), p, acts[k].choice, q.rec, q.seenAt);
    b, seenAt := p.rec, p.seenAt;
    HeldCopy(s, acts, k, pid);
    WinReplaces(s, acts, k, l, b);
  }

  /** What a delivery was before its post. */
  lemma PostPrepared(cfg: Config, acts: seq<Action>, m: nat, pid: nat) returns (j: nat, k: nat, b: Rec)
    requires ValidRun(Init(cfg), acts) && m < |acts| && acts[m].Move? && acts[m].pid == pid
    requires pid in StateAt(Init(cfg), acts, m).procs && StateAt(Init(cfg), acts, m).procs[pid].DSend?
    ensures var p := StateAt(Init(cfg), acts, m).procs[pid];
            && j < k < m && acts[j].Move? && acts[j].choice.ok && p.signedAt == acts[j].choice.at
            && Earlier(Init(cfg), acts, j, m, DSign(b, p.who))
            && Earlier(Init(cfg), acts, k, m, DStamp(b, p.who, p.env, p.signedAt))
            && Copy(StateAt(Init(cfg), acts, k), b)
            && p.rec == b.(deliveryAttempts := b.deliveryAttempts + 1, lastDeliveryAt := Some(acts[k].choice.at))
            && b.envelope.Some? && b.envelope.value.head.Some?
            && p.env == CounterSigned(cfg.identity, b.envelope.value, b.address, p.signedAt)
  {
    var s := Init(cfg);
    var q := StateAt(s, acts, m).procs[pid];
    var p, o;
    InvInit(cfg);
    k, p := CameBy(s, acts, m, pid);
    BackFromSend(StateAt(s, acts, k), p, acts[k].choice, q.rec, q.who, q.env, q.signedAt);
    b := p.rec;
    HeldCopy(s, acts, k, pid);
    j, o := CameBy(s, acts, k, pid);
    BackFromStamp(StateAt(s, acts, j), o, acts[j].choice, b, q.who, q.env, q.signedAt);
    GrowsAlong(s, acts, 0, j);
  }

  /** What a delivery's write stores: the version the delivery set out from, with its own
      outcome. Either signing failed, at action `m`, and the version is failed, with that
      error, and no attempt counted; or the envelope was countersigned at action `j`, the
      attempt was counted, at its time, at action `k`, and posted at `m`, whose answer and
      error are stored. */
  lemma OutcomeWritten(cfg: Config, acts: seq<Action>, l: nat) returns (j: nat, k: nat, m: nat, b: Rec, p: Proc)
    requires ValidRun(Init(cfg), acts) && l < |acts| && Wins(Init(cfg), acts, l)
    requires StateAt(Init(cfg), acts, l).procs[acts[l].pid].DBook?
    ensures Earlier(Init(cfg), acts, m, l, p) && (p.DSign? || p.DSend?)
    ensures var c := acts[m].choice;
            p.DSign? ==>
              && b == p.rec
              && Replaces(Init(cfg), acts, l, b, b.(status := Failed, lastDeliveryError := c.text))
    ensures var c := acts[m].choice;
            p.DSend? ==>
              && j < k < m && p.rec.token == b.token && Earlier(Init(cfg), acts, j, m, DSign(b, p.who))
              && Earlier(Init(cfg), acts, k, m, DStamp(b, p.who, p.env, p.signedAt))
              && Replaces(Init(cfg), acts, l, b,
                          b.(deliveryAttempts := b.deliveryAttempts + 1, lastDeliveryAt := Some(acts[k].choice.at),
                             status := if c.ok then Delivered else Failed,
                             lastDeliveryError := if c.ok then "" else c.text))
  {
    var s, pid := Init(cfg), acts[l].pid;
    var q := StateAt(s, acts, l).procs[pid];
    InvInit(cfg);
    m, p := CameBy(s, acts, l, pid);
    BackFromBook(StateAt(s, acts, m), p, acts[m].choice, q.rec, q.who, q.sent);
    j, k, b := 0, 0, p.rec;
    if p.DSign? {
      HeldCopy(s, acts, m, pid);
      WinReplaces(s, acts, m, l, b);
    } else {
      j, k, b := PostPrepared(cfg, acts, m, pid);
      WinReplaces(s, acts, k, l, b);
    }
  }

  /** What a Receive's note stores: the version its own process has stored, with the time of
      the mail, taken at action `k`, once it went out at `m`, or else its error. */
  lemma NoteWritten(cfg: Config, acts: seq<Action>, l: nat) returns (k: nat, m: nat, b: Rec)
    requires ValidRun(Init(cfg), acts) && l < |acts| && Wins(Init(cfg), acts, l)
    requires StateAt(Init(cfg), acts, l).procs[acts[l].pid].RBook?
    ensures k < m < l && acts[k].Move? && Earlier(Init(cfg), acts, k, l, RClock(b))
    ensures Earlier(Init(cfg), acts, m, l, RMail(b, acts[k].choice.at))
    ensures var c := acts[m].choice;
            Replaces(Init(cfg), acts, l, b,
                     if c.ok then b.(emailSentAt := Some(acts[k].choice.at), lastEmailError := "")
                     else b.(lastEmailError := c.text))
  {
    var s, pid := Init(cfg), acts[l].pid;
    var q := StateAt(s, acts, l).procs[pid];
    var p, o;
    InvInit(cfg);
    m, p := CameBy(s, acts, l, pid);
    BackFromNote(StateAt(s, acts, m), p, acts[m].choice, q.rec, q.sent);
    b := p.rec;
    k, o := CameBy(s, acts, m, pid);
    BackFromMail(StateAt(s, acts, k), o, acts[k].choice, b, p.at);
    HeldCopy(s, acts, k, pid);
    WinReplaces(s, acts, k, l, b);
  }

  /** What a Receive's upsert stores, for the document of the subject: a record that starts
      over, whatever was stored before, with the token, receipt time and expiry of its own
      checks, made at action `k`. */
  lemma UpsertWritten(cfg: Config, acts: seq<Action>, l: nat) returns (k: nat, env: Env, first: Rec)
    requires ValidRun(Init(cfg), acts) && l < |acts| && Wins(Init(cfg), acts, l)
    requires StateAt(Init(cfg), acts, l).procs[acts[l].pid].RPut?
    ensures Earlier(Init(cfg), acts, k, l, RGate(env)) && first.rev == acts[l].choice.novel
    ensures StateAt(Init(cfg), acts, l + 1).store == StateAt(Init(cfg), acts, l).store[first.id := first]
    ensures var c := acts[k].choice;
            && Gates(cfg.identity, env, c.verdicts).Admitted?
            && var g := Gates(cfg.identity, env, c.verdicts);
               FirstVersion(first, g.subject, g.email, env, c.novel, c.at)
  {
    var s, pid := Init(cfg), acts[l].pid;
    var q := StateAt(s, acts, l).procs[pid];
    var p, o, m;
    InvInit(cfg);
    m, p := CameBy(s, acts, l, pid);
    BackFromUpsert(StateAt(s, acts, m), p, acts[m].choice, q.rec);
    k, o := CameBy(s, acts, m, pid);
    BackFromGet(StateAt(s, acts, k), o, acts[k].choice, p.rec);
    GrowsAlong(s, acts, 0, k);
    env, first := o.env, q.rec.(rev := acts[l].choice.novel);
    WinStores(s, acts, l);
  }

  /** Nothing else ever changes the store. */
  lemma OnlyWinsWrite(s: State, acts: seq<Action>, l: nat)
    requires ValidRun(s, acts) && l < |acts| && !Wins(s, acts, l)
    ensures StateAt(s, acts, l + 1).store == StateAt(s, acts, l).store
  {
    StateAtNext(s, acts, l);
  }

  // ----- What a stored record says -----

  /** What a record can say of its past. */
  datatype Mark = Declared(at: Time) | Attempted(at: Time) | MailedAt(at: Time) | MailError(text: string)
                | DeliveryError(text: string)

  predicate Says(r: Rec, mark: Mark) {
    match mark
    case Declared(at) => r.confirmedAt == Some(at)
    case Attempted(at) => r.lastDeliveryAt == Some(at)
    case MailedAt(at) => r.emailSentAt == Some(at)
    case MailError(text) => r.lastEmailError == text != ""
    case DeliveryError(text) => r.lastDeliveryError == text != ""
  }

  /** Action `k`, on a record with the token, is the one that the mark speaks of: the moment
      of Confirm's declaration, of a delivery's attempt or of a mail, or the failure of a mail,
      of a countersigning or of a post. */
  ghost predicate Leaves(s: State, acts: seq<Action>, k: nat, token: string, mark: Mark)
    requires ValidRun(s, acts) && k < |acts|
  {
    var before := StateAt(s, acts, k);
    && acts[k].Move? && acts[k].pid in before.procs
    && var p, c := before.procs[acts[k].pid], acts[k].choice;
       match mark
       case Declared(at) => p.CAttest? && p.rec.token == token && c.at == at
       case Attempted(at) => p.DStamp? && p.rec.token == token && c.at == at
       case MailedAt(at) => p.RClock? && p.rec.token == token && c.at == at
       case MailError(text) => p.RMail? && p.rec.token == token && !c.ok && c.text == text
       case DeliveryError(text) => (p.DSign? || (p.DSend? && !c.ok)) && p.rec.token == token && c.text == text
  }

  /** Action `l` leaves document `id` with a mark it bore before, or that action `k` has left. */
  ghost predicate SaidOrLeft(s: State, acts: seq<Action>, k: nat, l: nat, id: string, mark: Mark)
    requires ValidRun(s, acts) && l < |acts| && id in StateAt(s, acts, l + 1).store
  {
    var before, after := StateAt(s, acts, l).store, StateAt(s, acts, l + 1).store;
    || (id in before && before[id].token == after[id].token && Says(before[id], mark))
    || (k < l && Leaves(s, acts, k, after[id].token, mark))
  }

  lemma MarkOfUpsert(cfg: Config, acts: seq<Action>, l: nat, id: string, mark: Mark) returns (k: nat)
    requires ValidRun(Init(cfg), acts) && l < |acts| && Wins(Init(cfg), acts, l)
    requires StateAt(Init(cfg), acts, l).procs[acts[l].pid].RPut?
    requires var after := StateAt(Init(cfg), acts, l + 1).store; id in after && Says(after[id], mark)
    ensures SaidOrLeft(Init(cfg), acts, k, l, id, mark)
  {
    var env, first;
    k, env, first := UpsertWritten(cfg, acts, l);
  }

  lemma MarkOfNote(cfg: Config, acts: seq<Action>, l: nat, id: string, mark: Mark) returns (k: nat)
    requires ValidRun(Init(cfg), acts) && l < |acts| && Wins(Init(cfg), acts, l)
    requires StateAt(Init(cfg), acts, l).procs[acts[l].pid].RBook?
    requires var after := StateAt(Init(cfg), acts, l + 1).store; id in after && Says(after[id], mark)
    ensures SaidOrLeft(Init(cfg), acts, k, l, id, mark)
  {
    var m, b;
    k, m, b := NoteWritten(cfg, acts, l);
    if mark.MailError? {
      k := m;
    }
  }

  lemma MarkOfConfirmation(cfg: Config, acts: seq<Action>, l: nat, id: string, mark: Mark) returns (k: nat)
    requires ValidRun(Init(cfg), acts) && l < |acts| && Wins(Init(cfg), acts, l)
    requires StateAt(Init(cfg), acts, l).procs[acts[l].pid].CPut?
    requires var after := StateAt(Init(cfg), acts, l + 1).store; id in after && Says(after[id], mark)
    ensures SaidOrLeft(Init(cfg), acts, k, l, id, mark)
  {
    var b, seenAt;
    k, b, seenAt := ConfirmationWritten(cfg, acts, l);
  }

  lemma MarkOfOutcome(cfg: Config, acts: seq<Action>, l: nat, id: string, mark: Mark) returns (k: nat)
    requires ValidRun(Init(cfg), acts) && l < |acts| && Wins(Init(cfg), acts, l)
    requires StateAt(Init(cfg), acts, l).procs[acts[l].pid].DBook?
    requires var after := StateAt(Init(cfg), acts, l + 1).store; id in after && Says(after[id], mark)
    ensures SaidOrLeft(Init(cfg), acts, k, l, id, mark)
  {
    var j, m, b, p;
    j, k, m, b, p := OutcomeWritten(cfg, acts, l);
    if mark.DeliveryError? || p.DSign? {
      k := m;
    }
  }

  lemma NewMark(cfg: Config, acts: seq<Action>, l: nat, id: string, mark: Mark) returns (k: nat)
    requires ValidRun(Init(cfg), acts) && l < |acts| && Wins(Init(cfg), acts, l)
    requires var after := StateAt(Init(cfg), acts, l + 1).store; id in after && Says(after[id], mark)
    ensures SaidOrLeft(Init(cfg), acts, k, l, id, mark)
  {
    var q := StateAt(Init(cfg), acts, l).procs[acts[l].pid];
    if q.RPut? {
      k := MarkOfUpsert(cfg, acts, l, id, mark);
    } else if q.RBook? {
      k := MarkOfNote(cfg, acts, l, id, mark);
    } else if q.CPut? {
      k := MarkOfConfirmation(cfg, acts, l, id, mark);
    } else {
      k := MarkOfOutcome(cfg, acts, l, id, mark);
    }
  }

  /** Over every interleaving, whatever a stored record says of its confirmation, its last
      attempt, its mail and its errors was left by an action of the run on its own token. */
  lemma {:induction false} RecordsSayTrue(cfg: Config, acts: seq<Action>, n: nat, id: string, mark: Mark)
    returns (k: nat)
    requires ValidRun(Init(cfg), acts) && n <= |acts|
    requires var store := StateAt(Init(cfg), acts, n).store; id in store && Says(store[id], mark)
    ensures k < n && Leaves(Init(cfg), acts, k, StateAt(Init(cfg), acts, n).store[id].token, mark)
    decreases n
  {
    assert n > 0;
    var before := StateAt(Init(cfg), acts, n - 1).store;
    if !Wins(Init(cfg), acts, n - 1) {
      OnlyWinsWrite(Init(cfg), acts, n - 1);
      k := RecordsSayTrue(cfg, acts, n - 1, id, mark);
    } else {
      k := NewMark(cfg, acts, n - 1, id, mark);
      if id in before && before[id].token == StateAt(Init(cfg), acts, n).store[id].token && Says(before[id], mark) {
        k := RecordsSayTrue(cfg, acts, n - 1, id, mark);
      }
    }
  }
}
