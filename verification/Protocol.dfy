/** The verification protocol as a state machine: every request is a process whose
    store, mail, signing and posting steps interleave with the steps of the others
    (internal/domain/verifications.go, internal/interfaces/web/confirm.go). */
module Protocol {
  import opened Envelopes
  import opened Records
  import opened MemoryStore

  datatype Config = Config(identity: Identity, authority: Address)

  datatype Error = ErrValidation | ErrUnauthorized | ErrForbidden | ErrNotFound | ErrGone | ErrUnavailable | ErrInternal

  datatype PartyAnswer = PartyOk(subject: Address) | PartyUnavailable | PartyMissing | PartyInvalid
  datatype AuthorityAnswer = AuthorityOk | AuthorityUnavailable | AuthorityMissing

  /** What Validate, VerifyParty and VerifyAuthority say about an envelope. */
  datatype Verdicts = Verdicts(valid: bool, party: PartyAnswer, authority: AuthorityAnswer)

  datatype GateAnswer = Refused(error: Error) | Admitted(subject: Address, email: string)

  /** Receive's checks, in order. */
  function Gates(id: Identity, env: Env, v: Verdicts): GateAnswer {
    if !v.valid then Refused(ErrValidation)
    else match v.party
      case PartyUnavailable => Refused(ErrUnavailable)
      case PartyMissing => Refused(ErrValidation)
      case PartyInvalid => Refused(ErrUnauthorized)
      case PartyOk(subject) =>
        if !OwnSignaturesVerify(id, env) then Refused(ErrUnauthorized)
        else match v.authority
          case AuthorityUnavailable => Refused(ErrUnavailable)
          case AuthorityMissing => Refused(ErrForbidden)
          case AuthorityOk =>
            if PartyEmail(env.party) == "" then Refused(ErrValidation)
            else Admitted(subject, PartyEmail(env.party))
  }

  // ----- State -----

  /** Who runs a delivery. A Confirm remembers when it last looked its token up, and
      whether that was the re-read after a lost write. */
  datatype Caller = ByConfirm(seenAt: Time, reread: bool) | ByRedeliver

  datatype Outcome =
    | ReceiveOk(rec: Rec)
    | ConfirmOk(rec: Rec)
    | RedeliverOk(rec: Rec)
    | Unticked
    | Errored(error: Error)

  /** A process, by the step it takes next. */
  datatype Proc =
    // Receive
    | RGate(env: Env)
    | RGet(rec: Rec)
    | RPut(rec: Rec)
    | RClock(rec: Rec)
    | RMail(rec: Rec, at: Time)
    | RBook(rec: Rec, sent: bool)
    // the confirm form's POST handler, then Confirm
    | HGate(token: string, accept: bool)
    | CLookup(token: string)
    | CAttest(rec: Rec, seenAt: Time)
    | CPut(rec: Rec, seenAt: Time)
    | CReread(token: string)
    // Redeliver
    | XGet(address: Address)
    // deliver
    | DSign(rec: Rec, who: Caller)
    | DStamp(rec: Rec, who: Caller, env: Env, signedAt: Time)
    | DSend(rec: Rec, who: Caller, env: Env, signedAt: Time)
    | DBook(rec: Rec, who: Caller, sent: bool)
    // finished, or killed
    | Done(outcome: Outcome)
    | Dead

  /** What a token was minted for. */
  datatype Mint = Mint(address: Address, email: string, env: Env, receivedAt: Time, verdicts: Verdicts)

  /** What the outside world sees, in order. */
  datatype Event =
    | Accepted(token: string)                    // a POST with the declaration ticked
    | Mailed(token: string, to: string, ok: bool)
    | SignRefused(token: string, who: Caller)
    | Posted(token: string, to: Address, who: Caller, env: Env, signedAt: Time, ok: bool)

  datatype Writer = Upsert | Bookkeeping | Attestation | DeliveryOutcome(who: Caller)

  datatype Entry = Entry(rec: Rec, writer: Writer)

  /** `store` is the database and `procs` the requests; the rest is history: every token
      minted, every version written (by revision, and per document in order), and the log. */
  datatype State = State(
    cfg: Config, clock: Time,
    store: map<string, Rec>, procs: map<nat, Proc>,
    mints: map<string, Mint>, written: map<string, Rec>, history: map<string, seq<Entry>>,
    events: seq<Event>)

  function Init(cfg: Config): State {
    State(cfg, 0, map[], map[], map[], map[], map[], [])
  }

  // ----- What each piece of code does to its local record -----

  function Minted(subject: Address, email: string, env: Env, token: string, now: Time): Rec {
    FreshRec(subject, email, Some(env), now).(token := token, tokenExpiresAt := now + CONFIRM_TOKEN_TTL)
  }

  function MailSent(r: Rec, at: Time): Rec { r.(emailSentAt := Some(at), lastEmailError := "") }
  function MailFailed(r: Rec, text: string): Rec { r.(lastEmailError := text) }
  function Attested(r: Rec, at: Time): Rec { r.(confirmedAt := Some(at), status := Confirmed) }
  function Stamped(r: Rec, at: Time): Rec { r.(deliveryAttempts := r.deliveryAttempts + 1, lastDeliveryAt := Some(at)) }
  function Sent(r: Rec): Rec { r.(status := Delivered, lastDeliveryError := "") }
  function Unsent(r: Rec, text: string): Rec { r.(status := Failed, lastDeliveryError := text) }

  datatype Found = Found(rec: Rec) | Missed(error: Error)

  /** byToken */
  ghost function ByToken(store: map<string, Rec>, token: string, now: Time): Found {
    if token == "" then Missed(ErrNotFound)
    else match Lookup(store, token)
      case None => Missed(ErrNotFound)
      case Some(r) => if TokenExpired(r, now) then Missed(ErrGone) else Found(r)
  }

  // ----- Steps -----

  /** The environment's answer to one step: the clock, a value newToken or newRev would
      return, whether the call in question worked, and the text of its error. */
  datatype Choice = Choice(at: Time, novel: string, ok: bool, cleared: bool, text: string, verdicts: Verdicts)

  /** One step's effect: the process's next step, and the log entry, the stored version or
      the minted token it leaves behind. */
  datatype Turn = Turn(next: Proc, event: Option<Event>, write: Option<Entry>, mint: Option<Mint>)

  function Goto(next: Proc): Turn { Turn(next, None, None, None) }

  /** A Put of `r`: `stored` says what follows a success, with the new revision in the
      record, and `lost` what follows a failure. */
  function Write(s: State, r: Rec, writer: Writer, novel: string, stored: Proc, lost: Proc): Turn {
    if PutOutcome(s.store, r).Stored? then Turn(stored, None, Some(Entry(r.(rev := novel), writer)), None)
    else Goto(lost)
  }

  function ReceiveTurn(s: State, p: Proc, c: Choice): Turn
    requires p.RGate? || p.RGet? || p.RPut? || p.RClock? || p.RMail? || p.RBook?
  {
    match p
    case RGate(env) =>
      (match Gates(s.cfg.identity, env, c.verdicts)
       case Refused(e) => Goto(Done(Errored(e)))
       case Admitted(subject, email) =>
         if !c.ok then Goto(Done(Errored(ErrInternal)))  // newToken failed
         else Turn(RGet(Minted(subject, email, env, c.novel, c.at)), None, None,
                   Some(Mint(subject, email, env, c.at, c.verdicts))))
    case RGet(r) =>
      Goto(RPut(if r.id in s.store then r.(rev := s.store[r.id].rev) else r))
    case RPut(r) =>
      Write(s, r, Upsert, c.novel, RClock(r.(rev := c.novel)), Done(Errored(ErrInternal)))
    case RClock(r) => Goto(RMail(r, c.at))
    case RMail(r, at) =>
      Turn(RBook(if c.ok then MailSent(r, at) else MailFailed(r, c.text), c.ok),
           Some(Mailed(r.token, r.email, c.ok)), None, None)
    case RBook(r, sent) =>
      Write(s, r, Bookkeeping, c.novel,
            Done(if sent then ReceiveOk(r.(rev := c.novel)) else Errored(ErrInternal)),
            Done(if sent then ReceiveOk(r) else Errored(ErrInternal)))
  }

  ghost function ConfirmTurn(s: State, p: Proc, c: Choice): Turn
    requires p.HGate? || p.CLookup? || p.CAttest? || p.CPut? || p.CReread? || p.XGet?
  {
    match p
    case HGate(token, accept) =>
      (match ByToken(s.store, token, c.at)
       case Missed(e) => Goto(Done(Errored(e)))
       case Found(r) =>
         if r.status != Pending then Goto(CLookup(token))
         else if !accept then Goto(Done(Unticked))
         else Turn(CLookup(token), Some(Accepted(token)), None, None))
    case CLookup(token) =>
      (match ByToken(s.store, token, c.at)
       case Missed(e) => Goto(Done(Errored(e)))
       case Found(r) =>
         if r.status == Delivered then Goto(Done(ConfirmOk(r)))
         else if r.confirmedAt.None? then Goto(CAttest(r, c.at))
         else Goto(DSign(r, ByConfirm(c.at, false))))
    case CAttest(r, seenAt) => Goto(CPut(Attested(r, c.at), seenAt))
    case CPut(r, seenAt) =>
      Write(s, r, Attestation, c.novel, DSign(r.(rev := c.novel), ByConfirm(seenAt, false)),
            if PutOutcome(s.store, r).Conflict? then CReread(r.token) else Done(Errored(ErrInternal)))
    case CReread(token) =>
      (match ByToken(s.store, token, c.at)
       case Missed(e) => Goto(Done(Errored(e)))
       case Found(r) =>
         if r.status == Delivered then Goto(Done(ConfirmOk(r)))
         else Goto(DSign(r, ByConfirm(c.at, true))))
    case XGet(address) =>
      if DocID(address) !in s.store then Goto(Done(Errored(ErrNotFound)))
      else if s.store[DocID(address)].confirmedAt.None? then Goto(Done(Errored(ErrValidation)))
      else Goto(DSign(s.store[DocID(address)], ByRedeliver))
  }

  function DeliveryResult(r: Rec, who: Caller, sent: bool): Outcome {
    match who
    case ByConfirm(_, _) => if sent then ConfirmOk(r) else Errored(ErrUnavailable)
    case ByRedeliver => if sent then RedeliverOk(r) else Errored(ErrInternal)
  }

  function DeliverTurn(s: State, p: Proc, c: Choice): Turn
    requires p.DSign? || p.DStamp? || p.DSend? || p.DBook?
  {
    match p
    case DSign(r, who) =>
      if c.ok && r.envelope.Some? && r.envelope.value.head.Some? then
        Goto(DStamp(r, who, CounterSigned(s.cfg.identity, r.envelope.value, r.address, c.at), c.at))
      else
        Turn(DBook(Unsent(r, c.text), who, false), Some(SignRefused(r.token, who)), None, None)
    case DStamp(r, who, env, signedAt) => Goto(DSend(Stamped(r, c.at), who, env, signedAt))
    case DSend(r, who, env, signedAt) =>
      Turn(DBook(if c.ok then Sent(r) else Unsent(r, c.text), who, c.ok),
           Some(Posted(r.token, s.cfg.authority, who, env, signedAt, c.ok)), None, None)
    case DBook(r, who, sent) =>
      Write(s, r, DeliveryOutcome(who), c.novel,
            Done(DeliveryResult(r.(rev := c.novel), who, sent)), Done(DeliveryResult(r, who, sent)))
  }

  predicate Live(p: Proc) { !p.Done? && !p.Dead? }

  ghost function TurnOf(s: State, p: Proc, c: Choice): Turn
    requires Live(p)
  {
    if p.RGate? || p.RGet? || p.RPut? || p.RClock? || p.RMail? || p.RBook? then ReceiveTurn(s, p, c)
    else if p.DSign? || p.DStamp? || p.DSend? || p.DBook? then DeliverTurn(s, p, c)
    else ConfirmTurn(s, p, c)
  }

  function HistoryOf(s: State, id: string): seq<Entry> {
    if id in s.history then s.history[id] else []
  }

  function Apply(s: State, pid: nat, c: Choice, t: Turn): State {
    s.(clock := c.at,
       procs := s.procs[pid := t.next],
       events := if t.event.Some? then s.events + [t.event.value] else s.events,
       mints := if t.mint.Some? then s.mints[c.novel := t.mint.value] else s.mints,
       store := if t.write.Some? then s.store[t.write.value.rec.id := t.write.value.rec] else s.store,
       written := if t.write.Some? then s.written[t.write.value.rec.rev := t.write.value.rec] else s.written,
       history := if t.write.Some?
                  then s.history[t.write.value.rec.id := HistoryOf(s, t.write.value.rec.id) + [t.write.value]]
                  else s.history)
  }

  datatype Action =
    | Start(pid: nat, request: Proc)
    | Move(pid: nat, choice: Choice)
    | Kill(pid: nat)

  predicate Request(p: Proc) { p.RGate? || p.HGate? || p.XGet? }

  /** The clock never goes back, newToken and newRev never repeat a value, error texts are
      not empty, and a valid envelope has a head. */
  predicate Fair(s: State, p: Proc, c: Choice) {
    && c.at >= s.clock
    && c.novel != "" && c.novel !in s.mints && c.novel !in s.written
    && c.text != ""
    && (p.RGate? && c.verdicts.valid ==> p.env.head.Some?)
  }

  predicate Enabled(s: State, a: Action) {
    match a
    case Start(pid, request) => pid !in s.procs && Request(request)
    case Move(pid, c) => pid in s.procs && Live(s.procs[pid]) && Fair(s, s.procs[pid], c)
    case Kill(pid) => pid in s.procs && Live(s.procs[pid])
  }

  ghost function Step(s: State, a: Action): State
    requires Enabled(s, a)
  {
    match a
    case Start(pid, request) => s.(procs := s.procs[pid := request])
    case Move(pid, c) => Apply(s, pid, c, TurnOf(s, s.procs[pid], c))
    case Kill(pid) => s.(procs := s.procs[pid := Dead])
  }

  // ----- Runs -----

  ghost predicate ValidRun(s: State, acts: seq<Action>)
    decreases |acts|
  {
    acts == [] || (Enabled(s, acts[0]) && ValidRun(Step(s, acts[0]), acts[1..]))
  }

  ghost function Run(s: State, acts: seq<Action>): State
    requires ValidRun(s, acts)
    decreases |acts|
  {
    if acts == [] then s else Run(Step(s, acts[0]), acts[1..])
  }
}
