/**
 Leased cleanup: workers with their own monotonic clocks delete stored objects under database claims.  The same protocol
 serves purged documents (which alone re-authorize before DELETE, may give a claim back, and belong to a plan that can
 fail and be accepted again), abandoned uploads and expired debug payloads.
 */
module Cleanup {
  import opened Common

  datatype Service = Purge | Upload | Debug

  /** A database claim on one object: `from` is when the row was updated, `until` when the lease ends. */
  datatype Claim = Claim(obj: nat, token: nat, from: int, until: int)

  /** The state of a purge plan after it was accepted. */
  datatype Plan = Pending | Broken | Completed

  /** A claimable row, its plan, and the stored object it names; `puts` counts the uploads that ever landed. */
  datatype Row = Row(plan: nat, claim: Option<Claim>, marked: bool, attempt: nat, present: bool, puts: nat)

  /** Where a cleaning stands after its last HEAD, authorization or DELETE. */
  datatype Step =
    | Start
    | Looking(confirming: bool)
    | Seen
    | Allowed
    | Sent
    | Confirm
    | Gone(puts: nat)
    | GoneAllowed(puts: nat)

  datatype Phase =
    | Idle
    | Asking(started: int)
    | Claiming(started: int, claim: Claim)
    | Working(claim: Claim, deadline: int, step: Step)
    | Failed(claim: Claim)

  /** A process: its monotonic clock runs at the database's rate from an origin of its own. */
  datatype Worker = Worker(offset: int, stopped: bool, phase: Phase)

  datatype Event =
    | Claimed(claim: Claim)
    | FoundPresent(claim: Claim)
    | FoundAbsent(claim: Claim, puts: nat)
    | Authorized(claim: Claim, found: bool)
    | Deleted(claim: Claim)
    | Marked(claim: Claim, puts: nat)
    | Released(claim: Claim)
    | Reaccepted(objects: set<nat>)

  datatype Entry = Entry(at: int, event: Event)

  datatype State = State(
    service: Service,
    lease: nat,
    clock: int,
    plans: map<nat, Plan>,
    rows: map<nat, Row>,
    workers: map<nat, Worker>,
    inflight: set<Claim>,
    nextToken: nat,
    log: seq<Entry>)

  datatype Action =
    | Tick(elapsed: nat)
    | PutLands(o: nat)
    | DeleteLands(claim: Claim)
    | Ask(w: nat)
    | Grant(w: nat, o: nat)
    | Receive(w: nat, observed: int)
    | SendHead(w: nat)
    | ReadHead(w: nat)
    | Authorize(w: nat)
    | SendDelete(w: nat)
    | DeleteAnswered(w: nat)
    | Mark(w: nat)
    | Fail(w: nat)
    | Reschedule(w: nat)
    | FailPlan(p: nat)
    | Accept(p: nat)
    | Stop(w: nat)
    | Restart(w: nat, offset: int)

  const MAX_ATTEMPTS := 8

  function Local(s: State, w: nat): int
    requires w in s.workers
  {
    s.clock + s.workers[w].offset
  }

  /** `_live`: not stopped, and the local deadline lies ahead. */
  predicate Live(s: State, w: nat) {
    && w in s.workers && s.workers[w].phase.Working?
    && !s.workers[w].stopped
    && Local(s, w) < s.workers[w].phase.deadline
  }

  predicate At(s: State, w: nat, step: Step) {
    w in s.workers && s.workers[w].phase.Working? && s.workers[w].phase.step == step
  }

  function ClaimOf(p: Phase): Option<Claim> {
    match p
    case Claiming(_, c) => Some(c)
    case Working(c, _, _) => Some(c)
    case Failed(c) => Some(c)
    case _ => None
  }

  /** What every fenced SQL routine demands: the row still carries this claim, and its lease has not ended. */
  predicate Current(s: State, c: Claim) {
    c.obj in s.rows && s.rows[c.obj].claim == Some(c) && s.clock < c.until
  }

  /** The plan of a row, for services that have plans. */
  predicate PlanIs(s: State, o: nat, plan: Plan) {
    o in s.rows && s.rows[o].plan in s.plans && s.plans[s.rows[o].plan] == plan
  }

  /** What the purge routines demand of the plan: it has not failed. */
  predicate Open(s: State, o: nat) {
    s.service.Purge? ==> PlanIs(s, o, Pending) || PlanIs(s, o, Completed)
  }

  /** Pending plans are claimed up to the limit of attempts; objects of completed plans are audited. */
  predicate Claimable(s: State, o: nat) {
    && o in s.rows && (s.rows[o].claim.None? || s.rows[o].claim.value.until <= s.clock)
    && (s.service.Purge? ==>
          (PlanIs(s, o, Pending) && !s.rows[o].marked && s.rows[o].attempt < MAX_ATTEMPTS) || PlanIs(s, o, Completed))
  }

  /** A claim of the last attempt ran out without a word. */
  predicate RanOut(s: State, o: nat, p: nat) {
    && o in s.rows && s.rows[o].plan == p && !s.rows[o].marked && s.rows[o].attempt >= MAX_ATTEMPTS
    && s.rows[o].claim.Some? && s.rows[o].claim.value.until <= s.clock
  }

  predicate Enabled(s: State, a: Action) {
    match a
    case Tick(_) => true
    case PutLands(o) => o in s.rows
    case DeleteLands(c) => c in s.inflight && c.obj in s.rows
    case Ask(w) => w in s.workers && s.workers[w].phase.Idle? && !s.workers[w].stopped
    case Grant(w, o) => w in s.workers && s.workers[w].phase.Asking? && Claimable(s, o)
    case Receive(w, observed) =>
      w in s.workers && s.workers[w].phase.Claiming? && s.workers[w].phase.claim.from <= observed <= s.clock
    case SendHead(w) => Live(s, w) && (At(s, w, Start) || At(s, w, Confirm))
    case ReadHead(w) =>
      (At(s, w, Looking(false)) || At(s, w, Looking(true))) && s.workers[w].phase.claim.obj in s.rows
    case Authorize(w) =>
      && s.service.Purge? && w in s.workers && s.workers[w].phase.Working?
      && (s.workers[w].phase.step.Seen? || s.workers[w].phase.step.Gone?)
    case SendDelete(w) => Live(s, w) && At(s, w, if s.service.Purge? then Allowed else Seen)
    case DeleteAnswered(w) => At(s, w, Sent) && s.workers[w].phase.claim !in s.inflight
    case Mark(w) =>
      && w in s.workers && s.workers[w].phase.Working?
      && (if s.service.Purge? then s.workers[w].phase.step.GoneAllowed? else s.workers[w].phase.step.Gone?)
    case Fail(w) => w in s.workers && ClaimOf(s.workers[w].phase).Some?
    case Reschedule(w) => s.service.Purge? && w in s.workers && s.workers[w].phase.Failed?
    case FailPlan(p) => s.service.Purge? && p in s.plans && s.plans[p].Pending? && exists o :: o in s.rows && RanOut(s, o, p)
    case Accept(p) => s.service.Purge? && p in s.plans && s.plans[p].Broken?
    case Stop(w) => w in s.workers
    case Restart(w, _) => w in s.workers
  }

  function Go(s: State, w: nat, p: Phase): State
    requires w in s.workers
  {
    s.(workers := s.workers[w := s.workers[w].(phase := p)])
  }

  function Record(s: State, e: Event): State {
    s.(log := s.log + [Entry(s.clock, e)])
  }

  function Put(s: State, o: nat, row: Row): State {
    s.(rows := s.rows[o := row])
  }

  function Next(s: State, a: Action): State
    requires Enabled(s, a)
  {
    match a
    case Tick(elapsed) => s.(clock := s.clock + elapsed)
    case PutLands(o) => Put(s, o, s.rows[o].(present := true, puts := s.rows[o].puts + 1))
    case DeleteLands(c) => Put(s, c.obj, s.rows[c.obj].(present := false)).(inflight := s.inflight - {c})
    case Ask(w) => Go(s, w, Asking(Local(s, w)))
    case Grant(w, o) => GrantClaim(s, w, o)
    case Receive(w, observed) => ReceiveClaim(s, w, observed)
    case SendHead(w) =>
      var p := s.workers[w].phase;
      Go(s, w, p.(step := Looking(p.step.Confirm?)))
    case ReadHead(w) => ReadObject(s, w)
    case Authorize(w) => AuthorizeDelete(s, w)
    case SendDelete(w) =>
      var p := s.workers[w].phase;
      Go(Record(s, Deleted(p.claim)), w, p.(step := Sent)).(inflight := s.inflight + {p.claim})
    case DeleteAnswered(w) => Go(s, w, s.workers[w].phase.(step := Confirm))
    case Mark(w) => MarkDeleted(s, w)
    case Fail(w) => Go(s, w, if s.service.Purge? then Failed(ClaimOf(s.workers[w].phase).value) else Idle)
    case Reschedule(w) => GiveBack(s, w)
    case FailPlan(p) => s.(plans := s.plans[p := Broken])
    case Accept(p) => AcceptAgain(s, p)
    case Stop(w) => s.(workers := s.workers[w := s.workers[w].(stopped := true)])
    case Restart(w, offset) => s.(workers := s.workers[w := Worker(offset, false, Idle)])
  }

  /** The claim routine: an audit of a deleted object starts a new round of attempts when the last was used up. */
  function GrantClaim(s: State, w: nat, o: nat): State
    requires Enabled(s, Grant(w, o))
  {
    var row := s.rows[o];
    var c := Claim(o, s.nextToken, s.clock, s.clock + s.lease);
    var attempt := if row.marked && row.attempt >= MAX_ATTEMPTS then 1 else row.attempt + 1;
    Go(Record(Put(s, o, row.(claim := Some(c), attempt := attempt)), Claimed(c)), w,
       Claiming(s.workers[w].phase.started, c)).(nextToken := s.nextToken + 1)
  }

  /** `_claim`: the lease that remained when the row was read is counted from before the query was sent. */
  function ReceiveClaim(s: State, w: nat, observed: int): State
    requires Enabled(s, Receive(w, observed))
  {
    var p := s.workers[w].phase;
    var remaining := p.claim.until - observed;
    Go(s, w, if 0 < remaining <= s.lease then Working(p.claim, p.started + remaining, Start) else Idle)
  }

  function ReadObject(s: State, w: nat): State
    requires Enabled(s, ReadHead(w))
  {
    var p := s.workers[w].phase;
    var row := s.rows[p.claim.obj];
    if row.present then
      if p.step.confirming then
        Go(s, w, if s.service.Purge? then Failed(p.claim) else Idle)
      else
        Go(Record(s, FoundPresent(p.claim)), w, p.(step := Seen))
    else
      Go(Record(s, FoundAbsent(p.claim, row.puts)), w,
         p.(step := if p.step.confirming && s.service.Purge? then GoneAllowed(row.puts) else Gone(row.puts)))
  }

  function AuthorizeDelete(s: State, w: nat): State
    requires Enabled(s, Authorize(w))
  {
    var p := s.workers[w].phase;
    if !Current(s, p.claim) || !Open(s, p.claim.obj) then
      Go(s, w, Failed(p.claim))
    else
      Go(Record(s, Authorized(p.claim, p.step.Seen?)), w,
         p.(step := if p.step.Seen? then Allowed else GoneAllowed(p.step.puts)))
  }

  /** The last mark completes the plan. */
  predicate Finishes(s: State, o: nat) {
    s.service.Purge? && PlanIs(s, o, Pending)
    && forall x :: x in s.rows && x != o && s.rows[x].plan == s.rows[o].plan ==> s.rows[x].marked
  }

  function MarkDeleted(s: State, w: nat): State
    requires Enabled(s, Mark(w))
  {
    var p := s.workers[w].phase;
    var o := p.claim.obj;
    if !Current(s, p.claim) || !Open(s, o) then
      Go(s, w, if s.service.Purge? then Failed(p.claim) else Idle)
    else
      var t := s.(plans := if Finishes(s, o) then s.plans[s.rows[o].plan := Completed] else s.plans);
      Go(Record(Put(t, o, s.rows[o].(claim := None, marked := true, attempt := 0)), Marked(p.claim, p.step.puts)), w, Idle)
  }

  /** Giving the last attempt back fails the plan; a failed audit does not. */
  function GiveBack(s: State, w: nat): State
    requires Enabled(s, Reschedule(w))
  {
    var c := s.workers[w].phase.claim;
    if !Current(s, c) || !Open(s, c.obj) then
      Go(s, w, Idle)
    else
      var exhausted := PlanIs(s, c.obj, Pending) && s.rows[c.obj].attempt >= MAX_ATTEMPTS;
      var t := s.(plans := if exhausted then s.plans[s.rows[c.obj].plan := Broken] else s.plans);
      Go(Record(Put(t, c.obj, s.rows[c.obj].(claim := None)), Released(c)), w, Idle)
  }

  /** The objects a plan still has to delete. */
  function Remaining(s: State, p: nat): set<nat> {
    set o | o in s.rows && s.rows[o].plan == p && !s.rows[o].marked
  }

  function Renewed(row: Row): Row {
    row.(claim := None, attempt := 0)
  }

  /** `accept_document_purge` of a failed plan: attempts start over, and every claim of the plan is cleared. */
  function AcceptAgain(s: State, p: nat): State
    requires Enabled(s, Accept(p))
  {
    var objects := Remaining(s, p);
    Record(s.(plans := s.plans[p := Pending], rows := map o | o in s.rows :: if o in objects then Renewed(s.rows[o]) else s.rows[o]),
           Reaccepted(objects))
  }

  /** Nothing claimed, nothing sent, every worker idle. */
  predicate Init(s: State) {
    && s.log == [] && s.inflight == {} && s.nextToken == 0
    && (forall o :: o in s.rows ==> s.rows[o].claim.None? && !s.rows[o].marked && s.rows[o].attempt == 0)
    && (forall o :: o in s.rows ==> s.rows[o].plan in s.plans)
    && (forall p :: p in s.plans ==> s.plans[p].Pending?)
    && (forall w :: w in s.workers ==> s.workers[w].phase.Idle?)
  }

  /** `actions` is a run from `s` to `t`. */
  predicate Run(s: State, actions: seq<Action>, t: State)
    decreases |actions|
  {
    if actions == [] then s == t
    else Enabled(s, actions[0]) && Run(Next(s, actions[0]), actions[1..], t)
  }

  /** An entry about an object. */
  predicate Touches(e: Event, o: nat) {
    if e.Reaccepted? then o in e.objects else e.claim.obj == o
  }

  /** The claim that holds an object according to the log alone. */
  function Holder(log: seq<Entry>, o: nat): Option<Claim> {
    if log == [] then None
    else
      var e := log[|log| - 1].event;
      if !Touches(e, o) then Holder(log[..|log| - 1], o)
      else if e.Claimed? then Some(e.claim)
      else if e.Marked? || e.Released? || e.Reaccepted? then None
      else Holder(log[..|log| - 1], o)
  }

  predicate Has(log: seq<Entry>, e: Event) {
    exists i :: 0 <= i < |log| && log[i].event == e
  }

  /** A claim that was cleared by accepting its plan again. */
  predicate Cleared(log: seq<Entry>, c: Claim) {
    log != [] &&
      var front, e := log[..|log| - 1], log[|log| - 1].event;
      Cleared(front, c) || (e.Reaccepted? && c.obj in e.objects && Has(front, Claimed(c)))
  }

  predicate IsClaimOf(e: Event, o: nat) {
    e.Claimed? && e.claim.obj == o
  }

  predicate Renews(e: Event, o: nat) {
    e.Reaccepted? && o in e.objects
  }

  /** The claims of an object since its plan was last accepted. */
  function ClaimsInRound(log: seq<Entry>, o: nat): nat {
    if log == [] then 0
    else
      var e := log[|log| - 1].event;
      if Renews(e, o) then 0 else ClaimsInRound(log[..|log| - 1], o) + if IsClaimOf(e, o) then 1 else 0
  }

  /** All claims of an object. */
  function ClaimsOn(log: seq<Entry>, o: nat): nat {
    if log == [] then 0 else ClaimsOn(log[..|log| - 1], o) + if IsClaimOf(log[|log| - 1].event, o) then 1 else 0
  }

  /** How often the plan of an object still to be deleted was accepted again. */
  function Rounds(log: seq<Entry>, o: nat): nat {
    if log == [] then 0 else Rounds(log[..|log| - 1], o) + if Renews(log[|log| - 1].event, o) then 1 else 0
  }

  /** What must already be in the log, and when, for an entry to be allowed. */
  predicate Justified(service: Service, log: seq<Entry>, x: Entry) {
    && (log != [] ==> log[|log| - 1].at <= x.at)
    && match x.event {
         case Claimed(c) =>
           && c.from == x.at
           && (Holder(log, c.obj).Some? ==> Holder(log, c.obj).value.until <= x.at)
           && !Has(log, Claimed(c))
         case Authorized(c, found) => InLease(log, c, x.at) && (found ==> Has(log, FoundPresent(c)))
         case Deleted(c) =>
           && c.from <= x.at < c.until && (Holder(log, c.obj) == Some(c) || Cleared(log, c))
           && (if service.Purge? then Has(log, Authorized(c, true)) else Has(log, FoundPresent(c)) && !Cleared(log, c))
         case Marked(c, puts) =>
           && InLease(log, c, x.at)
           && Has(log, FoundAbsent(c, puts))
           && (service.Purge? ==> Has(log, Authorized(c, true)) || Has(log, Authorized(c, false)))
         case Reaccepted(_) => service.Purge?
         case _ => true
       }
  }

  predicate InLease(log: seq<Entry>, c: Claim, at: int) {
    Holder(log, c.obj) == Some(c) && c.from <= at < c.until
  }

  predicate LogOk(service: Service, log: seq<Entry>) {
    log == [] || (LogOk(service, log[..|log| - 1]) && Justified(service, log[..|log| - 1], log[|log| - 1]))
  }
}
