/**
 The claim protocol over webhook event rows (apps/subscriptions/services/webhook_handlers.py): a worker
 claims an event with a conditional update, runs its handler, and finishes the event with another
 conditional update. Any worker may die between two of these.
 */
module WebhookClaims {
  type EventId = string

  datatype EventStatus = PENDING | PROCESSING | PROCESSED | IGNORED | FAILED

  /** A worker by the point it has reached; a worker with nothing to do is not in the map. */
  datatype Worker =
    | Created(id: EventId, registered: bool)
    | Claimed(id: EventId, registered: bool)
    | Succeeded(id: EventId)
    | Raised(id: EventId)
  {
    predicate Holds() { !Created? }
  }

  /** `returned` counts, event by event, the handlers that came back without an error. */
  datatype Claims = Claims(
    events: map<EventId, EventStatus>,
    workers: map<nat, Worker>,
    returned: multiset<EventId>)

  /** A handler that is running may return, raise, or die with its process. */
  datatype HandlerEnd = RETURNS | RAISES | DIES

  const CLAIMABLE: set<EventStatus> := {PENDING, FAILED}

  /** The conditional update: it only lands on an allowed status. */
  function Update(events: map<EventId, EventStatus>, id: EventId, from: set<EventStatus>, to: EventStatus): map<EventId, EventStatus> {
    if id in events && events[id] in from then events[id := to] else events
  }

  function Deliver(c: Claims, w: nat, id: EventId, registered: bool): Claims {
    if w in c.workers then c
    else c.(events := if id in c.events then c.events else c.events[id := PENDING],
            workers := c.workers[w := Created(id, registered)])
  }

  function Claim(c: Claims, w: nat): Claims {
    if w in c.workers && c.workers[w].Created? then
      var id := c.workers[w].id;
      if id in c.events && c.events[id] in CLAIMABLE then
        c.(events := Update(c.events, id, CLAIMABLE, PROCESSING),
           workers := c.workers[w := Claimed(id, c.workers[w].registered)])
      else c.(workers := c.workers - {w})
    else c
  }

  /** An event type without a handler. */
  function Ignore(c: Claims, w: nat): Claims {
    if w in c.workers && c.workers[w].Claimed? && !c.workers[w].registered then
      c.(events := Update(c.events, c.workers[w].id, {PROCESSING}, IGNORED), workers := c.workers - {w})
    else c
  }

  predicate IsRunning(c: Claims, w: nat) {
    w in c.workers && c.workers[w].Claimed? && c.workers[w].registered
  }

  function EndHandler(c: Claims, w: nat, end: HandlerEnd): Claims
    requires IsRunning(c, w)
  {
    var id := c.workers[w].id;
    match end
    case RETURNS => c.(workers := c.workers[w := Succeeded(id)], returned := c.returned + multiset{id})
    case RAISES => c.(workers := c.workers[w := Raised(id)])
    case DIES => c.(workers := c.workers - {w})
  }

  function Finish(c: Claims, w: nat): Claims {
    if w in c.workers && (c.workers[w].Succeeded? || c.workers[w].Raised?) then
      c.(events := Update(c.events, c.workers[w].id, {PROCESSING}, if c.workers[w].Succeeded? then PROCESSED else FAILED),
         workers := c.workers - {w})
    else c
  }

  function Crash(c: Claims, w: nat): Claims {
    c.(workers := c.workers - {w})
  }

  datatype Step =
    | Delivering(worker: nat, id: EventId, registered: bool)
    | Claiming(worker: nat)
    | Ignoring(worker: nat)
    | HandlerEnding(worker: nat, end: HandlerEnd)
    | Finishing(worker: nat)
    | Crashing(worker: nat)

  /** A step that is not enabled changes nothing. */
  function Do(c: Claims, step: Step): Claims {
    match step
    case Delivering(w, id, registered) => Deliver(c, w, id, registered)
    case Claiming(w) => Claim(c, w)
    case Ignoring(w) => Ignore(c, w)
    case HandlerEnding(w, end) => if IsRunning(c, w) then EndHandler(c, w, end) else c
    case Finishing(w) => Finish(c, w)
    case Crashing(w) => Crash(c, w)
  }

  /** Every interleaving of workers, redeliveries, failures and crashes is some sequence of steps. */
  function Run(c: Claims, steps: seq<Step>): Claims {
    if steps == [] then c else Do(Run(c, steps[..|steps| - 1]), steps[|steps| - 1])
  }

  /** At most one worker is between the claim and the finish of an event, and the event says so. */
  ghost predicate Exclusive(c: Claims) {
    && (forall w :: w in c.workers ==>
          && c.workers[w].id in c.events
          && (c.workers[w].Holds() ==> c.events[c.workers[w].id] == PROCESSING))
    && (forall v, w :: v in c.workers && w in c.workers && v != w && c.workers[v].Holds() && c.workers[w].Holds() ==>
          c.workers[v].id != c.workers[w].id)
  }

  /** A handler that has returned is never run again, and PROCESSED events are exactly of that kind. */
  ghost predicate SingleReturn(c: Claims) {
    && (forall id :: c.returned[id] <= 1)
    && (forall id :: id in c.returned ==> id in c.events && c.events[id] in {PROCESSING, PROCESSED})
    && (forall id :: id in c.events && c.events[id] == PROCESSED ==> id in c.returned)
    && (forall w :: w in c.workers && c.workers[w].Holds() ==>
          (c.workers[w].Succeeded? <==> c.workers[w].id in c.returned))
  }

  ghost predicate Inv(c: Claims) {
    Exclusive(c) && SingleReturn(c)
  }

  /** What no step ever does: take an event out of a final status, or forget it. */
  ghost predicate FinalKept(c: Claims, c': Claims) {
    forall id :: id in c.events ==>
      id in c'.events && (c.events[id] in {PROCESSED, IGNORED} ==> c'.events[id] == c.events[id])
  }

  lemma FinalKeptTransitive(a: Claims, b: Claims, c: Claims)
    requires FinalKept(a, b) && FinalKept(b, c)
    ensures FinalKept(a, c)
  {
  }

  lemma DeliverKeeps(c: Claims, w: nat, id: EventId, registered: bool)
    requires Inv(c)
    ensures Inv(Deliver(c, w, id, registered)) && FinalKept(c, Deliver(c, w, id, registered))
  {
    DeliverKeepsExclusive(c, w, id, registered);
  }

  lemma DeliverKeepsExclusive(c: Claims, w: nat, id: EventId, registered: bool)
    requires Exclusive(c)
    ensures Exclusive(Deliver(c, w, id, registered))
  {
  }

  lemma ClaimKeeps(c: Claims, w: nat)
    requires Inv(c)
    ensures Inv(Claim(c, w)) && FinalKept(c, Claim(c, w))
  {
    ClaimKeepsExclusive(c, w);
    ClaimKeepsReturns(c, w);
  }

  lemma ClaimKeepsExclusive(c: Claims, w: nat)
    requires Exclusive(c)
    ensures Exclusive(Claim(c, w)) && FinalKept(c, Claim(c, w))
  {
  }

  lemma ClaimKeepsReturns(c: Claims, w: nat)
    requires Exclusive(c) && SingleReturn(c)
    ensures SingleReturn(Claim(c, w))
  {
  }

  lemma EndHandlerKeeps(c: Claims, w: nat, end: HandlerEnd)
    requires Inv(c) && IsRunning(c, w)
    ensures Inv(EndHandler(c, w, end)) && FinalKept(c, EndHandler(c, w, end))
  {
    EndHandlerKeepsExclusive(c, w, end);
    EndHandlerKeepsReturns(c, w, end);
  }

  lemma EndHandlerKeepsExclusive(c: Claims, w: nat, end: HandlerEnd)
    requires Exclusive(c) && IsRunning(c, w)
    ensures Exclusive(EndHandler(c, w, end))
  {
  }

  lemma EndHandlerKeepsReturns(c: Claims, w: nat, end: HandlerEnd)
    requires Exclusive(c) && SingleReturn(c) && IsRunning(c, w)
    ensures SingleReturn(EndHandler(c, w, end))
  {
  }

  /** The finishing update always lands on the claim of the worker that makes it. */
  lemma FinishLands(c: Claims, w: nat)
    requires Inv(c) && w in c.workers && (c.workers[w].Succeeded? || c.workers[w].Raised?)
    ensures c.events[c.workers[w].id] == PROCESSING
    ensures Finish(c, w).events[c.workers[w].id] == if c.workers[w].Succeeded? then PROCESSED else FAILED
  {
  }

  /** A claim lands exactly on a pending or failed event, and then holds it; any other worker goes away. */
  lemma ClaimLandsIff(c: Claims, w: nat)
    requires Inv(c) && w in c.workers && c.workers[w].Created?
    ensures var id := c.workers[w].id;
      if c.events[id] == PENDING || c.events[id] == FAILED then
        && Claim(c, w).events == c.events[id := PROCESSING]
        && Claim(c, w).workers == c.workers[w := Claimed(id, c.workers[w].registered)]
      else Claim(c, w).events == c.events && Claim(c, w).workers == c.workers - {w}
  {
  }

  /** A worker that dies takes its claim's progress with it, and leaves every event as it was. */
  lemma CrashLeavesEvents(c: Claims, w: nat)
    ensures var c' := Do(c, Crashing(w)); c'.events == c.events && c'.workers == c.workers - {w} && c'.returned == c.returned
  {
  }

  /** An event of an unknown type, once claimed, is settled as IGNORED. */
  lemma IgnoreLands(c: Claims, w: nat)
    requires Inv(c) && w in c.workers && c.workers[w].Claimed? && !c.workers[w].registered
    ensures Ignore(c, w).events == c.events[c.workers[w].id := IGNORED] && w !in Ignore(c, w).workers
  {
  }

  /** A delivery brings in a new event as PENDING, and never touches one that is known. */
  lemma DeliveryRecords(c: Claims, w: nat, id: EventId, registered: bool)
    requires w !in c.workers
    ensures var c' := Deliver(c, w, id, registered);
      && c'.events == (if id in c.events then c.events else c.events[id := PENDING])
      && c'.workers == c.workers[w := Created(id, registered)]
  {
  }

  lemma FinishKeeps(c: Claims, w: nat)
    requires Inv(c)
    ensures Inv(Finish(c, w)) && FinalKept(c, Finish(c, w))
  {
  }

  lemma IgnoreKeeps(c: Claims, w: nat)
    requires Inv(c)
    ensures Inv(Ignore(c, w)) && FinalKept(c, Ignore(c, w))
  {
  }

  lemma CrashKeeps(c: Claims, w: nat)
    requires Inv(c)
    ensures Inv(Crash(c, w)) && FinalKept(c, Crash(c, w))
  {
  }

  lemma StepKeeps(c: Claims, step: Step)
    requires Inv(c)
    ensures Inv(Do(c, step)) && FinalKept(c, Do(c, step))
  {
    match step
    case Delivering(w, id, registered) => DeliverKeeps(c, w, id, registered);
    case Claiming(w) => ClaimKeeps(c, w);
    case Ignoring(w) => IgnoreKeeps(c, w);
    case HandlerEnding(w, end) => if IsRunning(c, w) { EndHandlerKeeps(c, w, end); }
    case Finishing(w) => FinishKeeps(c, w);
    case Crashing(w) => CrashKeeps(c, w);
  }

  /**
   Under every interleaving an event has at most one worker between claim and finish, its handler returns
   at most once, and once PROCESSED or IGNORED it stays so.
   */
  lemma {:induction false} ClaimsAreSafe(c: Claims, steps: seq<Step>)
    requires Inv(c)
    ensures Inv(Run(c, steps)) && FinalKept(c, Run(c, steps))
  {
    if steps != [] {
      ClaimsAreSafe(c, steps[..|steps| - 1]);
      StepKeeps(Run(c, steps[..|steps| - 1]), steps[|steps| - 1]);
    }
  }

  /** An event left behind by a dead worker stays PROCESSING for ever: no redelivery can claim it again. */
  lemma {:induction false} OrphanStaysProcessing(c: Claims, id: EventId, steps: seq<Step>)
    requires Inv(c) && id in c.events && c.events[id] == PROCESSING
    requires forall w :: w in c.workers && c.workers[w].Holds() ==> c.workers[w].id != id
    ensures var c' := Run(c, steps);
      && id in c'.events && c'.events[id] == PROCESSING
      && forall w :: w in c'.workers && c'.workers[w].Holds() ==> c'.workers[w].id != id
  {
    if steps != [] {
      OrphanStaysProcessing(c, id, steps[..|steps| - 1]);
    }
  }
}
