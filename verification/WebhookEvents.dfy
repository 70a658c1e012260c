/**
 One worker's uninterrupted handling of a webhook event over the event table
 (apps/subscriptions/services/webhook_handlers.py), tied to the steps of the claim protocol.
 */
module WebhookEvents {
  import opened Options
  import opened StripePeriods
  import opened WebhookClaims

  datatype EventRow = EventRow(eventType: string, status: EventStatus, errorMessage: Option<string>, processedAt: Option<Time>)

  /** What a worker that is not disturbed makes of the statuses, in the steps of the claim protocol. */
  function UndisturbedRun(events: map<EventId, EventStatus>, id: EventId, registered: bool, end: HandlerEnd): Claims {
    Run(Claims(events, map[], multiset{}),
        [Delivering(0, id, registered), Claiming(0), Third(registered, end), Finishing(0)])
  }

  lemma RunFour(c: Claims, s1: Step, s2: Step, s3: Step, s4: Step)
    ensures Run(c, [s1, s2, s3, s4]) == Do(Do(Do(Do(c, s1), s2), s3), s4)
  {
    var steps := [s1, s2, s3, s4];
    assert steps[..3][..2] == steps[..2] && steps[..2][..1] == steps[..1] && steps[..1][..0] == [];
    assert Run(c, steps[..1]) == Do(c, s1);
    assert Run(c, steps[..2]) == Do(Run(c, steps[..1]), s2);
    assert Run(c, steps[..3]) == Do(Run(c, steps[..2]), s3);
  }

  /** The status that an undisturbed worker leaves on an event it can claim. */
  function Outcome(registered: bool, end: HandlerEnd): EventStatus {
    if !registered then IGNORED
    else match end
      case RETURNS => PROCESSED
      case RAISES => FAILED
      case DIES => PROCESSING
  }

  function Third(registered: bool, end: HandlerEnd): Step {
    if registered then HandlerEnding(0, end) else Ignoring(0)
  }

  /** From the claim on. */
  lemma ClaimedSettles(events: map<EventId, EventStatus>, id: EventId, registered: bool, end: HandlerEnd)
    ensures var claimed := Claims(events[id := PROCESSING], map[0 := Claimed(id, registered)], multiset{});
      Do(Do(claimed, Third(registered, end)), Finishing(0)).events == events[id := Outcome(registered, end)]
  {
    var claimed := Claims(events[id := PROCESSING], map[0 := Claimed(id, registered)], multiset{});
    var after := Do(claimed, Third(registered, end));
    if registered && !end.DIES? {
      assert after.workers[0] == if end.RETURNS? then Succeeded(id) else Raised(id);
    } else {
      assert 0 !in after.workers;
    }
  }

  /** From the delivery on. */
  lemma DeliveredSettles(events: map<EventId, EventStatus>, id: EventId, registered: bool, end: HandlerEnd)
    requires id in events
    ensures var delivered := Claims(events, map[0 := Created(id, registered)], multiset{});
      Do(Do(Do(delivered, Claiming(0)), Third(registered, end)), Finishing(0)).events ==
        if events[id] in {PENDING, FAILED} then events[id := Outcome(registered, end)] else events
  {
    var delivered := Claims(events, map[0 := Created(id, registered)], multiset{});
    var claimed := Do(delivered, Claiming(0));
    if events[id] in {PENDING, FAILED} {
      assert claimed == Claims(events[id := PROCESSING], map[0 := Claimed(id, registered)], multiset{});
      ClaimedSettles(events, id, registered, end);
    } else {
      assert claimed.workers == map[];
    }
  }

  /** Taken together those steps settle a claimable event at once, and leave any other event alone. */
  lemma UndisturbedRunSettles(events: map<EventId, EventStatus>, id: EventId, registered: bool, end: HandlerEnd)
    ensures UndisturbedRun(events, id, registered, end).events ==
      if id in events && events[id] !in {PENDING, FAILED} then events else events[id := Outcome(registered, end)]
  {
    var start := Claims(events, map[], multiset{});
    RunFour(start, Delivering(0, id, registered), Claiming(0), Third(registered, end), Finishing(0));
    var known := if id in events then events else events[id := PENDING];
    assert Do(start, Delivering(0, id, registered)) == Claims(known, map[0 := Created(id, registered)], multiset{});
    DeliveredSettles(known, id, registered, end);
  }

  predicate Claimable(rows: map<EventId, EventRow>, id: EventId) {
    id in rows ==> rows[id].status in CLAIMABLE
  }

  /** The table after an undisturbed worker has handled the event; `error` is what its handler raises. */
  function Settled(rows: map<EventId, EventRow>, id: EventId, eventType: string, registered: bool, error: Option<string>, now: Time)
    : map<EventId, EventRow>
  {
    if !Claimable(rows, id) then rows
    else
      var status := if !registered then IGNORED else if error.None? then PROCESSED else FAILED;
      rows[id := EventRow(if id in rows then rows[id].eventType else eventType, status,
                          if registered then error else None, Some(now))]
  }

  function Statuses(rows: map<EventId, EventRow>): map<EventId, EventStatus> {
    map id | id in rows :: rows[id].status
  }

  /** A free event is settled with its outcome, time and error; any other, and every other row, stays as it was. */
  lemma SettledMeans(rows: map<EventId, EventRow>, id: EventId, eventType: string, registered: bool, error: Option<string>, now: Time)
    ensures var free := id !in rows || rows[id].status == PENDING || rows[id].status == FAILED;
      var after := Settled(rows, id, eventType, registered, error, now);
      if !free then after == rows
      else after == rows[id := EventRow(if id in rows then rows[id].eventType else eventType,
                                        if !registered then IGNORED else if error.Some? then FAILED else PROCESSED,
                                        if registered then error else None, Some(now))]
  {
  }

  lemma SettledFollowsProtocol(rows: map<EventId, EventRow>, id: EventId, eventType: string, registered: bool, error: Option<string>, now: Time)
    ensures Statuses(Settled(rows, id, eventType, registered, error, now)) ==
      UndisturbedRun(Statuses(rows), id, registered, if error.None? then RETURNS else RAISES).events
  {
    UndisturbedRunSettles(Statuses(rows), id, registered, if error.None? then RETURNS else RAISES);
  }

  class StripeWebhookEvents {
    var rows: map<EventId, EventRow>

    constructor ()
      ensures rows == map[]
    {
      rows := map[];
    }

    method GetOrCreate(id: EventId, eventType: string)
      modifies this
      ensures rows == if id in old(rows) then old(rows) else old(rows)[id := EventRow(eventType, PENDING, None, None)]
    {
      if id !in rows {
        rows := rows[id := EventRow(eventType, PENDING, None, None)];
      }
    }

    /** The conditional update every claim and finish goes through; it reports how many rows it hit. */
    method UpdateWhere(id: EventId, from: set<EventStatus>, status: EventStatus, errorMessage: Option<string>, processedAt: Option<Time>)
      returns (updated: nat)
      modifies this
      ensures updated == if id in old(rows) && old(rows)[id].status in from then 1 else 0
      ensures rows == if updated == 0 then old(rows)
                      else old(rows)[id := EventRow(old(rows)[id].eventType, status, errorMessage, processedAt)]
    {
      updated := 0;
      if id in rows && rows[id].status in from {
        rows := rows[id := EventRow(rows[id].eventType, status, errorMessage, processedAt)];
        updated := 1;
      }
    }

    /**
     `handlerError` is what the handler raises, if anything, should it be run. The handler is run exactly when
     the event is well formed, its type is registered and this worker wins the claim.
     */
    method HandleStripeWebhookEvent(id: EventId, eventType: string, hasObject: bool, registry: set<string>,
                                    handlerError: Option<string>, now: Time)
      returns (handled: bool, ran: bool, raised: bool)
      modifies this
      ensures (id == "" || eventType == "" || !hasObject) ==> rows == old(rows) && !handled && !ran && !raised
      ensures id != "" && eventType != "" && hasObject ==>
        && rows == Settled(old(rows), id, eventType, eventType in registry, handlerError, now)
        && (ran <==> eventType in registry && Claimable(old(rows), id))
        && (handled <==> ran && handlerError.None?)
        && (raised <==> ran && handlerError.Some?)
      ensures var wellFormed := id != "" && eventType != "" && hasObject;
        var free := id !in old(rows) || old(rows)[id].status == PENDING || old(rows)[id].status == FAILED;
        && (ran <==> wellFormed && free && eventType in registry)
        && (handled <==> ran && handlerError.None?) && (raised <==> ran && handlerError.Some?)
    {
      handled, ran, raised := false, false, false;
      if id == "" || eventType == "" || !hasObject {
        return;
      }
      GetOrCreate(id, eventType);
      var claimed := UpdateWhere(id, CLAIMABLE, PROCESSING, None, None);
      if claimed == 0 {
        return;
      }
      if eventType !in registry {
        var _ := UpdateWhere(id, {PROCESSING}, IGNORED, None, Some(now));
        return;
      }
      ran := true;
      if handlerError.Some? {
        var _ := UpdateWhere(id, {PROCESSING}, FAILED, handlerError, Some(now));
        raised := true;
        return;
      }
      var _ := UpdateWhere(id, {PROCESSING}, PROCESSED, None, Some(now));
      handled := true;
    }
  }
}
