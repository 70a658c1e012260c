/**
 One Stripe customer per user (apps/subscriptions/services/create_pro_subscription.py): concurrent checkout
 requests, each of which locks the user's row, may call Stripe's idempotent customer API, and commits or
 rolls back.
 */
module StripeCustomers {
  import opened Options
  import opened SubscriptionRow
  import opened UserSubscriptions
  import opened Numerals

  const CHECKOUT_SESSION_IDEMPOTENCY_WINDOW_SECONDS := 600

  function CustomerKey(userId: nat): string {
    "chatea:customer:" + Decimal(userId)
  }

  function SessionKey(userId: nat, now: nat): string {
    "chatea:checkout-session:" + Decimal(userId) + ":" + Decimal(now / CHECKOUT_SESSION_IDEMPOTENCY_WINDOW_SECONDS)
  }

  lemma CustomerKeysDiffer(u: nat, v: nat)
    requires CustomerKey(u) == CustomerKey(v)
    ensures u == v
  {
    assert Decimal(u) == CustomerKey(u)[16..] && Decimal(v) == CustomerKey(v)[16..];
    NumeralsDiffer(u, v, TEN);
  }

  /** Two checkout requests share a session key exactly for one user inside one ten-minute bucket. */
  lemma SessionKeysPerUserAndBucket(u: nat, v: nat, t: nat, t': nat)
    ensures SessionKey(u, t) == SessionKey(v, t') <==> u == v && t / 600 == t' / 600
  {
    if SessionKey(u, t) == SessionKey(v, t') {
      var a, b := Decimal(u) + ":" + Decimal(t / 600), Decimal(v) + ":" + Decimal(t' / 600);
      assert SessionKey(u, t) == "chatea:checkout-session:" + a && SessionKey(v, t') == "chatea:checkout-session:" + b;
      assert a == SessionKey(u, t)[24..] && b == SessionKey(v, t')[24..];
      SplitsOnce(Decimal(u), Decimal(t / 600), Decimal(v), Decimal(t' / 600), ':');
      NumeralsDiffer(u, v, TEN);
      NumeralsDiffer(t / 600, t' / 600, TEN);
    }
  }

  // ---------- The protocol ----------

  /** A transaction that holds the lock of a row without a customer: before or after Stripe has answered. */
  datatype Txn = Locked | Answered(customer: string)

  /** `stored` is the committed customer id of each user; `owner` the user each Stripe customer was made for. */
  datatype State = State(
    active: set<nat>,
    stored: map<nat, string>,
    txns: map<nat, Txn>,
    byKey: map<string, string>,
    owner: map<string, nat>)

  function Init(): State {
    State({}, map[], map[], map[], map[])
  }

  datatype Step =
    | Request(user: nat)
    | StripeAnswers(user: nat, minted: string)
    | StripeFails(user: nat)
    | ReplyLost(user: nat, minted: string)  // Stripe acted, but its reply never arrived
    | Commit(user: nat)
    | Rollback(user: nat)
    | StatusChanges(user: nat, toActive: bool)

  /** The customer API: a key seen before gives the customer it made then, a new key makes a new one. */
  function CallStripe(s: State, user: nat, minted: string): State {
    if CustomerKey(user) in s.byKey then s
    else s.(byKey := s.byKey[CustomerKey(user) := minted], owner := s.owner[minted := user])
  }

  predicate IsLocked(s: State, user: nat) {
    user in s.txns && s.txns[user].Locked?
  }

  function Do(s: State, step: Step): State {
    match step
    case Request(u) =>
      // A locked row makes the request wait; an active or known customer needs no transaction.
      if u in s.txns || u in s.active || u in s.stored then s else s.(txns := s.txns[u := Locked])
    case StripeAnswers(u, minted) =>
      if IsLocked(s, u) && minted !in s.owner then
        var called := CallStripe(s, u, minted);
        called.(txns := s.txns[u := Answered(called.byKey[CustomerKey(u)])])
      else s
    case StripeFails(u) => if IsLocked(s, u) then s.(txns := s.txns - {u}) else s
    case ReplyLost(u, minted) =>
      if IsLocked(s, u) && minted !in s.owner then CallStripe(s, u, minted).(txns := s.txns - {u}) else s
    case Commit(u) =>
      if u in s.txns && s.txns[u].Answered? then
        s.(stored := s.stored[u := s.txns[u].customer], txns := s.txns - {u})
      else s
    case Rollback(u) => s.(txns := s.txns - {u})
    case StatusChanges(u, toActive) =>
      if u in s.txns then s else s.(active := if toActive then s.active + {u} else s.active - {u})
  }

  function After(steps: seq<Step>): State {
    if steps == [] then Init() else Do(After(steps[..|steps| - 1]), steps[|steps| - 1])
  }

  /** Stripe's customers and idempotency keys go together, one for one. */
  ghost predicate KeysOk(byKey: map<string, string>, owner: map<string, nat>) {
    && (forall c :: c in owner ==> CustomerKey(owner[c]) in byKey && byKey[CustomerKey(owner[c])] == c)
    && (forall u :: CustomerKey(u) in byKey ==> byKey[CustomerKey(u)] in owner && owner[byKey[CustomerKey(u)]] == u)
  }

  ghost predicate StoredOk(stored: map<nat, string>, owner: map<string, nat>) {
    forall u :: u in stored ==> stored[u] in owner && owner[stored[u]] == u
  }

  ghost predicate TxnsOk(s: State) {
    forall u :: u in s.txns ==>
      && u !in s.stored
      && (s.txns[u].Answered? ==> s.txns[u].customer in s.owner && s.owner[s.txns[u].customer] == u)
  }

  ghost predicate Inv(s: State) {
    KeysOk(s.byKey, s.owner) && StoredOk(s.stored, s.owner) && TxnsOk(s)
  }

  lemma NewKeyKeeps(byKey: map<string, string>, owner: map<string, nat>, u: nat, minted: string)
    requires KeysOk(byKey, owner) && minted !in owner && CustomerKey(u) !in byKey
    ensures KeysOk(byKey[CustomerKey(u) := minted], owner[minted := u])
  {
    forall v | CustomerKey(v) == CustomerKey(u) ensures v == u {
      CustomerKeysDiffer(v, u);
    }
  }

  lemma CallStripeKeeps(s: State, u: nat, minted: string)
    requires Inv(s) && minted !in s.owner
    ensures var s' := CallStripe(s, u, minted); Inv(s') && CustomerKey(u) in s'.byKey
  {
    if CustomerKey(u) !in s.byKey {
      NewKeyKeeps(s.byKey, s.owner, u, minted);
    }
  }

  lemma AnswerKeeps(s: State, u: nat, minted: string)
    requires Inv(s) && IsLocked(s, u) && minted !in s.owner
    ensures Inv(Do(s, StripeAnswers(u, minted)))
  {
    CallStripeKeeps(s, u, minted);
  }

  lemma LostReplyKeeps(s: State, u: nat, minted: string)
    requires Inv(s) && IsLocked(s, u) && minted !in s.owner
    ensures Inv(Do(s, ReplyLost(u, minted)))
  {
    CallStripeKeeps(s, u, minted);
  }

  lemma StepKeeps(s: State, step: Step)
    requires Inv(s)
    ensures Inv(Do(s, step)) && StoredKept(s.stored, Do(s, step).stored)
  {
    match step
    case StripeAnswers(u, minted) => if IsLocked(s, u) && minted !in s.owner { AnswerKeeps(s, u, minted); }
    case ReplyLost(u, minted) => if IsLocked(s, u) && minted !in s.owner { LostReplyKeeps(s, u, minted); }
    case _ => LocalStepKeeps(s, step);
  }

  ghost predicate StoredKept(stored: map<nat, string>, stored': map<nat, string>) {
    forall u :: u in stored ==> u in stored' && stored'[u] == stored[u]
  }

  lemma LocalStepKeeps(s: State, step: Step)
    requires Inv(s) && !step.StripeAnswers? && !step.ReplyLost?
    ensures Inv(Do(s, step)) && StoredKept(s.stored, Do(s, step).stored)
  {
  }

  lemma {:induction false} InvHolds(steps: seq<Step>)
    ensures Inv(After(steps))
  {
    if steps != [] {
      InvHolds(steps[..|steps| - 1]);
      StepKeeps(After(steps[..|steps| - 1]), steps[|steps| - 1]);
    }
  }

  /**
   Over every interleaving of requests, provider failures and rollbacks, Stripe holds at most one customer
   per user, a stored id is that customer, and no two users share one.
   */
  lemma OneCustomerPerUser(steps: seq<Step>)
    ensures var s := After(steps);
      && (forall c, d :: c in s.owner && d in s.owner && s.owner[c] == s.owner[d] ==> c == d)
      && (forall u :: u in s.stored ==> s.stored[u] in s.owner && s.owner[s.stored[u]] == u)
      && (forall u, v :: u in s.stored && v in s.stored && s.stored[u] == s.stored[v] ==> u == v)
  {
    InvHolds(steps);
  }

  lemma AfterSnoc(steps: seq<Step>, step: Step)
    ensures After(steps + [step]) == Do(After(steps), step)
  {
    assert (steps + [step])[..|steps|] == steps;
  }

  lemma StoredSnoc(stored: map<nat, string>, steps: seq<Step>, step: Step)
    requires StoredKept(stored, After(steps).stored)
    ensures StoredKept(stored, After(steps + [step]).stored)
  {
    InvHolds(steps);
    StepKeeps(After(steps), step);
    AfterSnoc(steps, step);
  }

  /** A stored customer id never changes. */
  lemma {:induction false} StoredCustomerNeverChanges(steps: seq<Step>, later: seq<Step>)
    ensures StoredKept(After(steps).stored, After(steps + later).stored)
  {
    if later == [] {
      assert steps + later == steps;
    } else {
      var init, last := later[..|later| - 1], later[|later| - 1];
      StoredCustomerNeverChanges(steps, init);
      StoredSnoc(After(steps).stored, steps + init, last);
      assert steps + later == (steps + init) + [last];
    }
  }

  /** A request that nothing interrupts stores the customer Stripe made under the user's key, or makes now. */
  lemma WholeRequest(s: State, user: nat, minted: string)
    requires user !in s.txns && user !in s.active && user !in s.stored && minted !in s.owner
    ensures var s' := Do(Do(Do(s, Request(user)), StripeAnswers(user, minted)), Commit(user));
      var known := CustomerKey(user) in s.byKey;
      && s'.stored == s.stored[user := if known then s.byKey[CustomerKey(user)] else minted]
      && s'.byKey == (if known then s.byKey else s.byKey[CustomerKey(user) := minted])
      && s'.txns == s.txns
  {
    var asked := Do(s, Request(user));
    var answered := Do(asked, StripeAnswers(user, minted));
    assert asked.txns - {user} == s.txns && answered.txns - {user} == s.txns;
  }

  /** A failure, a lost reply or a rollback stores nothing, and lets the next request in; the first two differ at Stripe. */
  lemma FailedRequest(s: State, user: nat, minted: string)
    requires user !in s.txns && user !in s.active && user !in s.stored && minted !in s.owner
    ensures var asked := Do(s, Request(user));
      && Do(asked, StripeFails(user)) == s && Do(asked, Rollback(user)) == s
      && Do(asked, ReplyLost(user, minted)) == CallStripe(s, user, minted)
      && CustomerKey(user) in CallStripe(s, user, minted).byKey
  {
    var asked := Do(s, Request(user));
    assert asked.txns - {user} == s.txns;
  }

  /** Active users, and users with a customer, are not asked for; a locked row keeps its status. */
  lemma IdleRequests(s: State, user: nat, toActive: bool)
    ensures user in s.txns || user in s.active || user in s.stored ==> Do(s, Request(user)) == s
    ensures Do(s, StatusChanges(user, toActive)) ==
      if user in s.txns then s else s.(active := if toActive then s.active + {user} else s.active - {user})
  {
  }

  // ---------- One request, as the service runs it ----------

  /** Stripe's customer API: the customers it has made, by idempotency key. */
  class StripeApi {
    var byKey: map<string, string>

    constructor ()
      ensures byKey == map[]
    {
      byKey := map[];
    }

    /** `minted` is the id Stripe would mint for a new key. */
    method CreateCustomer(key: string, minted: string) returns (customer: string)
      modifies this
      ensures byKey == if key in old(byKey) then old(byKey) else old(byKey)[key := minted]
      ensures customer == byKey[key]
    {
      if key !in byKey {
        byKey := byKey[key := minted];
      }
      customer := byKey[key];
    }
  }

  datatype RequestError = ALREADY_ACTIVE | PROVIDER_ERROR

  /**
   Makes sure the user has a Stripe customer. Stripe is called, with the user's own key, only for a row that
   is not active and has none; a customer id already stored is left alone.
   */
  method EnsureStripeCustomer(subscription: UserSubscription, stripe: StripeApi, minted: string, stripeFails: bool)
    returns (error: Option<RequestError>)
    modifies subscription`customerId, stripe
    ensures error == Some(ALREADY_ACTIVE) <==> subscription.status == ACTIVE
    ensures var missing := old(subscription.customerId) == None || old(subscription.customerId) == Some("");
      && (error == Some(RequestError.PROVIDER_ERROR) <==> subscription.status != ACTIVE && missing && stripeFails)
      && (error.Some? || !missing ==> subscription.customerId == old(subscription.customerId) && stripe.byKey == old(stripe.byKey))
      && (error.None? && missing ==>
            var key := CustomerKey(subscription.userId);
            && key in stripe.byKey
            && subscription.customerId == Some(stripe.byKey[key])
            && stripe.byKey == if key in old(stripe.byKey) then old(stripe.byKey) else old(stripe.byKey)[key := minted])
  {
    if subscription.status == ACTIVE {
      return Some(ALREADY_ACTIVE);
    }
    if subscription.customerId == None || subscription.customerId == Some("") {
      if stripeFails {
        return Some(RequestError.PROVIDER_ERROR);
      }
      var customer := stripe.CreateCustomer(CustomerKey(subscription.userId), minted);
      subscription.customerId := Some(customer);
    }
    return None;
  }
}
