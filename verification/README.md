# ChatEA: billing pipeline and private chats

A Dafny model of the two protocols at the heart of the repository, and of the smaller ones around them.

**Billing** (`apps/subscriptions`). Stripe's webhooks arrive duplicated, out of order and on concurrent workers.
A worker claims the event with a conditional update, runs a handler in one row-locked transaction over the
customer's subscription row, and finishes the event with another conditional update; the emails a handler calls
for are deferred to its commit and sent by tasks that retry.

- `StripePeriods`, `StripeMappers`: from Stripe's objects to events and period boundaries.
- `SubscriptionRow`: the row as a value and the transition every event makes; `UserSubscriptions`: the services
  that assign its fields, each proved to make that transition.
- `BillingHistory`: what a history of events and cancellations leaves, declared field by field without running them.
- `Provenance`: where a stored period end comes from, cancellations saved late included.
- `BillingLedger`: row, notifications and tasks together; superseded subscriptions and arrival order;
  `InvoiceHandlers`: the handlers over the row, the notification table and the task queue.
- `WebhookClaims`, `WebhookEvents`: the claim protocol as a step system, and one worker's run of it as the service.
- `EmailTasks`: the task and notification state machine.
- `BillingSystem`: all of it interleaved. A transaction is one step; a step that is not enabled changes nothing,
  so a statement about every sequence of steps is a statement about every reachable state.
- `BillingProvenance`: the provenance results for every reachable state of that system.
- `StripeCustomers`: idempotency keys and the one-customer-per-user protocol.

**Chat** (`apps/chat`). A consumer keeps a ledger of private chats, the chats it closed, and its channel groups;
a Redis hash outlives the connection; invites, offline notices and messages travel through the channel layer.

- `Numerals`, `ChatIds`: issued ids and group names.
- `PrivateChats`: one identity's chats, connection after connection: ceiling and restore.
- `ChatSystem`: any number of consumers, Redis and the events in flight; one handler is one step.
- `ChatIsolation`, `ChatReachability`: who can be in a private group, and who is reached through it.
- `ChatPayloads`: what a client's payload says once it is validated.
- `ChatConsumers`: the handlers over the consumer's own fields, tied to the steps above.
- `GuestIdentity`: nickname ownership over single interleaved Redis commands.
- `RateLimit`: the shared fixed window, again over single commands.
- `BotCache`: the bot cache, its loader and its message service; `BotLoads`: any number of loads and admin changes
  interleaved; `BotFeed`: the spacing of bot messages.
- `Links`: the link splitter.

What single steps do is said from the fields alone, apart from the functions that compute it, so that the larger
results cannot all lean on one definition: `PrivateChats.InviteToNobody` and `InviteLeaves`, `ChatConsumers.InviteSends`, `ConnectMeans`,
`CloseMeans`, `RegisterMeans`, `MessageMeans`, `PresenceMeans`, `IssuingMeans`, `OutcomeAsks`, `SessionSteps`, `InviteStep`
and `ChatSteps`; `BillingSystem.CommitMeans` and `PartsStep`; `SubscriptionRow.StripeStatusMeans` and
`BillingHistory.DeletionEnds`; `StripePeriods.ItemReads` and `TimestampReads`; `WebhookClaims.IgnoreLands`,
`DeliveryRecords` and `CrashLeavesEvents`; `WebhookEvents.SettledMeans`; `EmailTasks.CancellationFinishes`;
`GuestIdentity.StepsAreServices` and `TickPasses`; `StripeCustomers.IdleRequests`; `BotCache.MatchesMeans` and
`TopicsExpire`; `BotLoads.ChangeMeans`, `SaveMeans` and `TicksMean`; `BotFeed.IdleTicks`; `ChatPayloads.BlanksAre` and
`Links.SpacesAre`. In each step system `AfterSnoc` or `RunWholeSnoc` says that a longer run is one more step.

Seven properties one might expect do not hold of the code, and are stated with their exact conditions.

- Arrival order can change which emails are queued when a checkout supersedes another recorded subscription:
  `BillingLedger.EmailsIgnoreOrderIff`, for every history.
- A cancellation that is saved after another subscription was recorded stores a period end that may belong to the
  superseded one: `Provenance.EndStemsIff` for every history, `Provenance.SaveIsHarmlessIff` for the next save, and
  `Provenance.LateSaveInstance`.
- A cancellation can erase a period end that was stored after it read the row, and Pro with it, when Stripe's reply
  has no readable one: `BillingHistory.PeriodEndIsKeptIff` and `Provenance.EndIsKeptIff` for every history, with
  `Provenance.CancelDropsEndInstance` as the instance.
- An email can be delivered twice when its sent mark could not be saved: `BillingSystem.AtMostOneEmail`, with
  `EmailTasks.LostMarkSendsTwice` for every such retry.
- The cached bots can differ from the database's under a live loaded flag, when a change is cleared while a load is
  under way or when loads overlap: `BotLoads.CacheMatchesIff`, with `BotLoads.ChangeDuringLoadIsStale` and
  `BotLoads.OverlappingLoadsHideBots` as instances.
- Overlapping bot ticks can repeat a message within the hour: `BotFeed.MessagesAreSpaced`, with
  `BotFeed.OverlappingTicksRepeat` as the instance.
- The two nickname mappings can disagree once an id registers a second nickname, which happens when the admin form
  edits a username and the next login or chat visit registers the new one: `GuestIdentity.RunAgreesIff`, for every
  interleaving of commands, with `GuestIdentity.SecondNickBreaksAgreement` and
  `GuestIdentity.InterleavedRegistrationsDisagree` as instances.

## Model

| member | source | states |
|---|---|---|
| `BillingHistory.HandlersLeaveDeclaredRow` | apps/subscriptions/services/user_subscription.py:59-435 | For every history of events and saved cancellations from a fresh row, running them leaves exactly the declared row: the id is the last checkout's, else the first invoice's; status, period start and cancellation dates are the last accepted writer's; the cancel flag's and the period end's writers include the cancellations, and skip absent ends of paid and updated; the start is the first one offered since the last checkout |
| `SubscriptionRow.HooksRun` | apps/subscriptions/services/user_subscription.py:133-381 | A history of webhooks alone leaves, as a history of changes, what the handlers leave |
| `BillingHistory.AcceptedIsAccepts` | apps/subscriptions/services/user_subscription.py:112-130 | An event is accepted along a run exactly when its subscription is the current one by position in the history, or it is a checkout, or an invoice event before any subscription is known |
| `BillingHistory.LastWriter` | apps/subscriptions/services/user_subscription.py:207-218 | The chosen event wrote the field and no later one did; nothing is chosen exactly when no event wrote it |
| `BillingHistory.StartWriter` | apps/subscriptions/services/user_subscription.py:220-221 | The first event since the last checkout that offered a start date |
| `BillingHistory.ProByHistory` | apps/subscriptions/models/user_subscription.py:35-52 | Over every history Pro is granted at a moment if and only if the last accepted event was no deletion and reported Stripe's active, trialing or past_due, and the last change of the period end set one after that moment |
| `StripePeriods.BoundaryIsReported` | apps/integrations/stripe/subscriptions.py:27-70 | The boundary is the first Pro item's own date when a Pro price is configured and sold, else the minimum of the readable dates, and absent exactly when there is none |
| `StripeMappers.SnapshotReads` | apps/subscriptions/webhook_handlers/mappers.py:45-57 | Every field of a snapshot comes from its own field of the Stripe object, and its two period fields are the promised boundaries of its items |
| `StripeMappers.RefusedIff` | apps/subscriptions/webhook_handlers/mappers.py:29-41 | A delivery is refused exactly when it names no customer, or is an invoice without a subscription, in that order |
| `StripeMappers.EventSays` | apps/subscriptions/webhook_handlers/mappers.py:29-125 | Any other becomes the event of its own kind, about the subscription Stripe holds, or the one a failed invoice names |
| `StripePeriods.Earliest` | apps/integrations/stripe/subscriptions.py:59-70 | The result is one of the items' readable boundaries and a lower bound of all of them |
| `Provenance.UnlinkedIsPristine` | apps/subscriptions/services/user_subscription.py:384-435 | After any number of webhooks and cancellations, saved at once or late, a row without a subscription id is as it was created |
| `Provenance.PeriodEndIsReported` | apps/subscriptions/services/user_subscription.py:59-78 | Over every history of webhooks and cancellations, saved at once or late, a stored period end was reported by Stripe for the subscription it stems from |
| `Provenance.EndStemsIff` | apps/subscriptions/services/user_subscription.py:391-433 | Over every history the stored period end stems throughout from the recorded subscription if and only if every cancellation that saved one saved it to the row of the subscription it had read |
| `Provenance.SaveIsHarmlessIff` | apps/subscriptions/services/user_subscription.py:391-433 | A cancellation past its guards leaves a period end reported for the recorded subscription, whatever Stripe replies, if and only if the row still records the subscription that the request read |
| `Provenance.LateSaveStoresForeignEnd` | apps/subscriptions/services/user_subscription.py:420-433 | After any history in which another subscription was recorded meanwhile, a reply whose period end the late save stores although it was never reported for the recorded subscription |
| `Provenance.LateSaveInstance` | apps/subscriptions/services/user_subscription.py:420-433 | A concrete history of two checkouts and a cancellation read between them, after which the second subscription's row holds the first one's period end and grants Pro by it |
| `StripePeriods.BoundaryIsUnique` | apps/integrations/stripe/subscriptions.py:27-70 | Only one boundary is the one promised |
| `Provenance.ProRestsOnCurrentSubscription` | apps/subscriptions/models/user_subscription.py:35-52 | Over every history a row, without further events, either never grants Pro or grants it exactly until its period end, which was reported for the subscription it stems from; that is the recorded one as long as every cancellation saved what it read |
| `BillingHistory.PeriodEndIsKeptIff` | apps/subscriptions/services/user_subscription.py:59-78 | Over every history of events and saved cancellations, a row with a period end keeps one throughout if and only if every checkout and every accepted deletion carries one and every cancellation saves one; whatever paid, failed and updated events leave unread never takes it away |
| `Provenance.EndIsKeptIff` | apps/subscriptions/services/user_subscription.py:420-433 | The same by what the parties could see: a stored period end is kept throughout if and only if no accepted checkout or deletion came without a readable one, and no cancellation that passed its guards paired a reply without a readable one with a row read without one |
| `Provenance.CancelDropsEndInstance` | apps/subscriptions/services/user_subscription.py:420-433 | A concrete history in which a cancellation, read before a paid invoice and saved after it for the same subscription, erases the period end that the invoice stored, and Pro with it |
| `UserSubscriptions.UserSubscription.BindSubscriptionEvent` | apps/subscriptions/services/user_subscription.py:95-130 | Succeeds exactly for an unlinked row or the recorded subscription, and then records it; otherwise changes nothing |
| `UserSubscriptions.UserSubscription.SyncFromCheckout` | apps/subscriptions/services/user_subscription.py:133-189 | The new row is the checkout transition of the old one |
| `UserSubscriptions.UserSubscription.MarkPaid` | apps/subscriptions/services/user_subscription.py:192-237 | Accepts exactly what the row accepts, and the new row is the paid transition of the old one |
| `UserSubscriptions.UserSubscription.MarkPaymentFailed` | apps/subscriptions/services/user_subscription.py:240-263 | Accepts exactly what the row accepts, and the new row is the failed transition of the old one |
| `UserSubscriptions.UserSubscription.SyncFromStripe` | apps/subscriptions/services/user_subscription.py:266-315 | Accepts exactly the recorded subscription, and the new row is the updated transition of the old one |
| `UserSubscriptions.UserSubscription.MarkDeleted` | apps/subscriptions/services/user_subscription.py:339-381 | Accepts exactly the recorded subscription, the new row is the deleted transition, and an accepted deletion always leaves an end date |
| `UserSubscriptions.UserSubscription.CancelAtPeriodEnd` | apps/subscriptions/services/user_subscription.py:384-435 | The guards, in order, are on the row as it was read without a lock, Stripe is called only past them, and a scheduled cancellation saves the cancel flag and the freshest end it knows over whatever the row has become, touching no other field |
| `BillingLedger.ProcessRow` | apps/subscriptions/webhook_handlers/invoices.py:13-44 | Queueing notifications never disturbs the row: handlers leave in it what the services alone would |
| `BillingLedger.EmailsComeFromEvents` | apps/subscriptions/webhook_handlers/invoices.py:13-44 | Over every history each receipt comes from a paid event of its invoice and each warning from a failed one, with that event's url, each cancellation email from a deletion, and all go to the row's user |
| `BillingLedger.StaleEventsLeaveNoTrace` | apps/subscriptions/services/user_subscription.py:112-130 | Erasing any set of events rejected as stale leaves the final row, notifications and tasks unchanged |
| `BillingHistory.RecordedIdReplacedOnlyByCheckout` | apps/subscriptions/services/user_subscription.py:133-149 | From a linked row, the recorded id after any history of events and cancellations is the last checkout's, or unchanged when there is none |
| `BillingLedger.SameReportInstallsSnapshot` | apps/subscriptions/services/user_subscription.py:133-315 | Any sequence of one state's reports that holds a checkout ends in that snapshot, whatever the row was |
| `BillingLedger.AwaitedInvoicesAllQueue` | apps/subscriptions/webhook_handlers/invoices.py:13-44 | On a row that awaits the subscription, the queued notifications are exactly those its invoice events call for |
| `BillingLedger.ArrivalOrderIsIrrelevant` | apps/subscriptions/services/user_subscription.py:95-315 | Any two orders of a checkout and paid, failed and updated reports of one state end in the same row; and on a row with no subscription or this one, with the same notifications queued |
| `BillingLedger.EmailsIgnoreOrderIff` | apps/subscriptions/services/user_subscription.py:95-315 | All orders of any history that reports one state of one subscription, a checkout among its events, queue the same notifications if and only if the row had no other subscription, or the history calls for no notification |
| `BillingLedger.OnlyCalledForQueue` | apps/subscriptions/webhook_handlers/invoices.py:13-44 | Whatever the row, the history and its order, only notifications that its invoice events call for are queued |
| `BillingLedger.OrderMattersWhenSuperseding` | apps/subscriptions/services/user_subscription.py:122-130 | The same for one invoice and one checkout, which may report different states |
| `InvoiceHandlers.BillingDesk.QueueInvoiceEmailNotification` | apps/subscriptions/services/invoice_notifications.py:10-38 | One row per invoice and email type, created pending; a task is deferred exactly when it is new, pending or failed |
| `InvoiceHandlers.BillingDesk.HandleInvoicePaid` | apps/subscriptions/webhook_handlers/invoices.py:13-27 | For an accepted invoice the row's id, the pending PAYMENT_SUCCEEDED notification of that invoice and its one email to the row's user with the invoice's url, unless it was sent or skipped, together with the row's transition; nothing for a stale or malformed one, with its error |
| `InvoiceHandlers.BillingDesk.HandleInvoicePaymentFailed` | apps/subscriptions/webhook_handlers/invoices.py:30-44 | The same for a failed payment and its PAYMENT_FAILED notification and email |
| `InvoiceHandlers.BillingDesk.HandleCheckoutSessionCompleted` | apps/subscriptions/webhook_handlers/checkout.py:12-16 | The ledger transition of a checkout, or nothing for a subscription without customer |
| `InvoiceHandlers.BillingDesk.HandleSubscriptionUpdated` | apps/subscriptions/webhook_handlers/subscriptions.py:18-24 | The ledger transition of an update, or nothing for a subscription without customer |
| `InvoiceHandlers.BillingDesk.HandleSubscriptionDeleted` | apps/subscriptions/webhook_handlers/subscriptions.py:27-41 | The ledger transition of a deletion: an accepted one queues the cancellation email with the row's new end date |
| `InvoiceHandlers.InvoiceNotification.SendEmail` | apps/subscriptions/tasks/invoice_notifications.py:20-76 | One task run from what the user table, mail server and saves answer: an email leaves exactly when the notification was not sent, the user exists, the type is known and the send works; when it raises, which status is stored, and with which dates and error text; and that this is the step system's ending |
| `EmailTasks.EndMovesStatus` | apps/subscriptions/tasks/invoice_notifications.py:32-76 | A whole run of a task in the step system leaves on its notification the status that `SendEmail` leaves, and touches no other notification |
| `EmailTasks.EndRequeues` | apps/subscriptions/tasks/invoice_notifications.py:20-25 | After a whole run a task is queued again exactly when it found work, raised and had made fewer than three retries; no other task moves |
| `EmailTasks.EnqueueKeeps` | apps/subscriptions/services/invoice_notifications.py:19-36 | A commit appends exactly its own tasks, each queued, and keeps all notifications and earlier tasks |
| `EmailTasks.StepKeeps` | apps/subscriptions/tasks/invoice_notifications.py:32-76 | Every task step, deaths before and after sending included, keeps deliveries equal to recorded sends plus those whose mark was lost, runs of one notification apart, sent notifications sent, and every task under its number until it is finished, which needs a sent notification, or given up, which needs a death or three retries |
| `WebhookClaims.ClaimsAreSafe` | apps/subscriptions/services/webhook_handlers.py:34-95 | Under every interleaving at most one worker is between claim and finish of an event, its handler returns at most once, and processed and ignored events stay so |
| `WebhookClaims.FinishLands` | apps/subscriptions/services/webhook_handlers.py:86-93 | A finishing update finds the event still processing, under its own worker's claim, and settles it |
| `WebhookClaims.ClaimLandsIff` | apps/subscriptions/services/webhook_handlers.py:41-58 | A claim lands exactly on a pending or failed event and then holds it; any other delivery is dropped without a trace |
| `WebhookClaims.OrphanStaysProcessing` | apps/subscriptions/services/webhook_handlers.py:41-58 | An event whose worker died stays processing whatever is delivered later |
| `WebhookEvents.SettledFollowsProtocol` | apps/subscriptions/services/webhook_handlers.py:34-95 | The service's result is what the protocol's steps leave when one worker takes them undisturbed |
| `WebhookEvents.StripeWebhookEvents.HandleStripeWebhookEvent` | apps/subscriptions/services/webhook_handlers.py:15-95 | The whole event table after one call; the handler runs exactly for a well-formed, registered, claimable event; the result is true exactly when it succeeds, and its error is raised again |
| `BillingSystem.InvHolds` | apps/subscriptions/services/webhook_handlers.py:34-95 | Row, mail and claim invariants hold together in every reachable state of webhooks, cancellations and tasks |
| `BillingSystem.RowsAreSerial` | apps/subscriptions/services/user_subscription.py:133-435 | Whatever the interleaving of webhooks and cancellations, which read without a lock and save later, a customer's row is the declared row of its committed changes in commit order |
| `BillingSystem.CancelMeans` | apps/subscriptions/services/user_subscription.py:384-435 | The two steps of a cancellation that nothing interrupts do to the row what the service does, and to nothing else |
| `BillingSystem.OutboxIsConserved` | apps/subscriptions/services/invoice_notifications.py:27-38 | Every invoice email task was enqueued by exactly one committed, accepted invoice event; a processed event has exactly one handler run that committed and returned; and every accepted invoice whose handler returned has its notification sent, or its own task queued, running or given up after a death or three retries |
| `BillingSystem.CommitQueues` | apps/subscriptions/services/invoice_notifications.py:19-36 | At its commit an accepted invoice leaves its notification sent already, or one more task of its own in the queue, whatever became of earlier tasks |
| `BillingProvenance.RowsAreActed` | apps/subscriptions/services/user_subscription.py:133-435 | Every reachable row of the whole pipeline is what its customer's committed deliveries and cancellation replies make of a fresh one |
| `BillingProvenance.PeriodEndsAreReported` | apps/subscriptions/services/user_subscription.py:59-78 | In every reachable state of the pipeline a stored period end was reported by a committed delivery or reply for the subscription it stems from, which is the recorded one as long as the customer's cancellations saved what they had read; Pro lasts exactly until it or never is; and an unlinked row is pristine |
| `BillingSystem.AtMostOneEmail` | apps/subscriptions/tasks/invoice_notifications.py:34-76 | Over all events, failures, retries and deaths, before or after sending, the emails delivered per invoice and type are those whose sent mark was not saved, plus one when the notification is sent; so at most one is delivered if and only if no mark was lost, or a single one was and the notification has not been sent since |
| `EmailTasks.LostMarkSendsTwice` | apps/subscriptions/tasks/invoice_notifications.py:66-76 | Whenever a sent mark is lost and a retry is left, the retry sends the email a second time |
| `BillingSystem.FinalStatusesAbsorb` | apps/subscriptions/services/webhook_handlers.py:41-58 | Sent notifications and processed or ignored events never change again |
| `StripeCustomers.SessionKeysPerUserAndBucket` | apps/subscriptions/services/create_pro_subscription.py:32-37 | Two session keys are equal if and only if user and 600-second bucket are |
| `StripeCustomers.CustomerKeysDiffer` | apps/subscriptions/services/create_pro_subscription.py:27-29 | Different users have different customer keys |
| `StripeCustomers.OneCustomerPerUser` | apps/subscriptions/services/create_pro_subscription.py:40-75 | Over every interleaving of requests, provider failures, lost replies and rollbacks, Stripe holds at most one customer per user, a stored id is that customer, and no two users share one |
| `StripeCustomers.StoredCustomerNeverChanges` | apps/subscriptions/services/create_pro_subscription.py:58-73 | Every stored customer id is the same in every later state |
| `StripeCustomers.WholeRequest` | apps/subscriptions/services/create_pro_subscription.py:40-75 | A request that nothing interrupts stores the customer Stripe made under the user's key before, or makes now, and leaves no lock |
| `StripeCustomers.FailedRequest` | apps/subscriptions/services/create_pro_subscription.py:58-70 | After a provider failure or a rollback everything is as before the request; after a lost reply, too, but for the customer that Stripe has made |
| `StripeCustomers.EnsureStripeCustomer` | apps/subscriptions/services/create_pro_subscription.py:40-75 | Refuses active rows, calls Stripe only for a row without customer, stores what the user's own key gives, and changes nothing on an error |
| `ChatIds.GuestCounter.CreateUserId` | apps/chat/infrastructure/redis/sync_redis_service.py:190-193 | Each call draws the next number and returns its padded base-36 id |
| `ChatIds.GuestIdsAreUnique` | apps/chat/infrastructure/redis/sync_redis_service.py:190-193 | Different numbers give different guest ids, and no guest id is a user's decimal id |
| `ChatIds.GuestIdShape` | apps/chat/infrastructure/redis/sync_redis_service.py:190-193 | A guest id is u_ and the number in base 36, padded to five digits and no more |
| `ChatIds.NameFixesPair` | apps/chat/websocket/group_names.py:4-7 | Between issued ids, a private group's name fixes the ordered pair it was made from |
| `ChatIds.PrivateGroupSpells` | apps/chat/websocket/group_names.py:4-7 | Character by character, for any two names: the prefix, both names with their spaces as hyphens, a hyphen between, and no capitals |
| `ChatIds.LowerIdentifiesSpellings` | apps/chat/services/guest_session.py:107 | Lower-casing identifies two strings if and only if they differ in the case of their letters only |
| `ChatIds.InboxesAreApart` | apps/chat/websocket/registration.py:10-12 | Inboxes are neither private groups nor the lobby, and each belongs to one id |
| `Numerals.NumeralRoundTrip` | apps/chat/infrastructure/redis/sync_redis_service.py:192 | Reading a numeral back gives the number it was printed from |
| `Numerals.ZFillKeepsValue` | apps/chat/infrastructure/redis/sync_redis_service.py:193 | Zero padding does not change the number |
| `PrivateChats.CeilingHolds` | apps/chat/services/actions/private_invite.py:61-104 | Through any run of one capped connection, open chats number at most the larger of three and the restored chats, plus one per distinct partner whose invite was handled |
| `PrivateChats.OwnChatsStayUnderCeiling` | apps/chat/services/private_chats.py:31-45 | The open chats that no incoming invite accounts for never exceed that ceiling by themselves |
| `PrivateChats.InviteDecides` | apps/chat/services/actions/private_invite.py:61-106 | From the ledger and the closed set: an open chat is left alone, a capped account with three open chats or more is denied with the fitting reason, an absent partner is reported, any other chat is opened; and whatever group the ledger holds for the partner is used again |
| `PrivateChats.GroupIsKept` | apps/chat/services/actions/private_invite.py:83-87 | Over every run of one connection, through closes and reopenings, a partner's group stays the same as long as no invite or offline notice of that partner comes in |
| `PrivateChats.OpenIffHistory` | apps/chat/services/private_chats.py:31-45 | Over every run, reconnects included, a chat is open if and only if it was opened, accepted or restored after its last close, offline notice or new connection |
| `PrivateChats.InviteIsDeniedIff` | apps/chat/services/actions/private_invite.py:68-81 | Over every run, a capped account that invites a partner without an open chat is denied if and only if three or more chats are open by that history |
| `PrivateChats.CloseFreesSlot` | apps/chat/services/actions/close_private_chat.py:14-28 | An accepted close takes exactly that chat out of those that count, and touches neither groups nor ledger |
| `PrivateChats.HashHoldsLastSaves` | apps/chat/services/private_chats.py:12-61 | The hash holds exactly the partners whose last write was an opening or an acceptance, each with its last saved group |
| `PrivateChats.RestoreIsExact` | apps/chat/services/private_chats.py:64-118 | After a reconnect the ledger is exactly the labelled partners whose last write was an opening or an acceptance, with its group; those groups are the ones rejoined, and all chats count as open |
| `ChatIsolation.PairIsFixed` | apps/chat/websocket/group_names.py:4-7 | One group name cannot belong to two pairs of issued ids |
| `ChatIsolation.StepKeeps` | apps/chat/services/actions/private_invite.py:85-117 | Every handler of every consumer, presence change, crash and expiry keeps all ledgers, hashes, memberships and events in flight within their pairs |
| `ChatIsolation.InvHolds` | apps/chat/consumers.py:168-175 | That invariant holds in every reachable state |
| `ChatIsolation.InboxHasOneMember` | apps/chat/services/actions/register_group.py:15-36 | Nobody but its owner is ever subscribed to an inbox |
| `ChatIsolation.GroupsStayInTheirPair` | apps/chat/services/actions/send_message.py:55-60 | In every reachable state a private group occurs in no ledger, hash, membership or invite but those of its two ids, each for the other; what is sent to it came from one of them and waits for one of them; and an offline notice that names it waits for one of them, about the other unless it is about no issued id |
| `ChatIds.NameFixesFirst` | apps/chat/websocket/group_names.py:4-7 | A group name fixes the id it was made for, even when the second name was never issued |
| `ChatReachability.SettledArePaired` | apps/chat/services/actions/register_group.py:31-32 | Two registered consumers with no invite between them in flight are a starting point for the reachability results, whatever chats they have restored |
| `ChatReachability.StepKeeps` | apps/chat/services/actions/close_private_chat.py:14-28 | Every step that leaves both connected keeps each one's chat with the other reachable, and makes one that it opens or accepts reachable; closing, reopening and crossed invites included |
| `ChatReachability.PairsStayReachable` | apps/chat/services/actions/private_invite.py:99-117 | Through any run in which both stay connected, whoever opened or accepted a chat with the other has it, as long as the ledger holds it, in a group the other is in, or the invite carrying that group is still on its way |
| `ChatReachability.MessageReachesPartner` | apps/chat/services/actions/send_message.py:48-75 | Once that invite is handled, a message sent to the chat is put in the partner's queue |
| `ChatReachability.GroundedHolds` | apps/chat/services/private_chats.py:95-111 | In every reachable state each connection is in the group of every chat of its ledger |
| `ChatReachability.OpenedChatsReach` | apps/chat/services/actions/private_invite.py:99-117 | In every reachable state, from the moment two registered users have no invite between them on its way and as long as both stay connected, a chat one opens or accepts with the other is, while its ledger holds it, in a group the other is in or in an invite on its way |
| `ChatConsumers.ChatConsumer.HandlePrivateInvite` | apps/chat/services/actions/private_invite.py:50-124 | The consumer's new state, the hash and the events sent, in order, for every outcome of an invite |
| `ChatConsumers.ChatConsumer.ChatInvite` | apps/chat/consumers.py:168-175 | The invited side joins the group and writes ledger and hash as the inviter did |
| `ChatConsumers.ChatConsumer.UserOffline` | apps/chat/consumers.py:187-190 | The ledger entry goes and nothing else changes |
| `ChatConsumers.ChatConsumer.HandleClosePrivateChat` | apps/chat/services/actions/close_private_chat.py:4-28 | An accepted close marks the chat, takes it out of the open ones and drops its hash field; groups and ledger stay |
| `ChatConsumers.ChatConsumer.HandleRegisterGroup` | apps/chat/services/actions/register_group.py:15-36 | Joins the lobby and the own inbox exactly when the payload names the lobby; for anything else the socket is closed and nothing is joined |
| `ChatConsumers.ChatConsumer.HandleSendMessage` | apps/chat/services/actions/send_message.py:48-75 | Every outcome in the order of the checks: no group and rate limit close the socket, non-members and bad texts are refused, the rest goes to the group; the limiter counts exactly the messages whose group was accepted |
| `ChatPayloads.StripCutsBlanks` | apps/chat/websocket/validation.py:10-35 | Validation cuts off blanks at both ends, all of them and nothing else |
| `ChatPayloads.LobbyInEverySpelling` | apps/chat/websocket/validation.py:10-20 | A payload names the lobby if and only if it spells it, in any case, between blanks |
| `ChatPayloads.NamesNoGroup` | apps/chat/websocket/validation.py:13-18 | A payload names no group if and only if it is no text or all blank; what it names spells its text without capitals |
| `ChatPayloads.MessageIs` | apps/chat/websocket/validation.py:23-35 | A message is text of at most a thousand characters, one of which is not blank |
| `ChatConsumers.ChatConsumer.RestoreUserPrivateChatGroups` | apps/chat/services/private_chats.py:64-118 | From any stored hash the connection becomes the restored one, the hash loses exactly its unlabelled fields, and each restored chat is announced once |
| `ChatConsumers.ChatConsumer.BroadcastUserOffline` | apps/chat/websocket/broadcast.py:43-63 | Each partner in the ledger is notified once, at its inbox |
| `ChatConsumers.ChatConsumer.UnregisterUserFromAllGroups` | apps/chat/consumers.py:110-118 | All groups are left and each is notified once |
| `ChatConsumers.PerformDelivers` | apps/chat/services/actions/private_invite.py:99-124 | The system's invite step is the handler's writes followed by the delivery, in order, of the events it sends |
| `ChatConsumers.SendMeans` | apps/chat/websocket/broadcast.py:118-129 | Sending to a group adds the event once to the queue of each member, and changes nothing else |
| `ChatConsumers.ReceiveMeans` | apps/chat/consumers.py:168-190 | The system's receiving step does to ledger, closed set, groups and hash what the consumer's handlers do |
| `ChatConsumers.AnnounceDelivers` | apps/chat/consumers.py:110-116 | The system's round of announcements is the delivery of the handler's events one by one, in any order |
| `ChatConsumers.FarewellsDeliver` | apps/chat/websocket/broadcast.py:43-63 | The system's farewell of a leaving user is the delivery of the handler's notices one by one, in any order |
| `ChatConsumers.DisconnectDelivers` | apps/chat/consumers.py:88-118 | Under the isolation invariant a disconnect step is the farewells, then the departure, then one count per group, in any order |
| `ChatConsumers.ConnectDelivers` | apps/chat/services/private_chats.py:95-116 | Under the isolation invariant a connect step is the restored connection followed by one presence per restored chat, in any order |
| `GuestIdentity.RegistrationTakesOver` | apps/chat/services/register_user.py:19-31 | A registration gives the id the nickname whatever claims are under way |
| `GuestIdentity.RegisteredInEverySpelling` | apps/chat/services/guest_session.py:107-118 | After a registration every claim of the nickname, however it spells it, is granted exactly to the registered id; claims of other nicknames fare as before |
| `GuestIdentity.OvertakenClaimLoses` | apps/chat/services/guest_session.py:133-144 | A claim under way, in any spelling, that a registration overtakes is refused and writes nothing |
| `GuestIdentity.RegistrationLastsADay` | apps/chat/services/register_user.py:21-30 | Left alone, both mappings of a registration last exactly a day |
| `GuestIdentity.HeartbeatLastsADay` | apps/chat/services/guest_session.py:188-202 | A heartbeat gives what is live another day, and brings nothing back |
| `GuestIdentity.WholeClaim` | apps/chat/services/guest_session.py:133-158 | The commands of one uninterrupted claim decide it as the service does, and a granted one is as good as a registration |
| `GuestIdentity.OwnershipHolds` | apps/chat/services/guest_session.py:110-161 | From then on, until the nickname is re-registered, revoked or expires, it belongs to that id and no claim by another id succeeds, over every interleaving of single Redis commands |
| `GuestIdentity.RivalWritesNothing` | apps/chat/services/guest_session.py:117-118 | Meanwhile a rival claim's commands leave Redis as it is |
| `GuestIdentity.OneClaimWins` | apps/chat/services/guest_session.py:133-161 | From any state in which the nickname is free: either it stays free and no claim is granted, or some claim wins it and every claim by another id loses |
| `GuestIdentity.RunAgreesIff` | apps/chat/services/register_user.py:19-31 | Over every interleaving of single Redis commands from a store in which the nickname mappings agree, they agree throughout if and only if every write of a registration or a claim met its own condition when it was made: for an id's nickname, that no other live nickname points at the id; for a nickname's owner, that the id points at no other live nickname |
| `GuestIdentity.IdWriteAgreesIff` | apps/chat/services/register_user.py:21-25 | Writing an id's nickname keeps the agreement if and only if no other live nickname points at the id |
| `GuestIdentity.NameWriteAgreesIff` | apps/chat/services/register_user.py:26-30 | Writing a nickname's owner keeps the agreement if and only if the id points at no other live nickname |
| `GuestIdentity.ClaimAgreesIff` | apps/chat/services/guest_session.py:110-128 | The same for each command of a claim, whose renewal writes nothing new |
| `GuestIdentity.RegisterAgreesIff` | apps/chat/services/register_user.py:19-31 | An uninterrupted registration keeps the agreement if and only if no other live nickname points at the id |
| `GuestIdentity.SecondNickBreaksAgreement` | apps/chat/services/register_user.py:19-31 | A concrete pair of registrations after which the mappings disagree |
| `GuestIdentity.InterleavedRegistrationsDisagree` | apps/chat/services/register_user.py:21-30 | A concrete interleaving of two registrations of one id after which they disagree, although neither found another nickname when it began |
| `GuestIdentity.IdentityStore.ClaimGuestIdentity` | apps/chat/services/guest_session.py:92-130 | Granted exactly when the nickname, in any spelling, is free or already the claimant's; then both mappings are as after a registration, otherwise nothing is written |
| `GuestIdentity.IdentityStore.RegisterUser` | apps/chat/services/register_user.py:7-31 | Both mappings and the active set are written; a guest without id draws a new one |
| `GuestIdentity.IdentityStore.RefreshGuestIdentity` | apps/chat/services/guest_session.py:188-202 | Both mappings are renewed if present, and no owner changes |
| `GuestIdentity.IdentityStore.RevokeGuestIdentity` | apps/chat/services/guest_session.py:205-215 | The nickname is free afterwards, and the id's mapping is dropped when an id is given |
| `RateLimit.EightPassPerWindow` | apps/chat/services/actions/send_message.py:18-45 | In the latest window of an identity, of n counted messages exactly the smaller of n and eight pass, and the stored counter is n with the window's expiry, over every interleaving of single cache commands |
| `RateLimit.RateIsBounded` | apps/chat/services/actions/send_message.py:18-45 | In any stretch of time at most eight times the windows' lengths it begins, plus eight, of the counted messages pass |
| `RateLimit.RateKeysDiffer` | apps/chat/services/actions/send_message.py:44 | Each identity has a counter of its own |
| `RateLimit.LimitedIffNinth` | apps/chat/services/actions/send_message.py:36-45 | A message is refused if and only if its commands count it as the ninth or later of its window |
| `RateLimit.WindowLastsFiveSeconds` | apps/chat/services/actions/send_message.py:25-29 | A counter is gone five seconds after its first message, whatever is counted meanwhile |
| `RateLimit.MessageLimiter.IsRateLimited` | apps/chat/services/actions/send_message.py:36-45 | Limited exactly when the counter is live at both commands and had reached eight; the cache afterwards is what the two commands leave |
| `BotLoads.CacheMatchesDatabase` | apps/chat/services/bots/bot_message_service.py:73-80 | Over every interleaving of any number of loads, command by command, with admin changes, deferred clears and expiries: whenever the flag is live and no clear is owed, both id sets and the username fields are the database's bots, provided that the load behind the flag stored all there is, no clear ran between its read and its flag, and the bots have not expired |
| `BotLoads.CacheMatchesIff` | apps/chat/services/bots/bot_cache_loader.py:25-52 | In every reachable state that has seen a clearing, the cache matches the database if and only if the bots of now are both all that was read by the loads that stored since the last clearing and all that is left of it in the expiring copies, and those have not expired |
| `BotLoads.CurrentBatchesMatch` | apps/chat/services/bots/bot_cache_loader.py:34-52 | However loads overlap, the cache matches while every load that stored since the last clearing had read the bots of now and the last of them is alive |
| `BotLoads.WholeLoadsMatch` | apps/chat/services/bots/bot_message_service.py:73-80 | When nothing interrupts a load, a live flag with no clear owed always means that the cache matches, from any earlier contents without the flag |
| `BotLoads.WholeTickLoads` | apps/chat/services/bots/bot_cache_loader.py:25-32 | The steps of one uninterrupted tick leave the cache that `Load` leaves |
| `BotLoads.ChangeDuringLoadIsStale` | apps/chat/services/bots/bot_cache_loader.py:25-52 | An admin change whose clear runs between a load's read and its flag leaves the old bots under a live flag with no clear owed |
| `BotLoads.OverlappingLoadsHideBots` | apps/chat/services/bots/bot_cache_loader.py:34-39 | A load that clears before another one sets its flag leaves a live flag over no bots, without any admin change |
| `BotLoads.ClearBeforeCommitIsStale` | apps/users/admin.py:50-54 | Clearing the flag before the commit would let even an uninterrupted tick cache the old bots under a live flag |
| `BotCache.BotMessageStore.Load` | apps/chat/services/bots/bot_cache_loader.py:25-67 | From any earlier contents exactly the users flagged as bots are cached, with their usernames; the catalog's topics and messages are there, the other live ones stay; and the flag lasts a week |
| `BotCache.BotMessageStore.EnsureCacheIsLoaded` | apps/chat/services/bots/bot_message_service.py:73-80 | A live flag leaves the cache alone; otherwise it is reloaded and matches |
| `BotCache.BotMessageStore.SelectUnsentMessage` | apps/chat/services/bots/bot_message_service.py:114-134 | Returns a message not recently sent, and none exactly when all were |
| `BotCache.BotMessageStore.SelectMessage` | apps/chat/services/bots/bot_message_service.py:82-112 | The message is of the first of at most ten drawn topics with one to offer; none only when topics ran out or all ten were exhausted |
| `BotCache.BotMessageStore.GetMessageToSend` | apps/chat/services/bots/bot_message_service.py:41-71 | The sender is a cached bot with its own username, and a bot of the database when the cache is coherent; the message is of a drawn topic, was not sent within the hour and is marked for one |
| `BotFeed.MessagesAreSpaced` | apps/chat/services/bots/bot_message_service.py:57-63 | Over every interleaving of ticks, whose check and mark are separate commands, two sendings of one message are an hour apart if the earlier was marked when the later tick checked; and if and only if, for ticks that take less than an hour |
| `BotFeed.WholeTicksAreSpaced` | apps/chat/infrastructure/redis/bot_message_redis_store.py:190-214 | Ticks that do not overlap never send a message twice within the hour |
| `BotFeed.MarkLastsAnHour` | apps/chat/infrastructure/redis/bot_message_redis_store.py:190-214 | A mark lasts exactly an hour and touches its own message only |
| `BotFeed.WholeTickMarks` | apps/chat/services/bots/bot_message_service.py:41-71 | A whole tick leaves the marks that `GetMessageToSend` leaves, and sends only an unmarked message |
| `BotFeed.OverlappingTicksRepeat` | apps/chat/services/bots/bot_message_service.py:57-63 | A concrete run of two overlapping ticks that send one message three seconds apart |
| `Links.NodesAreSplit` | apps/chat/static/js/utils/create_elements.js:1-35 | The nodes cut the message into text without link starts, never empty and never twice in a row, and anchors that are whole non-space runs at link starts |
| `Links.StartsAre` | apps/chat/static/js/utils/create_elements.js:2 | A link starts if and only if http://, https:// or www. is followed by a character that is not a space |
| `Links.SplitLosesNothing` | apps/chat/static/js/utils/create_elements.js:7-34 | The nodes' texts concatenate to the message and none is empty |
| `Links.SplitIsUnique` | apps/chat/static/js/utils/create_elements.js:2-24 | No other list of nodes cuts the message so |
| `Links.NodesAreClean` | apps/chat/static/js/utils/create_elements.js:14-24 | Read on its own no text node holds a link start, and every anchor with a scheme leads to itself and every other to itself behind http:// |
| `Links.AppendTextWithLinks` | apps/chat/static/js/utils/create_elements.js:1-35 | The scan appends exactly those nodes after the children already there |

## Left out

- Stripe's API, webhook signatures, SMTP, email rendering, HTTP views, templates, migrations and the browser user interface: they appear as inputs that succeed or fail, or not at all.
- Stripe's answers are about the subscription asked for, its ids are not empty, and an idempotency key keeps its meaning for ever. Opening the Checkout Session itself is such a call; only its key is modelled.
- A Pro item without the requested period field is read as having none; the code would raise an attribute error there.
- BillingSystem.AtMostOneEmail: runs of one notification's task do not overlap; two overlapping runs could both send.
- BillingSystem.OutboxIsConserved: follows invoice emails; the cancellation email has no notification row, and its delivery is not followed.
- A worker that dies in its handler leaves its event processing for good: a property of the code, stated as `WebhookClaims.OrphanStaysProcessing`. A deletion can be undone by a late update of the same subscription, as in the code.
- Row locks: a handler's transaction is one step, so waiting and deadlocks do not occur. Task backoff delays are left out; a retry may come at any moment.
- Creation and update timestamps, logging, translations, message wording and display counts.
- One live connection per id: several tabs of one user are modelled only for the rate limit, whose key they share.
- The channel layer delivers every event to the members of that moment, in any order; capacity limits and lost events are left out.
- Lower-casing in payloads is ASCII, and a request's target id is a string or missing.
- PrivateChats.RestoreIsExact: about a hash that has not expired; its expiry is a step of `ChatSystem`.
- ChatReachability.OpenedChatsReach: about chats opened or accepted since no invite between the two was on its way; an invite sent over an earlier connection may carry a group its sender has left, and a chat restored from an old hash may name a group the partner has left, until a new invite is handled.
- Guest token signatures: a claim carries the nickname and id of a token that was issued. Reading and expiring tokens is left out.
- GuestIdentity.OwnershipHolds: claims that had been found legitimate before the nickname changed hands may still finish; they no longer write the nickname.
- RateLimit.RateIsBounded: counts messages, and leaves out those whose two commands straddle an expiry, which the code lets through uncounted.
- BotLoads.CacheMatchesDatabase: `is_bot` changes only through the admin; deleting a bot or the command that creates users does not clear the flag in the code. The commands that store one load's bots are one step, and so are those that clear them; random choices are inputs.
- The link splitter's anchors get a target and a relation attribute in the page; only text and address are modelled.
