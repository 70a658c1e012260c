/**
 The spacing of bot messages (apps/chat/services/bots/bot_message_service.py,
 apps/chat/infrastructure/redis/bot_message_redis_store.py). A bot tick looks whether a message carries a mark
 and later sets its mark and sends it: two Redis commands, between which other ticks may run.
 */
module BotFeed {
  const BOT_MESSAGE_SENT_TTL := 3600

  /** The moments until which messages count as recently sent. */
  type Marks = map<nat, int>

  predicate Marked(marks: Marks, message: nat, now: int) {
    message in marks && now < marks[message]
  }

  function Mark(marks: Marks, message: nat, now: int): Marks {
    marks[message := now + BOT_MESSAGE_SENT_TTL]
  }

  /** A mark lasts exactly an hour, and marks its own message only. */
  lemma MarkLastsAnHour(marks: Marks, message: nat, now: int, other: nat, elapsed: nat)
    ensures Marked(Mark(marks, message, now), other, now + elapsed) <==>
      if other == message then elapsed < 3600 else Marked(marks, other, now + elapsed)
  {
  }

  /** A message found unmarked, when it was, and how many sendings there had been by then. */
  datatype Pick = Pick(message: nat, checked: int, before: nat)

  datatype Sending = Sending(pick: Pick, time: int)

  datatype Feed = Feed(now: int, marks: Marks, picks: map<nat, Pick>, sent: seq<Sending>)

  function Start(now: int): Feed {
    Feed(now, map[], map[], [])
  }

  datatype Step =
    | Wait(elapsed: nat)
    | Checking(tick: nat, message: nat)
    | Sends(tick: nat)
    | Dies(tick: nat)

  function Do(f: Feed, step: Step): Feed {
    match step
    case Wait(elapsed) => f.(now := f.now + elapsed)
    case Checking(tick, message) =>
      if tick in f.picks || Marked(f.marks, message, f.now) then f
      else f.(picks := f.picks[tick := Pick(message, f.now, |f.sent|)])
    case Sends(tick) =>
      if tick in f.picks then
        Feed(f.now, Mark(f.marks, f.picks[tick].message, f.now), f.picks - {tick}, f.sent + [Sending(f.picks[tick], f.now)])
      else f
    case Dies(tick) => f.(picks := f.picks - {tick})
  }

  function After(f: Feed, steps: seq<Step>): Feed {
    if steps == [] then f else Do(After(f, steps[..|steps| - 1]), steps[|steps| - 1])
  }

  // ---------- What every run keeps ----------

  /** What the pick saw: earlier sendings of its message are an hour old, and later ones came after it. */
  ghost predicate PickOk(sent: seq<Sending>, p: Pick) {
    && p.before <= |sent|
    && (forall i :: 0 <= i < p.before && sent[i].pick.message == p.message ==>
          sent[i].time + BOT_MESSAGE_SENT_TTL <= p.checked)
    && (forall i :: p.before <= i < |sent| ==> p.checked <= sent[i].time)
  }

  ghost predicate SendingOk(sent: seq<Sending>, j: nat)
    requires j < |sent|
  {
    && PickOk(sent[..j], sent[j].pick)
    && sent[j].pick.checked <= sent[j].time
  }

  ghost predicate InTime(f: Feed) {
    && (forall i :: 0 <= i < |f.sent| ==> f.sent[i].time <= f.now)
    && (forall tick :: tick in f.picks ==> f.picks[tick].checked <= f.now)
  }

  ghost predicate Remembered(marks: Marks, sent: seq<Sending>) {
    forall i :: 0 <= i < |sent| ==>
      sent[i].pick.message in marks && marks[sent[i].pick.message] >= sent[i].time + BOT_MESSAGE_SENT_TTL
  }

  ghost predicate Inv(f: Feed) {
    && InTime(f) && Remembered(f.marks, f.sent)
    && (forall tick :: tick in f.picks ==> PickOk(f.sent, f.picks[tick]))
    && (forall j :: 0 <= j < |f.sent| ==> SendingOk(f.sent, j))
  }

  lemma SendsKeeps(f: Feed, tick: nat)
    requires Inv(f) && tick in f.picks
    ensures Inv(Do(f, Sends(tick)))
  {
    var f' := Do(f, Sends(tick));
    forall j | 0 <= j < |f'.sent| ensures SendingOk(f'.sent, j) {
      if j < |f.sent| {
        assert SendingOk(f.sent, j);
        assert f'.sent[..j] == f.sent[..j];
      } else {
        assert f'.sent[..j] == f.sent;
      }
    }
  }

  lemma StepKeeps(f: Feed, step: Step)
    requires Inv(f)
    ensures Inv(Do(f, step))
  {
    match step
    case Sends(tick) => if tick in f.picks { SendsKeeps(f, tick); }
    case _ =>
  }

  lemma {:induction false} InvHolds(now: int, steps: seq<Step>)
    ensures Inv(After(Start(now), steps))
  {
    if steps != [] {
      InvHolds(now, steps[..|steps| - 1]);
      StepKeeps(After(Start(now), steps[..|steps| - 1]), steps[|steps| - 1]);
    }
  }

  // ---------- Exactly when sendings are spaced ----------

  predicate Spaced(earlier: Sending, later: Sending) {
    earlier.time + 3600 <= later.time
  }

  /**
   Over every interleaving of ticks, a message is not sent again within the hour if the earlier sending had been
   marked when the later tick checked; and for ticks that themselves take less than an hour, only then.
   */
  lemma {:induction false} MessagesAreSpaced(now: int, steps: seq<Step>, i: nat, j: nat)
    requires i < j < |After(Start(now), steps).sent|
    requires var sent := After(Start(now), steps).sent; sent[i].pick.message == sent[j].pick.message
    ensures var sent := After(Start(now), steps).sent;
      && (i < sent[j].pick.before ==> Spaced(sent[i], sent[j]))
      && (sent[j].time < sent[j].pick.checked + BOT_MESSAGE_SENT_TTL ==>
            (Spaced(sent[i], sent[j]) <==> i < sent[j].pick.before))
  {
    InvHolds(now, steps);
    var sent := After(Start(now), steps).sent;
    assert SendingOk(sent, j);
    assert sent[..j][i] == sent[i];
  }

  /** Two ticks that overlap can send one message three seconds apart. */
  lemma OverlappingTicksRepeat()
    ensures var f := After(Start(0), [Checking(0, 7), Checking(1, 7), Sends(0), Wait(3), Sends(1)]);
      |f.sent| == 2 && f.sent[0].pick.message == f.sent[1].pick.message == 7 && f.sent[1].time == f.sent[0].time + 3
  {
    var steps := [Checking(0, 7), Checking(1, 7), Sends(0), Wait(3), Sends(1)];
    var f0 := Start(0);
    var f1, f2 := Do(f0, steps[0]), Do(Do(f0, steps[0]), steps[1]);
    var f3 := Do(f2, steps[2]);
    var f4 := Do(f3, steps[3]);
    assert steps[..4][..3] == steps[..3] && steps[..3][..2] == steps[..2] && steps[..2][..1] == steps[..1];
    assert steps[..1][..0] == [];
    assert After(f0, steps[..1]) == f1;
    assert After(f0, steps[..2]) == f2;
    assert After(f0, steps[..3]) == f3;
    assert After(f0, steps[..4]) == f4;
  }

  /** A marked message is not picked; a tick that dies sends nothing. */
  lemma IdleTicks(f: Feed, tick: nat, message: nat)
    ensures Marked(f.marks, message, f.now) ==> Do(f, Checking(tick, message)) == f
    ensures Do(f, Dies(tick)) == f.(picks := f.picks - {tick})
  {
  }

  // ---------- Ticks that run one after another ----------

  /** One whole tick, `elapsed` after the one before, that would like to send the message. */
  datatype Tick = Tick(elapsed: nat, message: nat)

  function WholeTick(f: Feed, t: Tick): Feed {
    Do(Do(Do(f, Wait(t.elapsed)), Checking(0, t.message)), Sends(0))
  }

  function RunWhole(f: Feed, ticks: seq<Tick>): Feed {
    if ticks == [] then f else WholeTick(RunWhole(f, ticks[..|ticks| - 1]), ticks[|ticks| - 1])
  }

  lemma RunWholeSnoc(f: Feed, ticks: seq<Tick>, t: Tick)
    ensures RunWhole(f, ticks + [t]) == WholeTick(RunWhole(f, ticks), t) && RunWhole(f, []) == f
  {
    assert (ticks + [t])[..|ticks|] == ticks;
  }

  /** A whole tick leaves the marks that its two commands leave, and sends only an unmarked message. */
  lemma WholeTickMarks(f: Feed, t: Tick)
    requires f.picks == map[]
    ensures var now, marked := f.now + t.elapsed, Marked(f.marks, t.message, f.now + t.elapsed);
      var f' := WholeTick(f, t);
      && f'.now == now && f'.picks == map[]
      && f'.marks == (if marked then f.marks else Mark(f.marks, t.message, now))
      && f'.sent == (if marked then f.sent else f.sent + [Sending(Pick(t.message, now, |f.sent|), now)])
  {
  }

  lemma {:induction false} WholeTicksSeeAll(now: int, ticks: seq<Tick>)
    ensures var f := RunWhole(Start(now), ticks);
      && Inv(f) && f.picks == map[]
      && forall j :: 0 <= j < |f.sent| ==> f.sent[j].pick.before == j
  {
    if ticks != [] {
      var init, t := ticks[..|ticks| - 1], ticks[|ticks| - 1];
      WholeTicksSeeAll(now, init);
      var f := RunWhole(Start(now), init);
      WholeTickMarks(f, t);
      StepKeeps(f, Wait(t.elapsed));
      StepKeeps(Do(f, Wait(t.elapsed)), Checking(0, t.message));
      StepKeeps(Do(Do(f, Wait(t.elapsed)), Checking(0, t.message)), Sends(0));
    }
  }

  /** Ticks that do not overlap never send a message twice within the hour. */
  lemma WholeTicksAreSpaced(now: int, ticks: seq<Tick>, i: nat, j: nat)
    requires i < j < |RunWhole(Start(now), ticks).sent|
    requires var sent := RunWhole(Start(now), ticks).sent; sent[i].pick.message == sent[j].pick.message
    ensures var sent := RunWhole(Start(now), ticks).sent; Spaced(sent[i], sent[j])
  {
    WholeTicksSeeAll(now, ticks);
    var sent := RunWhole(Start(now), ticks).sent;
    assert SendingOk(sent, j);
    assert sent[..j][i] == sent[i];
  }
}
