/** The runner's event loop as a state machine over time, timers, the event stream and
    hot-reloaded intervals.  Times are in milliseconds.

    A timer's channel holds one fire.  With the timers of Go 1.22 a `Reset` or `Stop` leaves an
    undelivered fire there; `discards` chooses the timers that drop it instead. */
module Runner {
  import opened Common

  datatype Timer = Timer(deadline: Option<nat>, pending: bool)

  datatype Ticker = Ticker(period: nat, next: nat, pending: bool)

  datatype Reason = Subscribed | Reconnected | EventArrived | Polled

  datatype Phase = Subscribing | Selecting | Reconnecting | Refreshing(reason: Reason) | Stopped

  datatype State = State(
    discards: bool,
    now: nat,
    phase: Phase,
    connected: bool,         // whether there is an event stream to receive from
    warmingUp: bool,
    dirty: bool,
    poll: nat,
    debounce: nat,
    settle: Timer,
    debounceTimer: Timer,
    ticker: Ticker,
    settleSet: nat,          // when the settle timer was last set
    settleFor: nat,          // and for how long
    stale: bool,             // whether its undelivered fire is older than that
    lastEvent: nat)          // when an event was last received

  datatype Step =
    | Pass(time: nat)
    | SettleExpires
    | DebounceExpires
    | TickerExpires
    | SubscribeDone(ok: bool)
    | RefreshDone(poll: nat, debounce: nat)    // with the intervals configured by then
    | ReceiveEvent
    | StreamCloses
    | ReconnectDone
    | ReconnectGivesUp
    | ReceiveSettle
    | ReceiveDebounce
    | ReceiveTick
    | Cancel

  /** The state in which Run subscribes.  The debounce timer may have fired before it was stopped. */
  predicate Starting(s: State) {
    && s.phase == Subscribing && !s.connected && !s.warmingUp && !s.dirty && s.poll > 0
    && s.settle == Timer(Some(s.now + s.poll), false)
    && s.debounceTimer.deadline == None && (s.debounceTimer.pending ==> !s.discards)
    && s.ticker == Ticker(s.poll, s.now + s.poll, false)
    && s.settleSet == s.now && s.settleFor == s.poll && !s.stale && s.lastEvent <= s.now
  }

  predicate Enabled(s: State, step: Step) {
    match step
    case Pass(_) => s.phase != Stopped
    case SettleExpires => s.phase != Stopped && s.settle.deadline.Some? && s.settle.deadline.value <= s.now
    case DebounceExpires =>
      s.phase != Stopped && s.debounceTimer.deadline.Some? && s.debounceTimer.deadline.value <= s.now
    case TickerExpires => s.phase != Stopped && s.ticker.next <= s.now
    case SubscribeDone(_) => s.phase == Subscribing
    case RefreshDone(poll, _) => s.phase.Refreshing? && poll > 0
    case ReceiveEvent => s.phase == Selecting && s.connected
    case StreamCloses => s.phase == Selecting && s.connected
    case ReconnectDone => s.phase == Reconnecting
    case ReconnectGivesUp => s.phase == Reconnecting
    case ReceiveSettle => s.phase == Selecting && s.settle.pending
    case ReceiveDebounce => s.phase == Selecting && s.debounceTimer.pending
    case ReceiveTick => s.phase == Selecting && s.ticker.pending
    case Cancel => s.phase != Stopped
  }

  function SetTimer(t: Timer, deadline: Option<nat>, discards: bool): Timer {
    Timer(deadline, t.pending && !discards)
  }

  function Fired(t: Timer): Timer { Timer(None, true) }

  function Retimed(t: Ticker, period: nat, now: nat, discards: bool): Ticker {
    Ticker(period, now + period, t.pending && !discards)
  }

  function ResetSettle(s: State, interval: nat): State {
    var settle := SetTimer(s.settle, Some(s.now + interval), s.discards);
    s.(settle := settle, settleSet := s.now, settleFor := interval, stale := settle.pending)
  }

  /** Retimes the ticker and the settle timer when a hot reload changed the poll interval. */
  function ApplyIntervals(s: State, poll: nat, debounce: nat): State {
    var t := if poll == s.poll then s
             else ResetSettle(s.(ticker := Retimed(s.ticker, poll, s.now, s.discards)), poll);
    t.(poll := poll, debounce := debounce)
  }

  /** What follows a refresh.  The refresh after subscribing does not look at the
      configuration again; the other ones do. */
  function FinishRefresh(s: State, poll: nat, debounce: nat): State
    requires s.phase.Refreshing?
  {
    match s.phase.reason
    case Subscribed => ResetSettle(s, s.poll)
    case Reconnected => var t := ApplyIntervals(s, poll, debounce); ResetSettle(t, t.poll)
    case _ => ApplyIntervals(s, poll, debounce)
  }

  function Apply(s: State, step: Step): State
    requires Enabled(s, step)
  {
    match step
    case Pass(time) => s.(now := s.now + time)
    case SettleExpires => s.(settle := Fired(s.settle))
    case DebounceExpires => s.(debounceTimer := Fired(s.debounceTimer))
    case TickerExpires => s.(ticker := s.ticker.(next := s.ticker.next + s.ticker.period, pending := true))
    case SubscribeDone(ok) =>
      if ok then s.(connected := true, warmingUp := true, phase := Refreshing(Subscribed)) else s.(phase := Selecting)
    case RefreshDone(poll, debounce) => FinishRefresh(s, poll, debounce).(phase := Selecting)
    case ReceiveEvent =>
      var t := s.(lastEvent := s.now);
      if s.warmingUp then ResetSettle(t, s.poll)
      else t.(dirty := true, debounceTimer := SetTimer(s.debounceTimer, Some(s.now + s.debounce), s.discards))
    case StreamCloses => s.(connected := false, phase := Reconnecting)
    case ReconnectDone =>
      s.(connected := true, warmingUp := true, dirty := false,
         debounceTimer := SetTimer(s.debounceTimer, None, s.discards), phase := Refreshing(Reconnected))
    case ReconnectGivesUp => s.(phase := Selecting)
    case ReceiveSettle => s.(settle := s.settle.(pending := false), warmingUp := false, stale := false)
    case ReceiveDebounce =>
      var t := s.(debounceTimer := s.debounceTimer.(pending := false));
      if s.dirty then t.(dirty := false, phase := Refreshing(EventArrived)) else t
    case ReceiveTick => s.(ticker := s.ticker.(pending := false), phase := Refreshing(Polled))
    case Cancel => s.(phase := Stopped)
  }

  function After(s: State, run: seq<Step>): Option<State>
    decreases |run|
  {
    if run == [] then Some(s)
    else if Enabled(s, run[0]) then After(Apply(s, run[0]), run[1..]) else None
  }

  /** The reason of the refresh that the step starts, if it starts one. */
  function Started(s: State, step: Step): seq<Reason>
    requires Enabled(s, step)
  {
    var t := Apply(s, step);
    if t.phase.Refreshing? && !s.phase.Refreshing? then [t.phase.reason] else []
  }

  /** The reasons of the refreshes started along a run. */
  function Refreshes(s: State, run: seq<Step>): seq<Reason>
    requires After(s, run).Some?
    decreases |run|
  {
    if run == [] then [] else Started(s, run[0]) + Refreshes(Apply(s, run[0]), run[1..])
  }

  // ----- the invariant

  /** Whether the timer will fire, or has fired and can be received. */
  predicate Alive(t: Timer) { t.deadline.Some? || t.pending }

  /** The forced refreshes that open a warm-up; its settle period starts when they end. */
  predicate Opening(phase: Phase) {
    phase == Refreshing(Subscribed) || phase == Refreshing(Reconnected)
  }

  predicate FlagsInv(s: State) {
    && (s.dirty ==> Alive(s.debounceTimer) && s.phase != Subscribing)
    && (s.warmingUp ==> !s.dirty && s.phase != Subscribing && s.phase != Refreshing(EventArrived))
    && (s.warmingUp && s.phase != Stopped && !Opening(s.phase) ==> Alive(s.settle))
    && (Opening(s.phase) ==> s.warmingUp && s.connected)
  }

  predicate IntervalsInv(s: State) {
    s.poll > 0 && s.ticker.period == s.poll && s.settleFor == s.poll
  }

  predicate SettleInv(s: State) {
    && (s.settle.deadline.Some? ==> s.settle.deadline.value == s.settleSet + s.settleFor)
    && (s.settle.pending && !s.stale ==> s.settleSet + s.settleFor <= s.now)
    && (s.stale ==> s.settle.pending && !s.discards)
    && s.settleSet <= s.now
  }

  predicate EventsInv(s: State) {
    && s.lastEvent <= s.now
    && (s.warmingUp && s.phase != Stopped && !Opening(s.phase) ==> s.lastEvent <= s.settleSet)
  }

  predicate Inv(s: State) { FlagsInv(s) && TimesInv(s) }

  lemma NextKeepsFlags(s: State, step: Step)
    requires FlagsInv(s) && Enabled(s, step)
    ensures FlagsInv(Apply(s, step))
  {
  }

  predicate TimesInv(s: State) { IntervalsInv(s) && SettleInv(s) && EventsInv(s) }

  /** Setting the settle timer for the poll interval in force starts a new period. */
  lemma ResetKeepsTimes(s: State, interval: nat)
    requires s.lastEvent <= s.now
    ensures SettleInv(ResetSettle(s, interval)) && EventsInv(ResetSettle(s, interval))
  {
  }

  lemma RetimeKeepsTimes(s: State, poll: nat, debounce: nat)
    requires IntervalsInv(s) && SettleInv(s) && s.lastEvent <= s.now && poll > 0
    ensures var t := ApplyIntervals(s, poll, debounce);
            && IntervalsInv(t) && SettleInv(t) && t.poll == poll
            && t.now == s.now && t.lastEvent == s.lastEvent && t.warmingUp == s.warmingUp
            && (t.settleSet == s.settleSet || t.settleSet == s.now)
  {
    ResetKeepsTimes(s.(ticker := Retimed(s.ticker, poll, s.now, s.discards)), poll);
  }

  lemma RefreshKeepsTimes(s: State, poll: nat, debounce: nat)
    requires TimesInv(s) && s.phase.Refreshing? && poll > 0
    requires s.warmingUp ==> s.phase != Refreshing(EventArrived)
    ensures TimesInv(FinishRefresh(s, poll, debounce).(phase := Selecting))
  {
    match s.phase.reason
    case Subscribed => ResetKeepsTimes(s, s.poll);
    case Reconnected =>
      RetimeKeepsTimes(s, poll, debounce);
      ResetKeepsTimes(ApplyIntervals(s, poll, debounce), poll);
    case _ => RetimeKeepsTimes(s, poll, debounce);
  }

  lemma SurroundingsKeepTimes(s: State, step: Step)
    requires TimesInv(s) && Enabled(s, step)
    requires step.Pass? || step.SettleExpires? || step.DebounceExpires? || step.TickerExpires?
    ensures TimesInv(Apply(s, step))
  {
  }

  lemma StreamKeepsTimes(s: State, step: Step)
    requires TimesInv(s) && Enabled(s, step) && (s.warmingUp ==> s.phase != Subscribing)
    requires step.SubscribeDone? || step.StreamCloses? || step.ReconnectDone? || step.ReconnectGivesUp? || step.Cancel?
    ensures TimesInv(Apply(s, step))
  {
  }

  lemma NextKeepsTimes(s: State, step: Step)
    requires TimesInv(s) && Enabled(s, step)
    requires s.warmingUp ==> s.phase != Subscribing && s.phase != Refreshing(EventArrived)
    ensures TimesInv(Apply(s, step))
  {
    match step
    case RefreshDone(poll, debounce) => RefreshKeepsTimes(s, poll, debounce);
    case ReceiveEvent => ResetKeepsTimes(s.(lastEvent := s.now), s.poll);
    case ReceiveSettle =>
    case ReceiveDebounce =>
    case ReceiveTick =>
    case Pass(_) => SurroundingsKeepTimes(s, step);
    case SettleExpires => SurroundingsKeepTimes(s, step);
    case DebounceExpires => SurroundingsKeepTimes(s, step);
    case TickerExpires => SurroundingsKeepTimes(s, step);
    case _ => StreamKeepsTimes(s, step);
  }

  lemma NextKeepsInv(s: State, step: Step)
    requires Inv(s) && Enabled(s, step)
    ensures Inv(Apply(s, step))
  {
    NextKeepsFlags(s, step);
    NextKeepsTimes(s, step);
  }

  lemma {:induction false} RunKeepsInv(s: State, run: seq<Step>)
    requires Inv(s)
    ensures After(s, run).Some? ==> Inv(After(s, run).value)
    decreases |run|
  {
    if run != [] && Enabled(s, run[0]) {
      NextKeepsInv(s, run[0]);
      RunKeepsInv(Apply(s, run[0]), run[1..]);
    }
  }

  // ----- main results

  /** At every loop head of every run: an event waiting for its refresh has a debounce timer
      that fires or has fired; during warm-up no event waits and the settle timer fires or
      has fired; and the ticker runs at the poll interval in force. */
  lemma LoopHead(start: State, run: seq<Step>)
    requires Starting(start) && After(start, run).Some? && After(start, run).value.phase == Selecting
    ensures var s := After(start, run).value;
            && (s.dirty ==> Alive(s.debounceTimer))
            && (s.warmingUp ==> !s.dirty && Alive(s.settle))
            && s.ticker.period == s.poll
  {
    RunKeepsInv(start, run);
  }

  /** A waiting event is waited for until a refresh starts. */
  lemma {:induction false} DirtyUntilRefreshed(s: State, run: seq<Step>)
    requires Inv(s) && s.dirty && After(s, run).Some? && Refreshes(s, run) == []
    ensures After(s, run).value.dirty && Alive(After(s, run).value.debounceTimer)
    ensures ReceiveDebounce !in run && ReconnectDone !in run
    decreases |run|
  {
    if run != [] {
      NextKeepsInv(s, run[0]);
      DirtyUntilRefreshed(Apply(s, run[0]), run[1..]);
    }
  }

  /** No live event is lost, whatever fires are left over in the timers: after it, a received
      debounce fire or a reconnection comes with a refresh, and until a refresh has started
      the event is remembered and its debounce timer stays alive. */
  lemma NoEventIsLost(start: State, before: seq<Step>, later: seq<Step>)
    requires Starting(start) && After(start, before).Some?
    requires var s := After(start, before).value; Enabled(s, ReceiveEvent) && !s.warmingUp
    requires After(Apply(After(start, before).value, ReceiveEvent), later).Some?
    ensures var s := Apply(After(start, before).value, ReceiveEvent);
            && (ReceiveDebounce in later || ReconnectDone in later ==> Refreshes(s, later) != [])
            && (Refreshes(s, later) == [] ==>
                  After(s, later).value.dirty && Alive(After(s, later).value.debounceTimer))
  {
    RunKeepsInv(start, before);
    var s := After(start, before).value;
    NextKeepsInv(s, ReceiveEvent);
    if Refreshes(Apply(s, ReceiveEvent), later) == [] {
      DirtyUntilRefreshed(Apply(s, ReceiveEvent), later);
    }
  }

  /** An event refresh starts only from a received debounce fire, with an event waiting and
      outside warm-up. */
  lemma EventRefreshNeedsEvent(s: State, step: Step)
    requires Inv(s) && Enabled(s, step)
    requires Apply(s, step).phase == Refreshing(EventArrived) && s.phase != Refreshing(EventArrived)
    ensures step == ReceiveDebounce && s.dirty && !s.warmingUp
  {
  }

  lemma {:induction false} RefreshesConcat(s: State, a: seq<Step>, b: seq<Step>)
    requires After(s, a).Some? && After(After(s, a).value, b).Some?
    ensures After(s, a + b) == After(After(s, a).value, b)
    ensures Refreshes(s, a + b) == Refreshes(s, a) + Refreshes(After(s, a).value, b)
    decreases |a|
  {
    if a == [] {
      assert a + b == b;
    } else {
      assert (a + b)[1..] == a[1..] + b;
      RefreshesConcat(Apply(s, a[0]), a[1..], b);
    }
  }

  lemma BurstStep(s: State, step: Step)
    requires Inv(s) && !s.warmingUp && s.phase != Subscribing && Enabled(s, step)
    requires step != ReceiveDebounce && step != ReconnectDone
    ensures var t := Apply(s, step);
            && !t.warmingUp && t.phase != Subscribing
            && (t.phase == Refreshing(EventArrived) ==> s.phase == Refreshing(EventArrived))
            && (s.dirty || step == ReceiveEvent ==> t.dirty)
  {
  }

  /** What a burst leaves: no event refresh yet, and its events waiting. */
  lemma {:induction false} BurstWaits(s: State, burst: seq<Step>)
    requires Inv(s) && !s.warmingUp && s.phase != Subscribing && After(s, burst).Some?
    requires ReceiveDebounce !in burst && ReconnectDone !in burst
    ensures EventArrived !in Refreshes(s, burst)
    ensures !After(s, burst).value.warmingUp
    ensures s.dirty || ReceiveEvent in burst ==> After(s, burst).value.dirty
    decreases |burst|
  {
    if burst != [] {
      var step := burst[0];
      assert step in burst && burst == [step] + burst[1..];
      NextKeepsInv(s, step);
      BurstStep(s, step);
      BurstWaits(Apply(s, step), burst[1..]);
    }
  }

  /** Live events with no debounce fire received among them cause exactly one event refresh,
      when the next fire is received, however many events and polls there were. */
  lemma BurstRefreshesOnce(s: State, burst: seq<Step>)
    requires Inv(s) && s.phase == Selecting && !s.warmingUp && After(s, burst).Some?
    requires ReceiveDebounce !in burst && ReconnectDone !in burst && ReceiveEvent in burst
    requires Enabled(After(s, burst).value, ReceiveDebounce)
    ensures After(s, burst + [ReceiveDebounce]).Some?
    ensures multiset(Refreshes(s, burst + [ReceiveDebounce]))[EventArrived] == 1
    ensures !After(s, burst + [ReceiveDebounce]).value.dirty
  {
    BurstWaits(s, burst);
    var t := After(s, burst).value;
    assert After(t, [ReceiveDebounce]) == Some(Apply(t, ReceiveDebounce)) by {
      assert [ReceiveDebounce][1..] == [];
    }
    RefreshesConcat(s, burst, [ReceiveDebounce]);
    assert Refreshes(t, [ReceiveDebounce]) == [EventArrived];
    assert multiset(Refreshes(s, burst))[EventArrived] == 0;
  }

  /** Without a subscription every refresh of the run is a poll. */
  lemma PollOnly(start: State, run: seq<Step>)
    requires Starting(start) && After(start, run).Some? && SubscribeDone(true) !in run
    ensures forall reason | reason in Refreshes(start, run) :: reason == Polled
  {
    PollOnlyFrom(start, run);
  }

  predicate Unsubscribed(s: State) {
    && !s.connected && !s.dirty && !s.warmingUp
    && (s.phase == Subscribing || s.phase == Selecting || s.phase == Refreshing(Polled) || s.phase == Stopped)
  }

  lemma {:induction false} PollOnlyFrom(s: State, run: seq<Step>)
    requires Unsubscribed(s) && After(s, run).Some? && SubscribeDone(true) !in run
    ensures forall reason | reason in Refreshes(s, run) :: reason == Polled
    decreases |run|
  {
    if run != [] {
      assert forall step | step in run[1..] :: step in run;
      assert run[0] in run;
      PollOnlyFrom(Apply(s, run[0]), run[1..]);
    }
  }

  /** The steps that set the settle timer. */
  predicate SetsSettle(s: State, step: Step) {
    match step
    case ReceiveEvent => s.warmingUp
    case RefreshDone(poll, _) => Opening(s.phase) || poll != s.poll
    case _ => false
  }

  /** Whether setting the settle timer leaves an old fire in its channel. */
  predicate KeepsOldFire(s: State, step: Step) {
    SetsSettle(s, step) && !s.discards && s.settle.pending
  }

  predicate KeptOldFire(s: State, run: seq<Step>)
    requires After(s, run).Some?
    decreases |run|
  {
    run != [] && (KeepsOldFire(s, run[0]) || KeptOldFire(Apply(s, run[0]), run[1..]))
  }

  /** After the settle timer was set in warm-up, whether by an event, by a forced refresh that
      has ended or by a hot reload, the warm-up could end in the same instant exactly when the
      timer keeps undelivered fires and held one. */
  lemma WarmUpCutShortIff(s: State, step: Step)
    requires Enabled(s, step) && SetsSettle(s, step) && Apply(s, step).warmingUp
    ensures var t := Apply(s, step);
            && t.phase == Selecting && t.settleSet == t.now && t.settleFor == t.poll
            && (Enabled(t, ReceiveSettle) <==> !s.discards && s.settle.pending)
  {
    if step.RefreshDone? {
      RefreshSetsSettle(s, step.poll, step.debounce);
    }
  }

  lemma RefreshSetsSettle(s: State, poll: nat, debounce: nat)
    requires s.phase.Refreshing? && (Opening(s.phase) || poll != s.poll)
    ensures var t := FinishRefresh(s, poll, debounce);
            && t.settle.pending == (s.settle.pending && !s.discards)
            && t.now == t.settleSet && t.settleFor == t.poll && t.warmingUp == s.warmingUp
  {
    match s.phase.reason
    case Subscribed =>
    case Reconnected =>
    case _ =>
  }

  lemma {:induction false} StaleIsAnOldFire(s: State, run: seq<Step>)
    requires !s.stale && After(s, run).Some? && After(s, run).value.stale
    ensures KeptOldFire(s, run)
    decreases |run|
  {
    if !Apply(s, run[0]).stale {
      StaleIsAnOldFire(Apply(s, run[0]), run[1..]);
    }
  }

  /** Ending the warm-up now ends it in quiet: the poll interval in force has passed since the
      settle timer was last set, and since the last event. */
  predicate EndsInQuiet(s: State) {
    s.warmingUp && Enabled(s, ReceiveSettle) ==> s.settleSet + s.poll <= s.now && s.lastEvent + s.poll <= s.now
  }

  /** Warm-up ends only after no event has been received for the poll interval in force,
      also when a hot reload changed it meanwhile, unless the fire that ends it is older
      than the last time the timer was set.  That takes a step that kept an old fire, and
      timers that discard an undelivered fire never hold such a one. */
  lemma WarmUpEndsInQuiet(start: State, run: seq<Step>)
    requires Starting(start) && After(start, run).Some?
    ensures var s := After(start, run).value;
            && (!s.stale ==> EndsInQuiet(s))
            && (!KeptOldFire(start, run) ==> !s.stale)
            && (start.discards ==> !s.stale)
  {
    RunKeepsInv(start, run);
    RunKeepsDiscards(start, run);
    if After(start, run).value.stale {
      StaleIsAnOldFire(start, run);
    }
  }

  lemma {:induction false} RunKeepsDiscards(s: State, run: seq<Step>)
    requires After(s, run).Some?
    ensures After(s, run).value.discards == s.discards
    decreases |run|
  {
    if run != [] {
      RunKeepsDiscards(Apply(s, run[0]), run[1..]);
    }
  }

  /** Whether every warm-up of every run can only end in quiet. */
  ghost predicate WarmUpsAreQuiet(start: State) {
    forall run :: After(start, run).Some? ==> EndsInQuiet(After(start, run).value)
  }

  /** The promise about warm-up holds exactly for timers that discard undelivered fires. */
  lemma WarmUpsAreQuietIff(start: State)
    requires Starting(start)
    ensures WarmUpsAreQuiet(start) <==> start.discards
  {
    if start.discards {
      forall run | After(start, run).Some? ensures EndsInQuiet(After(start, run).value) {
        WarmUpEndsInQuiet(start, run);
      }
    } else {
      var run := FireMeetsEvent(start.poll, start.debounce);
      WarmUpCutShort(start);
      RunKeepsInv(start, run);
      assert !EndsInQuiet(After(start, run).value);
    }
  }

  lemma AfterDrop(s: State, run: seq<Step>, i: nat)
    requires i < |run| && Enabled(s, run[i])
    ensures After(s, run[i..]) == After(Apply(s, run[i]), run[i + 1..])
  {
    assert run[i..][1..] == run[i + 1..];
  }

  /** The run in which a poll interval passes, with its settle fire, and then an event comes. */
  function FireMeetsEvent(poll: nat, debounce: nat): seq<Step> {
    [SubscribeDone(true), RefreshDone(poll, debounce), Pass(poll), SettleExpires, ReceiveEvent]
  }

  /** A fire that arrives together with a replayed event ends the warm-up at once. */
  lemma WarmUpCutShort(start: State)
    requires Starting(start) && !start.discards
    ensures var end := After(start, FireMeetsEvent(start.poll, start.debounce));
            && end.Some? && end.value.warmingUp && Enabled(end.value, ReceiveSettle)
            && end.value.lastEvent == end.value.now
  {
    var run := FireMeetsEvent(start.poll, start.debounce);
    assert run[0..] == run;
    AfterDrop(start, run, 0);
    var subscribed := Apply(start, run[0]);
    AfterDrop(subscribed, run, 1);
    var refreshed := Apply(subscribed, run[1]);
    AfterDrop(refreshed, run, 2);
    var later := Apply(refreshed, run[2]);
    AfterDrop(later, run, 3);
    AfterDrop(Apply(later, run[3]), run, 4);
  }

  /** The run whose first refresh takes a whole poll interval. */
  function SlowRefresh(poll: nat, debounce: nat): seq<Step> {
    [SubscribeDone(true), Pass(poll), SettleExpires, RefreshDone(poll, debounce)]
  }

  /** So does the fire of a slow first refresh, without any event. */
  lemma WarmUpCutShortByRefresh(start: State)
    requires Starting(start) && !start.discards
    ensures var run := SlowRefresh(start.poll, start.debounce);
            && ReceiveEvent !in run && After(start, run).Some?
            && var end := After(start, run).value;
               end.warmingUp && Enabled(end, ReceiveSettle) && end.settleSet == end.now
  {
    var run := SlowRefresh(start.poll, start.debounce);
    assert run[0..] == run;
    AfterDrop(start, run, 0);
    var subscribed := Apply(start, run[0]);
    AfterDrop(subscribed, run, 1);
    var later := Apply(subscribed, run[1]);
    AfterDrop(later, run, 2);
    AfterDrop(Apply(later, run[2]), run, 3);
  }

  /** A first warm-up ends in quiet, ... */
  function WarmUpEnds(poll: nat, debounce: nat): seq<Step> {
    [SubscribeDone(true), RefreshDone(poll, debounce), Pass(poll), SettleExpires, ReceiveSettle]
  }

  /** ... a hot reload then sets the settle timer for twice the interval, and it fires, ... */
  function Retimes(poll: nat, debounce: nat): seq<Step> {
    [TickerExpires, ReceiveTick, RefreshDone(2 * poll, debounce), Pass(2 * poll), SettleExpires]
  }

  /** ... but before that is received a live event comes, and the stream is replaced. */
  function Reconnects(poll: nat, debounce: nat): seq<Step> {
    [ReceiveEvent, StreamCloses, ReconnectDone, RefreshDone(2 * poll, debounce)]
  }

  /** Out of warm-up, with the settle timer fired and not yet received. */
  predicate LeftOver(s: State) {
    !s.warmingUp && !s.discards && s.phase == Selecting && s.connected && s.settle == Timer(None, true) && s.poll > 0
  }

  lemma FirstWarmUp(start: State)
    requires Starting(start)
    ensures var end := After(start, WarmUpEnds(start.poll, start.debounce));
            && end.Some? && !end.value.warmingUp && end.value.phase == Selecting && end.value.connected
            && end.value.poll == start.poll && end.value.ticker.next <= end.value.now
            && end.value.discards == start.discards
  {
    var run := WarmUpEnds(start.poll, start.debounce);
    assert run[0..] == run;
    AfterDrop(start, run, 0);
    var subscribed := Apply(start, run[0]);
    AfterDrop(subscribed, run, 1);
    var refreshed := Apply(subscribed, run[1]);
    AfterDrop(refreshed, run, 2);
    var later := Apply(refreshed, run[2]);
    AfterDrop(later, run, 3);
    AfterDrop(Apply(later, run[3]), run, 4);
  }

  lemma ReloadLeavesFire(s: State, debounce: nat)
    requires !s.warmingUp && !s.discards && s.phase == Selecting && s.connected && s.poll > 0
    requires s.ticker.next <= s.now
    ensures After(s, Retimes(s.poll, debounce)).Some? && LeftOver(After(s, Retimes(s.poll, debounce)).value)
    ensures After(s, Retimes(s.poll, debounce)).value.poll == 2 * s.poll
  {
    var run := Retimes(s.poll, debounce);
    assert run[0..] == run;
    AfterDrop(s, run, 0);
    var due := Apply(s, run[0]);
    AfterDrop(due, run, 1);
    var polling := Apply(due, run[1]);
    AfterDrop(polling, run, 2);
    var retimed := Apply(polling, run[2]);
    AfterDrop(retimed, run, 3);
    AfterDrop(Apply(retimed, run[3]), run, 4);
  }

  lemma ReconnectingKeepsFire(s: State, poll: nat, debounce: nat)
    requires LeftOver(s) && s.poll == 2 * poll
    ensures var end := After(s, Reconnects(poll, debounce));
            && end.Some? && end.value.warmingUp && Enabled(end.value, ReceiveSettle)
            && end.value.lastEvent == end.value.now == s.now
  {
    var run := Reconnects(poll, debounce);
    assert run[0..] == run;
    AfterDrop(s, run, 0);
    var dirty := Apply(s, run[0]);
    AfterDrop(dirty, run, 1);
    var lost := Apply(dirty, run[1]);
    AfterDrop(lost, run, 2);
    AfterDrop(Apply(lost, run[2]), run, 3);
  }

  /** And so does a fire from before a reconnection, after an event that came in no warm-up:
      the second warm-up can end in the instant of that event. */
  lemma WarmUpCutShortByReconnection(start: State)
    requires Starting(start) && !start.discards
    ensures var poll, debounce := start.poll, start.debounce;
            var before := WarmUpEnds(poll, debounce) + Retimes(poll, debounce);
            && ReceiveEvent !in before && After(start, before).Some? && !After(start, before).value.warmingUp
            && var end := After(start, before + Reconnects(poll, debounce));
               && end.Some? && end.value.warmingUp && Enabled(end.value, ReceiveSettle)
               && end.value.lastEvent == end.value.now
  {
    var poll, debounce := start.poll, start.debounce;
    var first, second, third := WarmUpEnds(poll, debounce), Retimes(poll, debounce), Reconnects(poll, debounce);
    FirstWarmUp(start);
    ReloadLeavesFire(After(start, first).value, debounce);
    RefreshesConcat(start, first, second);
    ReconnectingKeepsFire(After(start, first + second).value, poll, debounce);
    RefreshesConcat(start, first + second, third);
  }

  /** Warm-up never gets stuck: from every loop head in warm-up it ends if the stream is quiet. */
  lemma WarmUpCanEnd(start: State, run: seq<Step>) returns (quiet: seq<Step>)
    requires Starting(start) && After(start, run).Some?
    requires var s := After(start, run).value; s.warmingUp && s.phase == Selecting
    ensures ReceiveEvent !in quiet
    ensures var s := After(start, run).value; After(s, quiet).Some? && !After(s, quiet).value.warmingUp
  {
    RunKeepsInv(start, run);
    var s := After(start, run).value;
    if s.settle.pending {
      quiet := [ReceiveSettle];
      assert quiet[1..] == [];
    } else {
      quiet := [Pass(s.poll), SettleExpires, ReceiveSettle];
      var s1 := Apply(s, quiet[0]);
      var s2 := Apply(s1, quiet[1]);
      assert quiet[1..][1..] == quiet[2..] && quiet[2..][1..] == [];
      assert After(s2, quiet[2..]) == Some(Apply(s2, ReceiveSettle));
      assert After(s1, quiet[1..]) == Some(Apply(s2, ReceiveSettle));
    }
  }

  // ----- what a trace of the loop shows

  lemma AfterSnoc(start: State, trace: seq<Step>, step: Step)
    requires After(start, trace).Some? && Enabled(After(start, trace).value, step)
    ensures var s := After(start, trace).value;
            && After(start, trace + [step]) == Some(Apply(s, step))
            && Refreshes(start, trace + [step]) == Refreshes(start, trace) + Started(s, step)
  {
    var s := After(start, trace).value;
    assert [step][1..] == [];
    assert After(s, [step]) == After(Apply(s, step), []);
    assert Refreshes(s, [step]) == Started(s, step) + Refreshes(Apply(s, step), []);
    RefreshesConcat(start, trace, [step]);
  }

  /** The state before the i-th step of a trace. */
  function Before(start: State, trace: seq<Step>, i: nat): State
    requires i < |trace| && After(start, trace).Some?
    ensures After(start, trace[..i]) == Some(Before(start, trace, i)) && Enabled(Before(start, trace, i), trace[i])
    decreases i
  {
    if i == 0 then start
    else
      assert trace[..i][0] == trace[0] && trace[..i][1..] == trace[1..][..i - 1];
      Before(Apply(start, trace[0]), trace[1..], i - 1)
  }

  /** The i-th step receives an event that is not part of a replay. */
  predicate LiveEvent(start: State, trace: seq<Step>, i: nat)
    requires i < |trace| && After(start, trace).Some?
  {
    trace[i] == ReceiveEvent && !Before(start, trace, i).warmingUp
  }

  /** A refresh starts after the i-th step. */
  predicate RefreshedSince(start: State, trace: seq<Step>, i: nat)
    requires i < |trace| && After(start, trace).Some?
  {
    var t := Apply(Before(start, trace, i), trace[i]);
    After(t, trace[i + 1..]).Some? && Refreshes(t, trace[i + 1..]) != []
  }

  lemma SplitTrace(start: State, trace: seq<Step>, i: nat)
    requires i < |trace| && After(start, trace).Some?
    ensures After(Apply(Before(start, trace, i), trace[i]), trace[i + 1..]) == After(start, trace)
    decreases i
  {
    if i == 0 {
      assert trace[1..] == trace[i + 1..];
    } else {
      SplitTrace(Apply(start, trace[0]), trace[1..], i - 1);
      assert trace[1..][i..] == trace[i + 1..] && trace[1..][i - 1] == trace[i];
      assert Before(start, trace, i) == Before(Apply(start, trace[0]), trace[1..], i - 1);
    }
  }

  /** Every live event of the trace has been followed by a refresh, or is still waited for. */
  lemma NoTraceLosesAnEvent(start: State, trace: seq<Step>, i: nat)
    requires Starting(start) && After(start, trace).Some? && i < |trace| && LiveEvent(start, trace, i)
    ensures RefreshedSince(start, trace, i) || After(start, trace).value.dirty
  {
    SplitTrace(start, trace, i);
    NoEventIsLost(start, trace[..i], trace[i + 1..]);
  }

  /** How many live events are received along a run. */
  function LiveEvents(s: State, run: seq<Step>): nat
    requires After(s, run).Some?
    decreases |run|
  {
    if run == [] then 0
    else (if run[0] == ReceiveEvent && !s.warmingUp then 1 else 0) + LiveEvents(Apply(s, run[0]), run[1..])
  }

  /** Every event refresh answers a live event of its own. */
  lemma {:induction false} EventRefreshesArePaid(s: State, run: seq<Step>)
    requires Inv(s) && After(s, run).Some?
    ensures multiset(Refreshes(s, run))[EventArrived] + (if After(s, run).value.dirty then 1 else 0)
         <= LiveEvents(s, run) + (if s.dirty then 1 else 0)
    decreases |run|
  {
    if run != [] {
      NextKeepsInv(s, run[0]);
      EventRefreshesArePaid(Apply(s, run[0]), run[1..]);
      RefreshIsPaid(s, run[0]);
    }
  }

  lemma RefreshIsPaid(s: State, step: Step)
    requires Inv(s) && Enabled(s, step)
    ensures multiset(Started(s, step))[EventArrived] + (if Apply(s, step).dirty then 1 else 0)
         <= (if step == ReceiveEvent && !s.warmingUp then 1 else 0) + (if s.dirty then 1 else 0)
  {
    if step != ReceiveDebounce {
      assert EventArrived !in Started(s, step);
    }
  }

  // ----- the debounce interval

  /** The debounce timer has last been set to fire at `due`, and holds no older fire. */
  predicate Pends(s: State, due: nat) {
    && (s.debounceTimer.deadline.Some? ==> s.debounceTimer.deadline.value == due)
    && (s.debounceTimer.pending ==> due <= s.now)
  }

  lemma StillPends(s: State, step: Step, due: nat)
    requires Pends(s, due) && Enabled(s, step) && step != ReceiveEvent
    ensures Pends(Apply(s, step), due)
  {
    if step.RefreshDone? {
      RefreshLeavesDebounce(s, step.poll, step.debounce);
    }
  }

  lemma RefreshLeavesDebounce(s: State, poll: nat, debounce: nat)
    requires s.phase.Refreshing?
    ensures FinishRefresh(s, poll, debounce).debounceTimer == s.debounceTimer
    ensures FinishRefresh(s, poll, debounce).now == s.now && FinishRefresh(s, poll, debounce).dirty == s.dirty
  {
    match s.phase.reason
    case Subscribed =>
    case Reconnected =>
    case _ =>
  }

  lemma {:induction false} PendsAlong(s: State, run: seq<Step>, due: nat)
    requires Pends(s, due) && After(s, run).Some? && ReceiveEvent !in run
    ensures Pends(After(s, run).value, due)
    decreases |run|
  {
    if run != [] {
      assert run[0] in run && forall step | step in run[1..] :: step in run;
      StillPends(s, run[0], due);
      PendsAlong(Apply(s, run[0]), run[1..], due);
    }
  }

  /** A live event that finds no undelivered fire, or a timer that drops it, is followed by no
      event refresh, as long as no other event follows, before the debounce interval that was
      in force has passed. */
  lemma EventRefreshWaits(s: State, later: seq<Step>)
    requires Enabled(s, ReceiveEvent) && !s.warmingUp && (s.discards || !s.debounceTimer.pending)
    requires ReceiveEvent !in later && After(Apply(s, ReceiveEvent), later).Some?
    requires Enabled(After(Apply(s, ReceiveEvent), later).value, ReceiveDebounce)
    ensures s.now + s.debounce <= After(Apply(s, ReceiveEvent), later).value.now
  {
    PendsAlong(Apply(s, ReceiveEvent), later, s.now + s.debounce);
  }

  /** Otherwise its refresh can start in the very instant of the event. */
  lemma DebounceCutShortIff(s: State)
    requires Enabled(s, ReceiveEvent) && !s.warmingUp
    ensures var t := Apply(s, ReceiveEvent);
            && t.dirty && t.lastEvent == t.now == s.now
            && (Enabled(t, ReceiveDebounce) <==> !s.discards && s.debounceTimer.pending)
  {
  }

  /** Two live events, the second with the fire of the first. */
  function FireMeetsLiveEvent(debounce: nat): seq<Step> {
    [ReceiveEvent, Pass(debounce), DebounceExpires, ReceiveEvent]
  }

  /** That happens: from every start with timers that keep such fires, after a first warm-up,
      the refresh for an event can start at once. */
  lemma DebounceCutShort(start: State)
    requires Starting(start) && !start.discards
    ensures var run := WarmUpEnds(start.poll, start.debounce) + FireMeetsLiveEvent(start.debounce);
            && After(start, run).Some?
            && var s := After(start, run).value;
               s.dirty && s.lastEvent == s.now && Enabled(s, ReceiveDebounce)
  {
    FirstWarmUp(start);
    var s := After(start, WarmUpEnds(start.poll, start.debounce)).value;
    ConfiguredBySubscription(start);
    var run := FireMeetsLiveEvent(start.debounce);
    assert run[0..] == run;
    AfterDrop(s, run, 0);
    var waiting := Apply(s, run[0]);
    AfterDrop(waiting, run, 1);
    var later := Apply(waiting, run[1]);
    AfterDrop(later, run, 2);
    AfterDrop(Apply(later, run[2]), run, 3);
    RefreshesConcat(start, WarmUpEnds(start.poll, start.debounce), run);
  }

  lemma ConfiguredBySubscription(start: State)
    requires Starting(start)
    ensures var run := WarmUpEnds(start.poll, start.debounce);
            After(start, run).Some? ==> After(start, run).value.debounce == start.debounce
  {
    var run := WarmUpEnds(start.poll, start.debounce);
    if After(start, run).Some? {
      OnlyDebounce(start, run, start.debounce);
    }
  }

  /** A run whose refreshes all find the same interval configured leaves it in force. */
  lemma {:induction false} OnlyDebounce(s: State, run: seq<Step>, debounce: nat)
    requires After(s, run).Some? && s.debounce == debounce
    requires forall step: Step | step in run && step.RefreshDone? :: step.debounce == debounce
    ensures After(s, run).value.debounce == debounce
    decreases |run|
  {
    if run != [] {
      assert run[0] in run && forall step | step in run[1..] :: step in run;
      StepSetsIntervals(s, run[0]);
      OnlyDebounce(Apply(s, run[0]), run[1..], debounce);
    }
  }

  /** The timer is set for exactly the interval: it can fire as soon as that has passed, and not
      before, and then the refresh starts. */
  lemma DebounceIsExact(s: State, time: nat)
    requires Enabled(s, ReceiveEvent) && !s.warmingUp
    ensures Enabled(Apply(Apply(s, ReceiveEvent), Pass(time)), DebounceExpires) <==> time >= s.debounce
    ensures time >= s.debounce ==>
              var t := Apply(Apply(Apply(s, ReceiveEvent), Pass(time)), DebounceExpires);
              Enabled(t, ReceiveDebounce) && Started(t, ReceiveDebounce) == [EventArrived]
  {
  }

  function Left(due: nat, now: nat): nat { if due > now then due - now else 0 }

  /** What is left to do for a waiting event is to receive the fire, or to let what is left of
      its debounce interval pass first. */
  function Remainder(t: State, due: nat): seq<Step> {
    if t.debounceTimer.pending then [ReceiveDebounce] else [Pass(Left(due, t.now)), DebounceExpires, ReceiveDebounce]
  }

  lemma {:induction false} DeadlineAlong(s: State, run: seq<Step>, due: nat)
    requires After(s, run).Some? && ReceiveEvent !in run
    requires s.debounceTimer.deadline.Some? ==> s.debounceTimer.deadline.value == due
    ensures var t := After(s, run).value;
            t.debounceTimer.deadline.Some? ==> t.debounceTimer.deadline.value == due
    decreases |run|
  {
    if run != [] {
      assert run[0] in run && forall step | step in run[1..] :: step in run;
      if run[0].RefreshDone? {
        RefreshLeavesDebounce(s, run[0].poll, run[0].debounce);
      }
      DeadlineAlong(Apply(s, run[0]), run[1..], due);
    }
  }

  /** From every loop head at which a live event still waits, letting what is left of its
      debounce interval pass is enough to start its refresh. */
  lemma WaitingEventCanRefresh(start: State, before: seq<Step>, later: seq<Step>)
    requires Starting(start) && After(start, before).Some?
    requires Enabled(After(start, before).value, ReceiveEvent) && !After(start, before).value.warmingUp
    requires ReceiveEvent !in later && After(Apply(After(start, before).value, ReceiveEvent), later).Some?
    requires var t := After(Apply(After(start, before).value, ReceiveEvent), later).value;
             t.dirty && t.phase == Selecting
    ensures var s := After(start, before).value;
            var t := After(Apply(s, ReceiveEvent), later).value;
            var rest := Remainder(t, s.now + s.debounce);
            After(t, rest).Some? && Refreshes(t, rest) == [EventArrived] && ReceiveEvent !in rest
  {
    RunKeepsInv(start, before);
    var s := After(start, before).value;
    NextKeepsInv(s, ReceiveEvent);
    RunKeepsInv(Apply(s, ReceiveEvent), later);
    DeadlineAlong(Apply(s, ReceiveEvent), later, s.now + s.debounce);
    RemainderRefreshes(After(Apply(s, ReceiveEvent), later).value, s.now + s.debounce);
  }

  lemma RemainderRefreshes(t: State, due: nat)
    requires t.phase == Selecting && t.dirty && Alive(t.debounceTimer)
    requires t.debounceTimer.deadline.Some? ==> t.debounceTimer.deadline.value == due
    ensures After(t, Remainder(t, due)).Some? && Refreshes(t, Remainder(t, due)) == [EventArrived]
  {
    var rest := Remainder(t, due);
    assert rest[0..] == rest;
    if t.debounceTimer.pending {
      AfterSnoc(t, [], ReceiveDebounce);
      assert [] + [ReceiveDebounce] == rest;
    } else {
      AfterSnoc(t, [], rest[0]);
      AfterSnoc(t, [rest[0]], rest[1]);
      AfterSnoc(t, [rest[0], rest[1]], rest[2]);
      assert [] + [rest[0]] == [rest[0]] && [rest[0]] + [rest[1]] == [rest[0], rest[1]];
      assert [rest[0], rest[1]] + [rest[2]] == rest;
    }
  }

  /** Index j is the last event before index i. */
  predicate LastEventBefore(trace: seq<Step>, j: int, i: int) {
    0 <= j < i <= |trace| && trace[j] == ReceiveEvent && forall k | j < k < i :: trace[k] != ReceiveEvent
  }

  /** Along any run of the loop, every event refresh starts only once the debounce interval in
      force at the last live event has passed since then, unless that event found an undelivered
      fire that the timer keeps. */
  lemma NoTraceRefreshesEarly(start: State, trace: seq<Step>, j: nat, i: nat)
    requires Starting(start) && After(start, trace).Some? && i < |trace| && LastEventBefore(trace, j, i)
    requires LiveEvent(start, trace, j) && trace[i] == ReceiveDebounce
    ensures var s := Before(start, trace, j);
            start.discards || !s.debounceTimer.pending ==> s.now + s.debounce <= Before(start, trace, i).now
  {
    var s := Before(start, trace, j);
    var later := trace[j + 1..i];
    assert trace[..i][..j] == trace[..j] && trace[..i][j] == trace[j];
    assert After(start, trace[..i]) == Some(Before(start, trace, i));
    SplitTrace(start, trace[..i], j);
    assert Before(start, trace[..i], j) == s;
    assert trace[..i][j + 1..] == later;
    RunKeepsDiscards(start, trace[..j]);
    if start.discards || !s.debounceTimer.pending {
      EventRefreshWaits(s, later);
    }
  }

  lemma BeforeKeepsInv(start: State, trace: seq<Step>, i: nat)
    requires Starting(start) && After(start, trace).Some? && i < |trace|
    ensures Inv(Before(start, trace, i))
  {
    assert After(start, trace[..i]) == Some(Before(start, trace, i));
    RunKeepsInv(start, trace[..i]);
  }

  /** There is such an event whenever one waits. */
  lemma {:induction false} WaitingEventIsTheLast(start: State, trace: seq<Step>, i: nat) returns (j: nat)
    requires Starting(start) && After(start, trace).Some? && i < |trace| && Before(start, trace, i).dirty
    ensures LastEventBefore(trace, j, i) && LiveEvent(start, trace, j)
    decreases i
  {
    assert i > 0;
    var before := Before(start, trace, i - 1);
    BeforeNext(start, trace, i - 1);
    BeforeKeepsInv(start, trace, i - 1);
    if trace[i - 1] == ReceiveEvent {
      j := i - 1;
    } else {
      OnlyEventsWait(before, trace[i - 1]);
      j := WaitingEventIsTheLast(start, trace, i - 1);
    }
  }

  lemma OnlyEventsWait(s: State, step: Step)
    requires Enabled(s, step) && Apply(s, step).dirty && step != ReceiveEvent
    ensures s.dirty
  {
    if step.RefreshDone? {
      RefreshLeavesDebounce(s, step.poll, step.debounce);
    }
  }

  lemma BeforeNext(start: State, trace: seq<Step>, i: nat)
    requires i + 1 < |trace| && After(start, trace).Some?
    ensures Before(start, trace, i + 1) == Apply(Before(start, trace, i), trace[i])
  {
    assert After(start, trace[..i]) == Some(Before(start, trace, i));
    AfterSnoc(start, trace[..i], trace[i]);
    assert trace[..i] + [trace[i]] == trace[..i + 1];
    assert After(start, trace[..i + 1]) == Some(Before(start, trace, i + 1));
  }

  // ----- the intervals in force

  /** The intervals configured at the last refresh of the run that looked at them: all but the
      one after the first subscription do. */
  function Configured(s: State, run: seq<Step>): (nat, nat)
    requires After(s, run).Some?
    decreases |run|
  {
    if run == [] then (s.poll, s.debounce)
    else
      var n := |run| - 1;
      AfterPrefix(s, run, n);
      var before := After(s, run[..n]).value;
      if run[n].RefreshDone? && before.phase != Refreshing(Subscribed) then (run[n].poll, run[n].debounce)
      else Configured(s, run[..n])
  }

  lemma AfterPrefix(s: State, run: seq<Step>, n: nat)
    requires After(s, run).Some? && n <= |run|
    ensures After(s, run[..n]).Some? && After(After(s, run[..n]).value, run[n..]) == After(s, run)
    decreases n
  {
    if n > 0 {
      assert run[..n][0] == run[0] && run[..n][1..] == run[1..][..n - 1] && run[1..][n - 1..] == run[n..];
      AfterPrefix(Apply(s, run[0]), run[1..], n - 1);
    } else {
      assert run[0..] == run;
    }
  }

  /** They are the ones in force, and the ticker runs at the poll interval. */
  lemma {:induction false} ConfiguredIntervalsAreInForce(start: State, run: seq<Step>)
    requires Starting(start) && After(start, run).Some?
    ensures var s := After(start, run).value;
            (s.poll, s.debounce) == Configured(start, run) && s.ticker.period == Configured(start, run).0
    decreases |run|
  {
    RunKeepsInv(start, run);
    if run != [] {
      var n := |run| - 1;
      AfterPrefix(start, run, n);
      ConfiguredIntervalsAreInForce(start, run[..n]);
      var before := After(start, run[..n]).value;
      assert run[n..] == [run[n]] && [run[n]][1..] == [];
      StepSetsIntervals(before, run[n]);
    }
  }

  lemma StepSetsIntervals(s: State, step: Step)
    requires Enabled(s, step)
    ensures var t := Apply(s, step);
            (t.poll, t.debounce)
            == if step.RefreshDone? && s.phase != Refreshing(Subscribed) then (step.poll, step.debounce)
               else (s.poll, s.debounce)
  {
  }

  // ----- polls, subscriptions and reconnections

  function CountOf(run: seq<Step>, step: Step): nat { multiset(run)[step] }

  /** Every tick received starts a poll, every reconnection and the first subscription a forced
      refresh, and nothing else does. */
  lemma {:induction false} RefreshesAreCaused(s: State, run: seq<Step>)
    requires After(s, run).Some?
    ensures var reasons := multiset(Refreshes(s, run));
            && reasons[Polled] == CountOf(run, ReceiveTick)
            && reasons[Reconnected] == CountOf(run, ReconnectDone)
            && reasons[Subscribed] == CountOf(run, SubscribeDone(true))
    decreases |run|
  {
    if run != [] {
      assert run == [run[0]] + run[1..];
      RefreshesAreCaused(Apply(s, run[0]), run[1..]);
      StepCauses(s, run[0]);
    }
  }

  lemma StepCauses(s: State, step: Step)
    requires Enabled(s, step)
    ensures var reasons := multiset(Started(s, step));
            && reasons[Polled] == (if step == ReceiveTick then 1 else 0)
            && reasons[Reconnected] == (if step == ReconnectDone then 1 else 0)
            && reasons[Subscribed] == (if step == SubscribeDone(true) then 1 else 0)
  {
  }

  /** The ticker: the next tick comes exactly when it is due, and is then due one interval
      later; after a hot reload of the poll interval, one new interval from then, and a tick not
      yet received is kept or discarded like a fire. */
  lemma TicksAreExact(s: State, time: nat)
    requires Inv(s) && s.phase != Stopped
    ensures Enabled(Apply(s, Pass(time)), TickerExpires) <==> s.now + time >= s.ticker.next
    ensures Enabled(s, TickerExpires) ==>
              Apply(s, TickerExpires).ticker == Ticker(s.poll, s.ticker.next + s.poll, true)
    ensures s.phase == Refreshing(Polled) || s.phase == Refreshing(EventArrived) ==>
              forall poll, debounce :: poll > 0 ==>
                Apply(s, RefreshDone(poll, debounce)).ticker
                == if poll == s.poll then s.ticker
                   else Ticker(poll, s.now + poll, s.ticker.pending && !s.discards)
  {
  }

  function Waiting(pending: bool): nat { if pending then 1 else 0 }

  /** A fire, or a tick, is received once at most: those received, and the one waiting, have come. */
  lemma {:induction false} FiresAreReceivedOnce(s: State, run: seq<Step>)
    requires After(s, run).Some?
    ensures var t := After(s, run).value;
            && CountOf(run, ReceiveTick) + Waiting(t.ticker.pending)
               <= CountOf(run, TickerExpires) + Waiting(s.ticker.pending)
            && CountOf(run, ReceiveDebounce) + Waiting(t.debounceTimer.pending)
               <= CountOf(run, DebounceExpires) + Waiting(s.debounceTimer.pending)
            && CountOf(run, ReceiveSettle) + Waiting(t.settle.pending)
               <= CountOf(run, SettleExpires) + Waiting(s.settle.pending)
    decreases |run|
  {
    if run != [] {
      assert run == [run[0]] + run[1..];
      FiresAreReceivedOnce(Apply(s, run[0]), run[1..]);
      StepAddsNoFire(s, run[0]);
    }
  }

  lemma StepAddsNoFire(s: State, step: Step)
    requires Enabled(s, step)
    ensures var t := Apply(s, step);
            && (t.ticker.pending ==> step != ReceiveTick && (s.ticker.pending || step == TickerExpires))
            && (t.debounceTimer.pending ==>
                  step != ReceiveDebounce && (s.debounceTimer.pending || step == DebounceExpires))
            && (t.settle.pending ==> step != ReceiveSettle && (s.settle.pending || step == SettleExpires))
  {
    if step.RefreshDone? {
      RefreshAddsNoFire(s, step.poll, step.debounce);
    }
  }

  predicate NoneAdded(s: State, t: State) {
    && (t.ticker.pending ==> s.ticker.pending)
    && (t.settle.pending ==> s.settle.pending)
    && t.debounceTimer == s.debounceTimer
  }

  lemma RetimingAddsNoFire(s: State, poll: nat, debounce: nat)
    ensures NoneAdded(s, ApplyIntervals(s, poll, debounce))
  {
  }

  lemma RefreshAddsNoFire(s: State, poll: nat, debounce: nat)
    requires s.phase.Refreshing?
    ensures NoneAdded(s, FinishRefresh(s, poll, debounce))
  {
    RetimingAddsNoFire(s, poll, debounce);
    match s.phase.reason
    case Subscribed =>
    case Reconnected =>
    case _ =>
  }

  /** Every poll interval the run has in force is `least` or longer. */
  predicate PollsSlowly(s: State, run: seq<Step>, least: nat) {
    s.poll >= least && forall i | 0 <= i < |run| && run[i].RefreshDone? :: run[i].poll >= least
  }

  /** At least `spent` ago the run began, and the next tick comes `least` after that. */
  predicate Spent(s: State, spent: nat, least: nat) {
    spent <= s.now && spent + least <= s.ticker.next
  }

  lemma StepSpends(s: State, step: Step, spent: nat, least: nat)
    requires Inv(s) && Enabled(s, step) && Spent(s, spent, least) && PollsSlowly(s, [step], least)
    ensures Spent(Apply(s, step), spent + (if step == TickerExpires then least else 0), least)
    ensures Apply(s, step).poll >= least
  {
    assert step.RefreshDone? ==> [step][0].poll >= least;
  }

  lemma FirstCounts(run: seq<Step>, step: Step)
    requires run != []
    ensures CountOf(run, step) == CountOf(run[1..], step) + (if run[0] == step then 1 else 0)
  {
    assert run == [run[0]] + run[1..];
  }

  lemma {:induction false} TicksAreSpaced(s: State, run: seq<Step>, spent: nat, least: nat)
    requires Inv(s) && After(s, run).Some? && Spent(s, spent, least) && PollsSlowly(s, run, least)
    ensures spent + Times(least, CountOf(run, TickerExpires)) <= After(s, run).value.now
    decreases |run|
  {
    if run != [] {
      NextKeepsInv(s, run[0]);
      StepSpends(s, run[0], spent, least);
      TicksAreSpaced(Apply(s, run[0]), run[1..], spent + (if run[0] == TickerExpires then least else 0), least);
      FirstCounts(run, TickerExpires);
      OneMore(least, CountOf(run[1..], TickerExpires));
    }
  }

  function Times(a: nat, b: nat): nat { a * b }

  lemma OneMore(a: nat, b: nat)
    ensures Times(a, b + 1) == Times(a, b) + a
  {
  }

  lemma Scaled(a: nat, b: nat, factor: nat)
    requires a <= b
    ensures factor * a <= Times(factor, b)
  {
  }

  /** The polls of a run never outpace its shortest poll interval. */
  lemma PollsAreSpaced(start: State, run: seq<Step>, least: nat)
    requires Starting(start) && After(start, run).Some? && PollsSlowly(start, run, least)
    ensures least * multiset(Refreshes(start, run))[Polled] <= After(start, run).value.now - start.now
  {
    FiresAreReceivedOnce(start, run);
    RefreshesAreCaused(start, run);
    TicksAreSpaced(start, run, start.now, least);
    Scaled(CountOf(run, ReceiveTick), CountOf(run, TickerExpires), least);
  }

  predicate TickSoon(s: State) { s.ticker.next <= s.now + s.poll }

  lemma RefreshTicksSoon(s: State, poll: nat, debounce: nat)
    requires s.phase.Refreshing? && TickSoon(s)
    ensures TickSoon(FinishRefresh(s, poll, debounce))
  {
    assert TickSoon(ApplyIntervals(s, poll, debounce));
    match s.phase.reason
    case Subscribed =>
    case Reconnected =>
    case _ =>
  }

  lemma StepTicksSoon(s: State, step: Step)
    requires IntervalsInv(s) && TickSoon(s) && Enabled(s, step)
    ensures TickSoon(Apply(s, step))
  {
    if step.RefreshDone? {
      RefreshTicksSoon(s, step.poll, step.debounce);
    }
  }

  lemma {:induction false} TicksComeSoon(s: State, run: seq<Step>)
    requires Inv(s) && TickSoon(s) && After(s, run).Some?
    ensures TickSoon(After(s, run).value)
    decreases |run|
  {
    if run != [] {
      NextKeepsInv(s, run[0]);
      StepTicksSoon(s, run[0]);
      TicksComeSoon(Apply(s, run[0]), run[1..]);
    }
  }

  /** From every loop head a poll is at most one poll interval away. */
  lemma PollIsNear(start: State, run: seq<Step>)
    requires Starting(start) && After(start, run).Some? && After(start, run).value.phase == Selecting
    ensures var s := After(start, run).value;
            || (Enabled(s, ReceiveTick) && Started(s, ReceiveTick) == [Polled])
            || (var t := Apply(s, Pass(s.poll));
                Enabled(t, TickerExpires) && Enabled(Apply(t, TickerExpires), ReceiveTick))
  {
    RunKeepsInv(start, run);
    TicksComeSoon(start, run);
  }

  /** Every tick received was a poll, and the polls kept the interval. */
  ghost predicate PollsOnTicks(start: State, run: seq<Step>)
    requires After(start, run).Some?
  {
    && multiset(Refreshes(start, run))[Polled] == CountOf(run, ReceiveTick)
    && forall least: nat | PollsSlowly(start, run, least) ::
         least * multiset(Refreshes(start, run))[Polled] <= After(start, run).value.now - start.now
  }

  lemma EveryPollIsOnATick(start: State, run: seq<Step>)
    requires Starting(start) && After(start, run).Some?
    ensures PollsOnTicks(start, run)
  {
    RefreshesAreCaused(start, run);
    forall least: nat | PollsSlowly(start, run, least)
      ensures least * multiset(Refreshes(start, run))[Polled] <= After(start, run).value.now - start.now
    {
      PollsAreSpaced(start, run, least);
    }
  }

  /** A closed stream is replaced before anything else is selected; the new one starts a warm-up
      of one poll interval, after a forced refresh with the intervals configured by then, and
      with no event waiting. */
  lemma ReconnectionRestores(s: State, poll: nat, debounce: nat)
    requires Enabled(s, StreamCloses) && poll > 0
    ensures var lost := Apply(s, StreamCloses);
            && lost.phase == Reconnecting && !lost.connected
            && Apply(lost, ReconnectGivesUp).phase == Selecting && !Apply(lost, ReconnectGivesUp).connected
            && Started(lost, ReconnectDone) == [Reconnected]
            && var t := Apply(Apply(lost, ReconnectDone), RefreshDone(poll, debounce));
               && t.phase == Selecting && t.connected && t.warmingUp && !t.dirty
               && t.poll == poll && t.debounce == debounce && t.debounceTimer.deadline == None
               && t.settle.deadline == Some(s.now + poll) && t.settleFor == poll
  {
  }

  /** The first subscription likewise, but for the intervals; without one there is no warm-up. */
  lemma SubscriptionOpens(s: State, poll: nat, debounce: nat)
    requires Starting(s) && poll > 0
    ensures Apply(s, SubscribeDone(false)) == s.(phase := Selecting)
    ensures Started(s, SubscribeDone(true)) == [Subscribed]
    ensures var t := Apply(Apply(s, SubscribeDone(true)), RefreshDone(poll, debounce));
            && t.phase == Selecting && t.connected && t.warmingUp && !t.dirty
            && t.poll == s.poll && t.debounce == s.debounce && t.settle.deadline == Some(s.now + s.poll)
  {
  }

  /** A cancelled loop takes no further step. */
  lemma CancelIsFinal(s: State, step: Step)
    requires Enabled(s, Cancel)
    ensures !Enabled(Apply(s, Cancel), step)
  {
  }

  /** What the loop promises about everything it did. */
  ghost predicate Trustworthy(start: State, trace: seq<Step>)
    requires After(start, trace).Some?
  {
    var s := After(start, trace).value;
    && (forall i | 0 <= i < |trace| && LiveEvent(start, trace, i) :: RefreshedSince(start, trace, i) || s.dirty)
    && multiset(Refreshes(start, trace))[EventArrived] + (if s.dirty then 1 else 0) <= LiveEvents(start, trace)
    && (start.discards ==>
          forall i | 0 <= i < |trace| && trace[i] == ReceiveSettle :: EndsInQuiet(Before(start, trace, i)))
    && (forall j, i | 0 <= i < |trace| && trace[i] == ReceiveDebounce && LastEventBefore(trace, j, i)
                      && LiveEvent(start, trace, j)
                      && (start.discards || !Before(start, trace, j).debounceTimer.pending) ::
          Before(start, trace, j).now + Before(start, trace, j).debounce <= Before(start, trace, i).now)
    && (s.poll, s.debounce) == Configured(start, trace)
    && PollsOnTicks(start, trace)
  }

  lemma EveryTraceIsTrustworthy(start: State, trace: seq<Step>)
    requires Starting(start) && After(start, trace).Some?
    ensures Trustworthy(start, trace)
  {
    forall i | 0 <= i < |trace| && LiveEvent(start, trace, i)
      ensures RefreshedSince(start, trace, i) || After(start, trace).value.dirty
    {
      NoTraceLosesAnEvent(start, trace, i);
    }
    EventRefreshesArePaid(start, trace);
    forall i | 0 <= i < |trace| && start.discards ensures EndsInQuiet(Before(start, trace, i)) {
      assert After(start, trace[..i]) == Some(Before(start, trace, i));
      WarmUpEndsInQuiet(start, trace[..i]);
    }
    forall j, i | 0 <= i < |trace| && trace[i] == ReceiveDebounce && LastEventBefore(trace, j, i)
                  && LiveEvent(start, trace, j) && (start.discards || !Before(start, trace, j).debounceTimer.pending)
      ensures Before(start, trace, j).now + Before(start, trace, j).debounce <= Before(start, trace, i).now
    {
      NoTraceRefreshesEarly(start, trace, j, i);
    }
    ConfiguredIntervalsAreInForce(start, trace);
    EveryPollIsOnATick(start, trace);
  }

  // ----- reconnecting

  const BACKOFF: seq<nat> := [250, 500, 1000, 2000, 4000, 5000]

  /** How one attempt to resubscribe ends. */
  datatype Attempt = SleepInterrupted | CancelledAfterSleep | Refused | Accepted

  function Delay(attempt: nat): nat {
    BACKOFF[if attempt < |BACKOFF| then attempt else |BACKOFF| - 1]
  }

  /** Retries for as long as the subscription is refused: of the attempts it gets, it makes
      those up to the first that is not refused, which decides, and before each it pauses, for
      a quarter of a second first and then twice as long each time, up to five seconds. */
  method Reconnect(attempts: seq<Attempt>) returns (outcome: Option<bool>, slept: seq<nat>)
    ensures outcome == None <==> forall i | 0 <= i < |attempts| :: attempts[i] == Refused
    ensures outcome.Some? ==>
              && 0 < |slept| <= |attempts| && attempts[|slept| - 1] != Refused
              && (outcome.value <==> attempts[|slept| - 1] == Accepted)
              && forall i | 0 <= i < |slept| - 1 :: attempts[i] == Refused
    ensures outcome == None ==> |slept| == |attempts|
    ensures forall i | 0 <= i < |slept| :: 250 <= slept[i] == Delay(i) <= 5000
    ensures forall i, j | 0 <= i < j < |slept| :: slept[i] <= slept[j]
    ensures slept != [] ==> slept[0] == 250
    ensures forall i | 0 < i < |slept| :: slept[i] == if 2 * slept[i - 1] < 5000 then 2 * slept[i - 1] else 5000
  {
    slept := [];
    var attempt := 0;
    while attempt < |attempts|
      invariant 0 <= attempt <= |attempts| && |slept| == attempt
      invariant forall i | 0 <= i < attempt :: attempts[i] == Refused && slept[i] == Delay(i)
    {
      slept := slept + [Delay(attempt)];
      match attempts[attempt] {
        case SleepInterrupted => return Some(false), slept;
        case CancelledAfterSleep => return Some(false), slept;
        case Accepted => return Some(true), slept;
        case Refused =>
      }
      attempt := attempt + 1;
    }
    return None, slept;
  }

  // ----- the loop itself

  datatype Offer = Silent | Event | Closed

  /** What has happened by the time the loop looks again: how much time has passed, and which
      of the timers that are due have fired. */
  datatype Lapse = Lapse(time: nat, settle: bool, debounce: bool, ticker: bool)

  /** What the loop meets in one turn: at its select, while it reconnects, and while it
      refreshes, with the intervals configured by then. */
  datatype Turn = Turn(
    waiting: Lapse, cancelled: bool, offer: Offer,
    attempts: seq<Attempt>, reconnecting: Lapse, cancelledMeanwhile: bool,
    refreshing: Lapse, poll: nat, debounce: nat)

  class EventLoop {
    const discards: bool
    var now: nat
    var connected: bool
    var warmingUp: bool
    var dirty: bool
    var poll: nat
    var debounce: nat
    var settle: Timer
    var debounceTimer: Timer
    var ticker: Ticker
    var log: seq<Reason>
    ghost const start: State
    ghost var trace: seq<Step>
    ghost var phase: Phase
    ghost var settleSet: nat
    ghost var settleFor: nat
    ghost var stale: bool
    ghost var lastEvent: nat

    ghost function View(): State
      reads this
    {
      State(discards, now, phase, connected, warmingUp, dirty, poll, debounce, settle, debounceTimer, ticker,
            settleSet, settleFor, stale, lastEvent)
    }

    /** The trace leads to the state the loop is in, and the log shows its refreshes. */
    ghost predicate Valid()
      reads this
    {
      && Starting(start) && After(start, trace) == Some(View()) && Refreshes(start, trace) == log
      && Inv(View())
    }

    constructor (discards: bool, now: nat, poll: nat, debounce: nat)
      requires poll > 0
      ensures Valid() && trace == [] && View() == start
      ensures this.discards == discards && this.now == now && this.poll == poll && this.debounce == debounce
    {
      this.discards, this.now, this.poll, this.debounce := discards, now, poll, debounce;
      connected, warmingUp, dirty := false, false, false;
      settle := Timer(Some(now + poll), false);
      debounceTimer := Timer(None, false);
      ticker := Ticker(poll, now + poll, false);
      log, trace, phase := [], [], Subscribing;
      settleSet, settleFor, stale, lastEvent := now, poll, false, 0;
      start := State(discards, now, Subscribing, false, false, false, poll, debounce, Timer(Some(now + poll), false),
                     Timer(None, false), Ticker(poll, now + poll, false), now, poll, false, 0);
    }

    /** Adds a step to the trace, after the fields were changed. */
    ghost method Note(s: State, step: Step)
      requires Starting(start) && After(start, trace) == Some(s) && Inv(s) && Enabled(s, step)
      requires View() == Apply(s, step) && log == Refreshes(start, trace) + Started(s, step)
      modifies this`trace
      ensures Valid() && trace == old(trace) + [step]
    {
      AfterSnoc(start, trace, step);
      NextKeepsInv(s, step);
      trace := trace + [step];
    }

    /** Whether the step leaves alone what only the loop changes. */
    twostate predicate OnlyTimePassed()
      reads this
    {
      && phase == old(phase) && connected == old(connected) && warmingUp == old(warmingUp) && dirty == old(dirty)
      && poll == old(poll) && debounce == old(debounce) && log == old(log)
    }

    method PassTime(time: nat)
      requires Valid() && phase != Stopped
      modifies this
      ensures Valid() && OnlyTimePassed()
    {
      ghost var s := View();
      now := now + time;
      Note(s, Pass(time));
    }

    method FireSettle()
      requires Valid() && phase != Stopped
      modifies this
      ensures Valid() && OnlyTimePassed()
    {
      if settle.deadline.Some? && settle.deadline.value <= now {
        ghost var s := View();
        settle := Timer(None, true);
        Note(s, SettleExpires);
      }
    }

    method FireDebounce()
      requires Valid() && phase != Stopped
      modifies this
      ensures Valid() && OnlyTimePassed()
    {
      if debounceTimer.deadline.Some? && debounceTimer.deadline.value <= now {
        ghost var s := View();
        debounceTimer := Timer(None, true);
        Note(s, DebounceExpires);
      }
    }

    method FireTicker()
      requires Valid() && phase != Stopped
      modifies this
      ensures Valid() && OnlyTimePassed()
    {
      if ticker.next <= now {
        ghost var s := View();
        ticker := Ticker(ticker.period, ticker.next + ticker.period, true);
        Note(s, TickerExpires);
      }
    }

    method Elapse(lapse: Lapse)
      requires Valid() && phase != Stopped
      modifies this
      ensures Valid() && OnlyTimePassed()
    {
      PassTime(lapse.time);
      if lapse.settle {
        FireSettle();
      }
      if lapse.debounce {
        FireDebounce();
      }
      if lapse.ticker {
        FireTicker();
      }
    }

    method SetSettle(interval: nat)
      modifies this
      ensures View() == ResetSettle(old(View()), interval) && trace == old(trace) && log == old(log)
    {
      settle := Timer(Some(now + interval), settle.pending && !discards);
      settleSet, settleFor, stale := now, interval, settle.pending;
    }

    method Retime(nextPoll: nat, nextDebounce: nat)
      modifies this
      ensures View() == ApplyIntervals(old(View()), nextPoll, nextDebounce) && trace == old(trace) && log == old(log)
    {
      if nextPoll != poll {
        ticker := Retimed(ticker, nextPoll, now, discards);
        SetSettle(nextPoll);
      }
      poll, debounce := nextPoll, nextDebounce;
    }

    ghost predicate AtSelect()
      reads this
    {
      Valid() && phase == Selecting
    }

    /** Never subscribed, and every refresh so far was a poll. */
    ghost predicate PolledOnly()
      reads this
    {
      Unsubscribed(View()) && forall reason | reason in log :: reason == Polled
    }

    /** The first subscription; a fresh snapshot follows its acknowledgement at once. */
    method Subscribe(ok: bool, refreshing: Lapse)
      requires Valid() && View() == start && log == []
      modifies this
      ensures AtSelect() && (!ok ==> PolledOnly())
    {
      if ok {
        OpenStream();
        EndFirstRefresh(refreshing);
      } else {
        ghost var s := View();
        phase := Selecting;
        Note(s, SubscribeDone(false));
      }
    }

    method OpenStream()
      requires Valid() && phase == Subscribing
      modifies this
      ensures Valid() && phase == Refreshing(Subscribed)
    {
      ghost var s := View();
      connected, warmingUp, phase := true, true, Refreshing(Subscribed);
      log := log + [Subscribed];
      Note(s, SubscribeDone(true));
    }

    method EndFirstRefresh(refreshing: Lapse)
      requires Valid() && phase == Refreshing(Subscribed)
      modifies this
      ensures AtSelect()
    {
      Elapse(refreshing);
      ghost var s := View();
      SetSettle(poll);
      phase := Selecting;
      Note(s, RefreshDone(poll, debounce));
    }

    /** A replayed event pushes the end of warm-up out; a live one asks for a refresh. */
    method OnEvent()
      requires AtSelect() && connected
      modifies this
      ensures AtSelect()
    {
      ghost var s := View();
      if warmingUp {
        lastEvent := now;
        SetSettle(poll);
        Note(s, ReceiveEvent);
      } else {
        AskForRefresh();
        Note(s, ReceiveEvent);
      }
    }

    method AskForRefresh()
      requires phase == Selecting && connected && !warmingUp
      modifies this
      ensures View() == Apply(old(View()), ReceiveEvent) && trace == old(trace) && log == old(log)
    {
      lastEvent, dirty := now, true;
      debounceTimer := Timer(Some(now + debounce), debounceTimer.pending && !discards);
    }

    method OnCancel()
      requires Valid() && phase != Stopped
      modifies this
      ensures Valid() && phase == Stopped && log == old(log)
    {
      ghost var s := View();
      phase := Stopped;
      Note(s, Cancel);
    }

    /** A closed stream is replaced; until then the loop does nothing else. */
    method OnClosed(turn: Turn) returns (selecting: bool)
      requires AtSelect() && connected && turn.poll > 0
      modifies this
      ensures if selecting then AtSelect() else Valid() && (phase == Reconnecting || phase == Stopped)
    {
      LoseStream();
      var outcome, slept := Reconnect(turn.attempts);
      Elapse(turn.reconnecting);
      if outcome == None {
        return false;
      }
      if turn.cancelledMeanwhile {
        OnCancel();
        return false;
      }
      if outcome.value {
        OnReconnected();
        EndReconnection(turn);
      } else {
        GiveUp();
      }
      return true;
    }

    method LoseStream()
      requires AtSelect() && connected
      modifies this
      ensures Valid() && phase == Reconnecting
    {
      ghost var s := View();
      connected, phase := false, Reconnecting;
      Note(s, StreamCloses);
    }

    method GiveUp()
      requires Valid() && phase == Reconnecting
      modifies this
      ensures AtSelect()
    {
      ghost var s := View();
      phase := Selecting;
      Note(s, ReconnectGivesUp);
    }

    method OnReconnected()
      requires Valid() && phase == Reconnecting
      modifies this
      ensures Valid() && phase == Refreshing(Reconnected)
    {
      ghost var s := View();
      RestartWarmUp();
      log := log + [Reconnected];
      Note(s, ReconnectDone);
    }

    method RestartWarmUp()
      requires phase == Reconnecting
      modifies this
      ensures View() == Apply(old(View()), ReconnectDone) && trace == old(trace) && log == old(log)
    {
      connected, warmingUp, dirty := true, true, false;
      debounceTimer := Timer(None, debounceTimer.pending && !discards);
      phase := Refreshing(Reconnected);
    }

    method EndReconnection(turn: Turn)
      requires Valid() && phase == Refreshing(Reconnected) && turn.poll > 0
      modifies this
      ensures AtSelect()
    {
      Elapse(turn.refreshing);
      ghost var s := View();
      Retime(turn.poll, turn.debounce);
      SetSettle(poll);
      phase := Selecting;
      Note(s, RefreshDone(turn.poll, turn.debounce));
    }

    method OnSettle()
      requires AtSelect() && settle.pending
      modifies this
      ensures AtSelect() && (old(PolledOnly()) ==> PolledOnly())
    {
      ghost var s := View();
      settle := settle.(pending := false);
      stale := false;
      if warmingUp {
        warmingUp := false;
      }
      Note(s, ReceiveSettle);
    }

    method OnDebounce(turn: Turn)
      requires AtSelect() && debounceTimer.pending && turn.poll > 0
      modifies this
      ensures AtSelect() && (old(PolledOnly()) ==> PolledOnly())
    {
      if dirty {
        AnswerEvents();
        EndRefresh(turn);
      } else {
        ghost var s := View();
        debounceTimer := debounceTimer.(pending := false);
        Note(s, ReceiveDebounce);
      }
    }

    method AnswerEvents()
      requires AtSelect() && debounceTimer.pending && dirty
      modifies this
      ensures Valid() && phase == Refreshing(EventArrived)
    {
      ghost var s := View();
      debounceTimer := debounceTimer.(pending := false);
      dirty, phase := false, Refreshing(EventArrived);
      log := log + [EventArrived];
      Note(s, ReceiveDebounce);
    }

    method OnTick(turn: Turn)
      requires AtSelect() && ticker.pending && turn.poll > 0
      modifies this
      ensures AtSelect() && (old(PolledOnly()) ==> PolledOnly())
    {
      TakeTick();
      EndRefresh(turn);
    }

    method TakeTick()
      requires AtSelect() && ticker.pending
      modifies this
      ensures Valid() && phase == Refreshing(Polled) && (old(PolledOnly()) ==> PolledOnly())
    {
      ghost var s := View();
      ticker, phase := ticker.(pending := false), Refreshing(Polled);
      log := log + [Polled];
      Note(s, ReceiveTick);
    }

    /** The refresh itself, after which changed intervals are applied. */
    method EndRefresh(turn: Turn)
      requires Valid() && (phase == Refreshing(EventArrived) || phase == Refreshing(Polled)) && turn.poll > 0
      modifies this
      ensures AtSelect() && (old(PolledOnly()) ==> PolledOnly())
    {
      Elapse(turn.refreshing);
      ghost var s := View();
      Retime(turn.poll, turn.debounce);
      phase := Selecting;
      Note(s, RefreshDone(turn.poll, turn.debounce));
    }

    /** The loop: each turn takes one of the cases that are ready, whichever it may be. */
    method Select(turns: seq<Turn>)
      requires AtSelect() && forall turn | turn in turns :: turn.poll > 0
      modifies this
      ensures Valid() && (phase == Selecting || phase == Reconnecting || phase == Stopped)
      ensures old(PolledOnly()) ==> forall reason | reason in log :: reason == Polled
    {
      for i := 0 to |turns|
        invariant AtSelect() && (old(PolledOnly()) ==> PolledOnly())
      {
        var turn := turns[i];
        Elapse(turn.waiting);
        if
        case turn.cancelled =>
          OnCancel();
          return;
        case connected && turn.offer == Event =>
          OnEvent();
        case connected && turn.offer == Closed =>
          var selecting := OnClosed(turn);
          if !selecting {
            return;
          }
        case settle.pending =>
          OnSettle();
        case debounceTimer.pending =>
          OnDebounce(turn);
        case ticker.pending =>
          OnTick(turn);
        case !turn.cancelled && !(connected && turn.offer != Silent)
             && !settle.pending && !debounceTimer.pending && !ticker.pending =>
          // nothing is ready: the select goes on waiting
      }
    }

    /** From the first subscription on, whatever the surroundings do and whichever ready case
        is taken each time. */
    method Run(subscribed: bool, first: Lapse, turns: seq<Turn>)
      requires Valid() && trace == [] && View() == start
      requires forall turn | turn in turns :: turn.poll > 0
      modifies this
      ensures Valid() && (phase == Selecting || phase == Reconnecting || phase == Stopped)
      ensures phase == Selecting ==>
                && (dirty ==> Alive(debounceTimer))
                && (warmingUp ==> !dirty && Alive(settle))
                && ticker.period == poll
      ensures Trustworthy(start, trace) && log == Refreshes(start, trace)
      ensures !subscribed ==> forall reason | reason in log :: reason == Polled
    {
      Subscribe(subscribed, first);
      Select(turns);
      EveryTraceIsTrustworthy(start, trace);
    }
  }
}
