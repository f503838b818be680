/** The lifecycle of the socket client as a protocol of small steps: ordinary calls,
    subscriptions with their stream goroutine, the context watchers, and any number of
    concurrent `Close` calls.  Code under the client's mutex is one step. */
module Client {
  import opened Common

  const MAX_ORDINARY_CONNECTIONS: nat := 8

  type Id = nat

  datatype Kind = Call | Subscription

  /** Where the goroutine that called `call` or `Subscribe` is. */
  datatype CallerStage =
    | Entered          // begin has counted the operation
    | AwaitingSlot     // an ordinary call in its select
    | Dialing
    | Writing
    | Reading          // the reply, or the acknowledgement
    | ClosingConn      // deferred cleanups, in the order in which they run
    | ReturningSlot
    | Finishing        // cancel, then Done unless the stream has taken it over
    | Finished

  /** Where the stream goroutine of a subscription is. */
  datatype StreamStage =
    | NotStarted
    | Receiving
    | Sending          // in its select between the event channel and the context
    | StreamClosingConn
    | ClosingChannel
    | StreamFinishing
    | StreamFinished

  datatype Conn = NoConn | Open | Closed

  datatype Op = Op(
    kind: Kind,
    caller: CallerStage,
    stream: StreamStage,
    transferred: bool,     // the stream owes the Done
    holdsSlot: bool,
    cancelled: bool,       // the operation's own context
    conn: Conn,
    buffered: nat,         // pieces of input that can still be read
    events: nat,           // events sent on the channel
    channelClosed: bool,
    dones: nat)            // how often Done ran for this operation

  /** The `Close` call that set `closed` waits for the group; the others wait for it. */
  datatype CloserStage = Draining | Signalling | Following | Returned(first: bool)

  datatype State = State(
    closed: bool,
    group: int,            // the wait group's counter
    tokens: int,           // tokens in the slots channel
    closeDone: nat,        // how often the closeDone channel was closed
    ops: map<Id, Op>,
    closers: map<Id, CloserStage>)

  datatype Choice = Progress | Success | Failure

  datatype Action =
    | Begin(id: Id, kind: Kind)
    | Caller(id: Id, choice: Choice)
    | Stream(id: Id, choice: Choice)
    | Propagate(id: Id)    // the client's context cancels the operation's
    | Watch(id: Id)        // the operation's context closes the connection
    | UserCancel(id: Id)
    | PeerClose(id: Id)
    | Deliver(id: Id)
    | EnterClose(id: Id)
    | Closer(id: Id)
    | Idle

  const INITIAL := State(false, 0, 0, 0, map[], map[])

  function NewOp(kind: Kind): Op {
    Op(kind, Entered, NotStarted, false, false, false, NoConn, 0, 0, false, 0)
  }

  // ----- one step of one operation

  predicate CallerEnabled(o: Op, tokens: int, choice: Choice) {
    match o.caller
    case Entered => choice == Success
    case AwaitingSlot =>
      (choice == Success && tokens < MAX_ORDINARY_CONNECTIONS) || (choice == Failure && o.cancelled)
    case Dialing => choice != Progress
    case Writing => choice == Failure || (choice == Success && o.conn == Open)
    case Reading => o.buffered > 0 || (choice == Failure && o.conn != Open)
    case ClosingConn => choice == Success
    case ReturningSlot => choice == Success
    case Finishing => choice == Success
    case Finished => false
  }

  function CallerStep(o: Op, choice: Choice): Op {
    match o.caller
    case Entered => o.(caller := if o.kind == Call then AwaitingSlot else Dialing)
    case AwaitingSlot =>
      if choice == Success then o.(caller := Dialing, holdsSlot := true) else o.(caller := Finishing)
    case Dialing =>
      if choice == Success then o.(caller := Writing, conn := Open)
      else o.(caller := if o.kind == Call then ReturningSlot else Finishing)
    case Writing => o.(caller := if choice == Success then Reading else ClosingConn)
    case Reading =>
      var rest := if o.buffered > 0 then o.buffered - 1 else 0;
      if choice == Progress then o.(buffered := rest)
      else if choice == Success && o.kind == Subscription then
        o.(buffered := rest, caller := Finishing, transferred := true, stream := Receiving)
      else o.(buffered := rest, caller := ClosingConn)
    case ClosingConn =>
      o.(conn := Closed, caller := if o.kind == Call then ReturningSlot else Finishing)
    case ReturningSlot => o.(holdsSlot := false, caller := Finishing)
    case Finishing =>
      if o.transferred then o.(caller := Finished)
      else o.(caller := Finished, cancelled := true, dones := o.dones + 1)
    case Finished => o
  }

  predicate StreamEnabled(o: Op, choice: Choice) {
    match o.stream
    case NotStarted => false
    case Receiving => o.buffered > 0 || (choice == Failure && o.conn != Open)
    case Sending => choice == Success || (choice == Failure && o.cancelled)
    case StreamClosingConn => choice == Success
    case ClosingChannel => choice == Success
    case StreamFinishing => choice == Success
    case StreamFinished => false
  }

  function StreamStep(o: Op, choice: Choice): Op {
    match o.stream
    case NotStarted => o
    case Receiving =>
      var rest := if o.buffered > 0 then o.buffered - 1 else 0;
      if choice == Progress then o.(buffered := rest)
      else if choice == Success then o.(buffered := rest, stream := Sending)
      else o.(buffered := rest, stream := StreamClosingConn)
    case Sending =>
      if choice == Success then o.(events := o.events + 1, stream := Receiving) else o.(stream := StreamClosingConn)
    case StreamClosingConn => o.(conn := Closed, cancelled := true, stream := ClosingChannel)
    case ClosingChannel => o.(channelClosed := true, stream := StreamFinishing)
    case StreamFinishing => o.(dones := o.dones + 1, stream := StreamFinished)
    case StreamFinished => o
  }

  predicate Enabled(s: State, a: Action) {
    match a
    case Begin(id, _) => !s.closed && id !in s.ops
    case Caller(id, choice) => id in s.ops && CallerEnabled(s.ops[id], s.tokens, choice)
    case Stream(id, choice) => id in s.ops && StreamEnabled(s.ops[id], choice)
    case Propagate(id) => id in s.ops && s.closed && s.ops[id].caller != Entered
    case Watch(id) => id in s.ops && s.ops[id].cancelled && s.ops[id].conn == Open
    case UserCancel(id) => id in s.ops
    case PeerClose(id) => id in s.ops && s.ops[id].conn == Open
    case Deliver(id) => id in s.ops && s.ops[id].conn == Open
    case EnterClose(id) => id !in s.closers
    case Closer(id) =>
      && id in s.closers
      && (match s.closers[id]
          case Draining => s.group == 0
          case Signalling => true
          case Following => s.closeDone > 0
          case Returned(_) => false)
    case Idle => true
  }

  function WithOp(s: State, id: Id, o: Op): State
    requires id in s.ops
  {
    var was := s.ops[id];
    s.(ops := s.ops[id := o],
       group := s.group - (o.dones - was.dones),
       tokens := s.tokens + (if o.holdsSlot then 1 else 0) - (if was.holdsSlot then 1 else 0))
  }

  function Apply(s: State, a: Action): State
    requires Enabled(s, a)
  {
    match a
    case Begin(id, kind) => s.(ops := s.ops[id := NewOp(kind)], group := s.group + 1)
    case Caller(id, choice) => WithOp(s, id, CallerStep(s.ops[id], choice))
    case Stream(id, choice) => WithOp(s, id, StreamStep(s.ops[id], choice))
    case Propagate(id) => WithOp(s, id, s.ops[id].(cancelled := true))
    case Watch(id) => WithOp(s, id, s.ops[id].(conn := Closed))
    case UserCancel(id) => WithOp(s, id, s.ops[id].(cancelled := true))
    case PeerClose(id) => WithOp(s, id, s.ops[id].(conn := Closed))
    case Deliver(id) => WithOp(s, id, s.ops[id].(buffered := s.ops[id].buffered + 1))
    case EnterClose(id) =>
      if s.closed then s.(closers := s.closers[id := Following])
      else s.(closed := true, closers := s.closers[id := Draining])
    case Closer(id) =>
      (match s.closers[id]
       case Draining => s.(closers := s.closers[id := Signalling])
       case Signalling => s.(closeDone := s.closeDone + 1, closers := s.closers[id := Returned(true)])
       case Following => s.(closers := s.closers[id := Returned(false)])
       case Returned(_) => s)
    case Idle => s
  }

  // ----- the invariant

  /** An operation between begin and its one Done. */
  predicate Live(o: Op) { o.dones == 0 }

  /** An operation whose caller, or whose stream once that has taken over, is unfinished. */
  predicate Owes(o: Op) {
    if o.transferred then o.stream != StreamFinished else o.caller != Finished
  }

  predicate InGuardedSection(o: Op) {
    && o.kind == Call
    && (o.caller.Dialing? || o.caller.Writing? || o.caller.Reading? || o.caller.ClosingConn? || o.caller.ReturningSlot?)
  }

  predicate OpInv(o: Op) {
    && (o.holdsSlot <==> InGuardedSection(o))
    && (o.transferred <==> o.stream != NotStarted)
    && (o.transferred ==> o.kind == Subscription && (o.caller.Finishing? || o.caller.Finished?))
    && ((o.caller.AwaitingSlot? || o.caller.ReturningSlot?) ==> o.kind == Call)
    && (o.channelClosed <==> (o.stream.StreamFinishing? || o.stream.StreamFinished?))
    && (o.stream.ClosingChannel? || o.channelClosed || o.dones > 0 ==> o.cancelled)
    && o.dones == (if (if o.transferred then o.stream == StreamFinished else o.caller == Finished) then 1 else 0)
    && (o.conn == Open ==>
          if o.transferred then (o.stream.Receiving? || o.stream.Sending? || o.stream.StreamClosingConn?)
          else (o.caller.Writing? || o.caller.Reading? || o.caller.ClosingConn?))
  }

  /** The `Close` call that found the client open. */
  predicate First(c: CloserStage) { c.Draining? || c.Signalling? || c == Returned(true) }

  ghost predicate CloserInv(s: State) {
    && (s.closed <==> exists c :: c in s.closers && First(s.closers[c]))
    && (forall c, d :: c in s.closers && d in s.closers && First(s.closers[c]) && First(s.closers[d]) ==> c == d)
    && (s.closeDone == 0 <==> forall c :: c in s.closers ==> s.closers[c] != Returned(true))
    && s.closeDone <= 1
    && (s.closeDone == 0 ==> forall c :: c in s.closers ==> s.closers[c] != Returned(false))
    && (s.closeDone > 0 ==> s.group == 0)
    && (forall c :: c in s.closers && s.closers[c] == Signalling ==> s.group == 0)
    && (s.closers != map[] ==> s.closed)
  }

  ghost predicate Counted(s: State) {
    && (forall id :: id in s.ops ==> OpInv(s.ops[id]))
    && s.group == Count(s.ops, Live)
    && s.tokens == Count(s.ops, InGuardedSection) <= MAX_ORDINARY_CONNECTIONS
  }

  ghost predicate Inv(s: State) { Counted(s) && CloserInv(s) }

  lemma CallerStepKeepsOpInv(o: Op, tokens: int, choice: Choice)
    requires OpInv(o) && CallerEnabled(o, tokens, choice)
    ensures OpInv(CallerStep(o, choice))
    ensures CallerStep(o, choice).holdsSlot && !o.holdsSlot ==> tokens < MAX_ORDINARY_CONNECTIONS
    ensures Live(CallerStep(o, choice)) ==> Live(o)
    ensures CallerStep(o, choice).dones >= o.dones
  {
  }

  lemma StreamStepKeepsOpInv(o: Op, choice: Choice)
    requires OpInv(o) && StreamEnabled(o, choice)
    ensures OpInv(StreamStep(o, choice))
    ensures StreamStep(o, choice).holdsSlot == o.holdsSlot
    ensures StreamStep(o, choice).dones >= o.dones
  {
  }

  /** Replacing one operation keeps the counters equal to what they count. */
  lemma WithOpKeepsCounts(s: State, id: Id, o: Op)
    requires Counted(s) && id in s.ops && OpInv(o) && o.dones >= s.ops[id].dones
    requires o.holdsSlot && !s.ops[id].holdsSlot ==> s.tokens < MAX_ORDINARY_CONNECTIONS
    ensures Counted(WithOp(s, id, o)) && WithOp(s, id, o).group <= s.group
  {
    assert OpInv(s.ops[id]);
    CountPut(s.ops, Live, id, o);
    CountPut(s.ops, InGuardedSection, id, o);
  }

  lemma ClosersUntouched(s: State, t: State)
    requires CloserInv(s) && t.closers == s.closers && t.closed == s.closed && t.closeDone == s.closeDone
    requires !s.closed || 0 <= t.group <= s.group
    ensures CloserInv(t)
  {
    assert s.closeDone > 0 ==> s.closed;
  }

  lemma WithOpKeepsInv(s: State, id: Id, o: Op)
    requires Inv(s) && id in s.ops && OpInv(o) && o.dones >= s.ops[id].dones
    requires o.holdsSlot && !s.ops[id].holdsSlot ==> s.tokens < MAX_ORDINARY_CONNECTIONS
    ensures Inv(WithOp(s, id, o))
  {
    WithOpKeepsCounts(s, id, o);
    ClosersUntouched(s, WithOp(s, id, o));
  }

  lemma BeginKeepsInv(s: State, id: Id, kind: Kind)
    requires Inv(s) && Enabled(s, Begin(id, kind))
    ensures Inv(Apply(s, Begin(id, kind)))
  {
    BeginKeepsCounts(s, id, kind);
    ClosersUntouched(s, Apply(s, Begin(id, kind)));
  }

  lemma BeginKeepsCounts(s: State, id: Id, kind: Kind)
    requires Counted(s) && Enabled(s, Begin(id, kind))
    ensures Counted(Apply(s, Begin(id, kind)))
  {
    CountPut(s.ops, Live, id, NewOp(kind));
    CountPut(s.ops, InGuardedSection, id, NewOp(kind));
  }

  lemma CloseKeepsCounts(s: State, a: Action)
    requires Counted(s) && (a.EnterClose? || a.Closer?) && Enabled(s, a)
    ensures Counted(Apply(s, a))
  {
  }

  lemma EnterCloseKeepsClosers(s: State, id: Id)
    requires CloserInv(s) && Enabled(s, EnterClose(id))
    ensures CloserInv(Apply(s, EnterClose(id)))
  {
    var t := Apply(s, EnterClose(id));
    assert forall c :: c in t.closers <==> c in s.closers || c == id;
    if s.closed {
      var c :| c in s.closers && First(s.closers[c]);
      assert c in t.closers && First(t.closers[c]);
    } else {
      assert id in t.closers && First(t.closers[id]);
    }
  }

  lemma CloserKeepsClosers(s: State, id: Id)
    requires CloserInv(s) && Enabled(s, Closer(id))
    ensures CloserInv(Apply(s, Closer(id)))
  {
    var t := Apply(s, Closer(id));
    assert t.closers.Keys == s.closers.Keys;
    var c :| c in s.closers && First(s.closers[c]);
    assert c in t.closers && First(t.closers[c]);
    assert id in t.closers && (First(t.closers[id]) <==> First(s.closers[id]));
  }

  /** The context, the watchers, the user and the peer. */
  lemma SurroundingsKeepInv(s: State, a: Action)
    requires Inv(s) && Enabled(s, a)
    requires a.Propagate? || a.Watch? || a.UserCancel? || a.PeerClose? || a.Deliver?
    ensures Inv(Apply(s, a))
  {
    match a
    case Propagate(id) => WithOpKeepsInv(s, id, s.ops[id].(cancelled := true));
    case Watch(id) => WithOpKeepsInv(s, id, s.ops[id].(conn := Closed));
    case UserCancel(id) => WithOpKeepsInv(s, id, s.ops[id].(cancelled := true));
    case PeerClose(id) => WithOpKeepsInv(s, id, s.ops[id].(conn := Closed));
    case Deliver(id) => WithOpKeepsInv(s, id, s.ops[id].(buffered := s.ops[id].buffered + 1));
  }

  lemma NextKeepsInv(s: State, a: Action)
    requires Inv(s) && Enabled(s, a)
    ensures Inv(Apply(s, a))
  {
    match a
    case Begin(id, kind) => BeginKeepsInv(s, id, kind);
    case Caller(id, choice) =>
      CallerStepKeepsOpInv(s.ops[id], s.tokens, choice);
      WithOpKeepsInv(s, id, CallerStep(s.ops[id], choice));
    case Stream(id, choice) =>
      StreamStepKeepsOpInv(s.ops[id], choice);
      WithOpKeepsInv(s, id, StreamStep(s.ops[id], choice));
    case EnterClose(id) => CloseKeepsCounts(s, a); EnterCloseKeepsClosers(s, id);
    case Closer(id) => CloseKeepsCounts(s, a); CloserKeepsClosers(s, id);
    case Idle =>
    case _ => SurroundingsKeepInv(s, a);
  }

  // ----- safety over whole runs

  /** A finite run: the state after performing the actions in order, if all were enabled. */
  function After(s: State, run: seq<Action>): Option<State>
    decreases |run|
  {
    if run == [] then Some(s)
    else if Enabled(s, run[0]) then After(Apply(s, run[0]), run[1..]) else None
  }

  lemma InitialInv()
    ensures Inv(INITIAL)
  {
    CountZero(INITIAL.ops, Live);
    CountZero(INITIAL.ops, InGuardedSection);
  }

  lemma {:induction false} RunKeepsInv(s: State, run: seq<Action>)
    requires Inv(s)
    ensures After(s, run).Some? ==> Inv(After(s, run).value)
    decreases |run|
  {
    if run != [] && Enabled(s, run[0]) {
      NextKeepsInv(s, run[0]);
      RunKeepsInv(Apply(s, run[0]), run[1..]);
    }
  }

  lemma SameCount<K, V>(m: map<K, V>, p: V -> bool, q: V -> bool)
    requires forall k :: k in m ==> p(m[k]) == q(m[k])
    ensures Count(m, p) == Count(m, q)
  {
    assert (set k | k in m && p(m[k])) == (set k | k in m && q(m[k]));
  }

  /** In every reachable state the group counts exactly the calls and subscriptions whose
      caller is unfinished and the streams that took over and are unfinished; each of the
      others has run its one Done.  The tokens are exactly the calls in the guarded section,
      of which there are at most eight, and closeDone has been closed at most once. */
  lemma Accounting(run: seq<Action>)
    requires After(INITIAL, run).Some?
    ensures var s := After(INITIAL, run).value;
            && s.group == Count(s.ops, Live) == Count(s.ops, Owes)
            && (forall id :: id in s.ops ==> s.ops[id].dones == if Owes(s.ops[id]) then 0 else 1)
            && s.tokens == Count(s.ops, InGuardedSection) <= 8
            && s.closeDone <= 1
  {
    InitialInv();
    RunKeepsInv(INITIAL, run);
    var s := After(INITIAL, run).value;
    assert forall id :: id in s.ops ==> OpInv(s.ops[id]);
    SameCount(s.ops, Live, Owes);
  }

  /** What holds once any `Close` call has returned. */
  predicate Quiet(s: State) {
    && s.closed && s.group == 0 && s.tokens == 0
    && forall id :: id in s.ops ==>
         && s.ops[id].dones == 1 && s.ops[id].cancelled && s.ops[id].conn != Open
         && (if s.ops[id].transferred then s.ops[id].stream == StreamFinished && s.ops[id].channelClosed
             else s.ops[id].caller == Finished)
  }

  lemma ReturnedMeansQuiet(s: State, c: Id)
    requires Inv(s) && c in s.closers && s.closers[c].Returned?
    ensures Quiet(s)
  {
    assert s.closeDone > 0;
    CountZero(s.ops, Live);
    assert forall id :: id in s.ops ==> OpInv(s.ops[id]);
    CountZero(s.ops, InGuardedSection);
  }

  lemma NextKeepsQuiet(s: State, a: Action)
    requires Inv(s) && Quiet(s) && Enabled(s, a)
    ensures Quiet(Apply(s, a)) && Apply(s, a).ops.Keys == s.ops.Keys
  {
    if a.Caller? || a.Stream? {
      QuietOpStaysQuiet(s.ops[a.id], s.tokens, a);
    }
  }

  lemma QuietOpStaysQuiet(o: Op, tokens: int, a: Action)
    requires OpInv(o) && o.dones == 1
    requires if a.Caller? then CallerEnabled(o, tokens, a.choice) else a.Stream? && StreamEnabled(o, a.choice)
    ensures a.Caller? && o.transferred && o.stream == StreamFinished && o.caller == Finishing
    ensures CallerStep(o, a.choice) == o.(caller := Finished)
  {
  }

  /** Once quiet, no step begins an operation, runs another Done, or takes a slot. */
  lemma {:induction false} QuietForever(s: State, run: seq<Action>)
    requires Inv(s) && Quiet(s) && After(s, run).Some?
    ensures Quiet(After(s, run).value) && After(s, run).value.ops.Keys == s.ops.Keys
    decreases |run|
  {
    if run != [] {
      var t := Apply(s, run[0]);
      NextKeepsInv(s, run[0]);
      NextKeepsQuiet(s, run[0]);
      QuietForever(t, run[1..]);
    }
  }

  /** When a `Close` call has returned, every operation ever begun has run its one Done,
      every connection and every event channel handed out is closed, every operation's context
      is released, and nothing ever starts again. */
  lemma CloseReturnsOnlyWhenQuiet(run: seq<Action>, later: seq<Action>, c: Id)
    requires After(INITIAL, run).Some?
    requires c in After(INITIAL, run).value.closers && After(INITIAL, run).value.closers[c].Returned?
    requires After(After(INITIAL, run).value, later).Some?
    ensures var s := After(INITIAL, run).value;
            var t := After(s, later).value;
            Quiet(s) && Quiet(t) && t.ops.Keys == s.ops.Keys
  {
    InitialInv();
    RunKeepsInv(INITIAL, run);
    ReturnedMeansQuiet(After(INITIAL, run).value, c);
    QuietForever(After(INITIAL, run).value, later);
  }

  // ----- what undisturbed operations do

  /** How far a caller has come: a call through the slot, the connection, the request, the
      reply and its cleanups, a subscription through the acknowledgement to the hand-over. */
  function Position(o: Op): nat {
    match o.caller
    case Entered => 0
    case AwaitingSlot => 1
    case Dialing => if o.kind == Call then 2 else 1
    case Writing => if o.kind == Call then 3 else 2
    case Reading => if o.kind == Call then 4 else 3
    case ClosingConn => 5
    case ReturningSlot => 6
    case Finishing => if o.kind == Call then 7 else 4
    case Finished => if o.kind == Call then 8 else 5
  }

  /** A subscription that is on its way out without having handed over. */
  predicate GivenUp(o: Op) {
    o.kind == Subscription && !o.transferred && (o.caller.ClosingConn? || o.caller.Finishing? || o.caller.Finished?)
  }

  /** No stage is left out and none repeated: every success of a caller takes it exactly one
      stage further, until a subscription has given up, and pieces of input take it nowhere. */
  lemma NoStageIsSkipped(o: Op, tokens: int, choice: Choice)
    requires OpInv(o) && CallerEnabled(o, tokens, choice) && choice != Failure && !GivenUp(o)
    ensures !GivenUp(CallerStep(o, choice))
    ensures Position(CallerStep(o, choice)) == Position(o) + (if choice == Success then 1 else 0)
  {
  }

  lemma StepGivesUp(s: State, a: Action, id: Id)
    requires Counted(s) && Enabled(s, a) && id in Apply(s, a).ops && GivenUp(Apply(s, a).ops[id])
    requires id in s.ops ==> !GivenUp(s.ops[id])
    ensures a == Caller(id, Failure)
  {
    if id in s.ops && Touches(a, id) {
      assert OpInv(s.ops[id]);
      if a.Caller? && a.choice != Failure {
        NoStageIsSkipped(s.ops[id], s.tokens, a.choice);
      }
    } else if id in s.ops {
      OthersAreUntouched(s, a, id);
    }
  }

  lemma {:induction false} GivesUpByFailure(s: State, run: seq<Action>, id: Id)
    requires Inv(s) && After(s, run).Some? && id in After(s, run).value.ops
    requires (id in s.ops ==> !GivenUp(s.ops[id])) && GivenUp(After(s, run).value.ops[id])
    ensures Caller(id, Failure) in run
    decreases |run|
  {
    var t := Apply(s, run[0]);
    NextKeepsInv(s, run[0]);
    if id in t.ops && GivenUp(t.ops[id]) {
      StepGivesUp(s, run[0], id);
    } else {
      GivesUpByFailure(t, run[1..], id);
    }
  }

  /** In any run a subscription ends without having handed over to its stream only after a step
      of its caller has failed. */
  lemma SubscriptionEndsByFailure(run: seq<Action>, id: Id)
    requires After(INITIAL, run).Some? && id in After(INITIAL, run).value.ops
    requires var o := After(INITIAL, run).value.ops[id];
             o.kind == Subscription && o.caller == Finished && !o.transferred
    ensures Caller(id, Failure) in run
  {
    InitialInv();
    GivesUpByFailure(INITIAL, run, id);
  }

  /** A stream that has taken over, with its connection and its channel open. */
  predicate Streaming(o: Op) {
    o.kind == Subscription && o.transferred && o.stream == Receiving && o.conn == Open && !o.channelClosed && Live(o)
  }

  /** In every reachable state a subscription that reads its acknowledgement on an open
      connection hands over: the stream runs, connection and channel are open, and the Done is
      still owed. */
  lemma AcknowledgementHandsOver(run: seq<Action>, id: Id)
    requires After(INITIAL, run).Some? && Enabled(After(INITIAL, run).value, Caller(id, Success))
    requires var o := After(INITIAL, run).value.ops[id];
             o.kind == Subscription && o.caller == Reading && o.conn == Open
    ensures var s := After(INITIAL, run).value;
            var t := Apply(s, Caller(id, Success));
            Streaming(t.ops[id]) && t.group == s.group
  {
    InitialInv();
    RunKeepsInv(INITIAL, run);
    assert OpInv(After(INITIAL, run).value.ops[id]);
  }

  lemma AfterCons(s: State, a: Action, rest: seq<Action>)
    requires Enabled(s, a)
    ensures After(s, [a] + rest) == After(Apply(s, a), rest)
  {
    assert ([a] + rest)[1..] == rest;
  }

  /** The state in which one operation is as given. */
  function With(s: State, id: Id, o: Op, group: int, tokens: int): State {
    s.(ops := s.ops[id := o], group := group, tokens := tokens)
  }

  lemma CallerGoes(s: State, id: Id, o: Op, group: int, tokens: int, rest: seq<Action>)
    requires CallerEnabled(o, tokens, Success)
    ensures var p := CallerStep(o, Success);
            var taken := (if p.holdsSlot then 1 else 0) - (if o.holdsSlot then 1 else 0);
            After(With(s, id, o, group, tokens), [Caller(id, Success)] + rest)
            == After(With(s, id, p, group - (p.dones - o.dones), tokens + taken), rest)
  {
    var t, p := With(s, id, o, group, tokens), CallerStep(o, Success);
    assert t.ops[id := p] == s.ops[id := p];
    assert Enabled(t, Caller(id, Success)) && Apply(t, Caller(id, Success)) == WithOp(t, id, p);
    AfterCons(t, Caller(id, Success), rest);
  }

  lemma StreamGoes(s: State, id: Id, o: Op, group: int, tokens: int, rest: seq<Action>)
    requires StreamEnabled(o, Success)
    ensures var p := StreamStep(o, Success);
            p.holdsSlot == o.holdsSlot && p.dones == o.dones ==>
              After(With(s, id, o, group, tokens), [Stream(id, Success)] + rest)
              == After(With(s, id, p, group, tokens), rest)
  {
    var t, p := With(s, id, o, group, tokens), StreamStep(o, Success);
    AfterCons(t, Stream(id, Success), rest);
    assert t.ops[id := p] == s.ops[id := p];
  }

  lemma DeliverGoes(s: State, id: Id, o: Op, group: int, tokens: int, rest: seq<Action>)
    requires o.conn == Open
    ensures After(With(s, id, o, group, tokens), [Deliver(id)] + rest)
         == After(With(s, id, o.(buffered := o.buffered + 1), group, tokens), rest)
  {
    var t, p := With(s, id, o, group, tokens), o.(buffered := o.buffered + 1);
    AfterCons(t, Deliver(id), rest);
    assert t.ops[id := p] == s.ops[id := p];
  }

  /** The peer delivers an event, the stream receives it, and sends it on. */
  function Events(id: Id, n: nat): seq<Action> {
    if n == 0 then [] else [Deliver(id)] + ([Stream(id, Success)] + ([Stream(id, Success)] + Events(id, n - 1)))
  }

  /** From there the stream sends any number of events that the peer delivers, and goes on. */
  lemma {:induction false} StreamSendsEvents(s: State, id: Id, n: nat)
    requires id in s.ops && Streaming(s.ops[id])
    ensures After(s, Events(id, n)) == Some(s.(ops := s.ops[id := s.ops[id].(events := s.ops[id].events + n)]))
  {
    assert s.ops[id := s.ops[id]] == s.ops;
    StreamSends(s, id, s.ops[id], n);
  }

  lemma {:induction false} StreamSends(s: State, id: Id, o: Op, n: nat)
    requires Streaming(o)
    ensures After(With(s, id, o, s.group, s.tokens), Events(id, n))
         == Some(With(s, id, o.(events := o.events + n), s.group, s.tokens))
    decreases n
  {
    if n > 0 {
      StreamSendsOne(s, id, o, Events(id, n - 1));
      StreamSends(s, id, o.(events := o.events + 1), n - 1);
    }
  }

  lemma StreamSendsOne(s: State, id: Id, o: Op, rest: seq<Action>)
    requires Streaming(o)
    ensures After(With(s, id, o, s.group, s.tokens),
                  [Deliver(id)] + ([Stream(id, Success)] + ([Stream(id, Success)] + rest)))
         == After(With(s, id, o.(events := o.events + 1), s.group, s.tokens), rest)
  {
    var delivered, sending := o.(buffered := o.buffered + 1), o.(stream := Sending);
    assert StreamStep(delivered, Success) == sending;
    assert StreamStep(sending, Success) == o.(events := o.events + 1);
    DeliverGoes(s, id, o, s.group, s.tokens, [Stream(id, Success)] + ([Stream(id, Success)] + rest));
    StreamGoes(s, id, delivered, s.group, s.tokens, [Stream(id, Success)] + rest);
    StreamGoes(s, id, sending, s.group, s.tokens, rest);
  }

  /** The steps of a call that nothing fails: to the slot, ... */
  function Enters(id: Id, rest: seq<Action>): seq<Action> {
    [Begin(id, Call)] + ([Caller(id, Success)] + ([Caller(id, Success)] + rest))
  }

  /** ... to the request written and answered, ... */
  function Requests(id: Id, rest: seq<Action>): seq<Action> {
    [Caller(id, Success)] + ([Caller(id, Success)] + ([Deliver(id)] + rest))
  }

  /** ... to the reply read and the connection closed, ... */
  function Replies(id: Id, rest: seq<Action>): seq<Action> {
    [Caller(id, Success)] + ([Caller(id, Success)] + rest)
  }

  /** ... and to its end. */
  function Leaves(id: Id): seq<Action> {
    [Caller(id, Success)] + ([Caller(id, Success)] + [])
  }

  /** A call that is to dial, one that waits for its reply, one to give back its slot, and one
      that has finished. */
  const DIALING := Op(Call, Dialing, NotStarted, false, true, false, NoConn, 0, 0, false, 0)
  const ANSWERED := Op(Call, Reading, NotStarted, false, true, false, Open, 1, 0, false, 0)
  const ANSWERING := Op(Call, ReturningSlot, NotStarted, false, true, false, Closed, 0, 0, false, 0)
  const FINISHED := Op(Call, Finished, NotStarted, false, false, true, Closed, 0, 0, false, 1)

  /** A call for which there is a slot gets it, dials, writes and reads with the slot and then
      the connection held, and gives back both, and its Done. */
  lemma CallRuns(s: State, id: Id)
    requires !s.closed && id !in s.ops && s.tokens < MAX_ORDINARY_CONNECTIONS
    ensures After(s, Enters(id, [])) == Some(With(s, id, DIALING, s.group + 1, s.tokens + 1))
    ensures After(s, Enters(id, Requests(id, []))) == Some(With(s, id, ANSWERED, s.group + 1, s.tokens + 1))
    ensures After(s, Enters(id, Requests(id, Replies(id, Leaves(id)))))
         == Some(With(s, id, FINISHED, s.group, s.tokens))
  {
    CallEnters(s, id, []);
    CallEnters(s, id, Requests(id, []));
    CallRequests(s, id, []);
    CallEnters(s, id, Requests(id, Replies(id, Leaves(id))));
    CallRequests(s, id, Replies(id, Leaves(id)));
    CallReplies(s, id, Leaves(id));
    CallLeaves(s, id);
  }

  lemma BeginGoes(s: State, id: Id, kind: Kind, rest: seq<Action>)
    requires !s.closed && id !in s.ops
    ensures After(s, [Begin(id, kind)] + rest) == After(With(s, id, NewOp(kind), s.group + 1, s.tokens), rest)
  {
    AfterCons(s, Begin(id, kind), rest);
    assert Apply(s, Begin(id, kind)) == With(s, id, NewOp(kind), s.group + 1, s.tokens);
  }

  lemma CallEnters(s: State, id: Id, rest: seq<Action>)
    requires !s.closed && id !in s.ops && s.tokens < MAX_ORDINARY_CONNECTIONS
    ensures After(s, Enters(id, rest)) == After(With(s, id, DIALING, s.group + 1, s.tokens + 1), rest)
  {
    var entered, waiting := NewOp(Call), NewOp(Call).(caller := AwaitingSlot);
    var g, n := s.group + 1, s.tokens;
    assert CallerStep(entered, Success) == waiting && CallerStep(waiting, Success) == DIALING;
    BeginGoes(s, id, Call, [Caller(id, Success)] + ([Caller(id, Success)] + rest));
    CallerGoes(s, id, entered, g, n, [Caller(id, Success)] + rest);
    CallerGoes(s, id, waiting, g, n, rest);
  }

  lemma CallRequests(s: State, id: Id, rest: seq<Action>)
    ensures After(With(s, id, DIALING, s.group + 1, s.tokens + 1), Requests(id, rest))
         == After(With(s, id, ANSWERED, s.group + 1, s.tokens + 1), rest)
  {
    var o, g, n := DIALING.(conn := Open), s.group + 1, s.tokens + 1;
    var writing, reading := o.(caller := Writing), o.(caller := Reading);
    assert CallerStep(DIALING, Success) == writing && CallerStep(writing, Success) == reading;
    CallerGoes(s, id, DIALING, g, n, [Caller(id, Success)] + ([Deliver(id)] + rest));
    CallerGoes(s, id, writing, g, n, [Deliver(id)] + rest);
    DeliverGoes(s, id, reading, g, n, rest);
  }

  lemma CallReplies(s: State, id: Id, rest: seq<Action>)
    ensures After(With(s, id, ANSWERED, s.group + 1, s.tokens + 1), Replies(id, rest))
         == After(With(s, id, ANSWERING, s.group + 1, s.tokens + 1), rest)
  {
    var closing := ANSWERED.(buffered := 0, caller := ClosingConn);
    assert CallerStep(ANSWERED, Success) == closing && CallerStep(closing, Success) == ANSWERING;
    CallerGoes(s, id, ANSWERED, s.group + 1, s.tokens + 1, [Caller(id, Success)] + rest);
    CallerGoes(s, id, closing, s.group + 1, s.tokens + 1, rest);
  }

  lemma CallLeaves(s: State, id: Id)
    ensures After(With(s, id, ANSWERING, s.group + 1, s.tokens + 1), Leaves(id))
         == Some(With(s, id, FINISHED, s.group, s.tokens))
  {
    CallerGoes(s, id, ANSWERING, s.group + 1, s.tokens + 1, [Caller(id, Success)] + []);
    CallerGoes(s, id, ANSWERING.(caller := Finishing, holdsSlot := false), s.group + 1, s.tokens, []);
  }

  /** The steps of a subscription that nothing fails, to its acknowledgement delivered and read. */
  function Subscribes(id: Id): seq<Action> {
    [Begin(id, Subscription)] + ([Caller(id, Success)] + ([Caller(id, Success)] + Acknowledges(id)))
  }

  function Acknowledges(id: Id): seq<Action> {
    [Caller(id, Success)] + ([Deliver(id)] + ([Caller(id, Success)] + []))
  }

  const REQUESTING := Op(Subscription, Writing, NotStarted, false, false, false, Open, 0, 0, false, 0)
  const ACKNOWLEDGED := Op(Subscription, Reading, NotStarted, false, false, false, Open, 1, 0, false, 0)
  const HANDED_OVER := Op(Subscription, Finishing, Receiving, true, false, false, Open, 0, 0, false, 0)

  /** A subscription needs no slot, and its stream takes over. */
  lemma SubscriptionRuns(s: State, id: Id)
    requires !s.closed && id !in s.ops
    ensures After(s, Subscribes(id)) == Some(With(s, id, HANDED_OVER, s.group + 1, s.tokens))
  {
    var o := NewOp(Subscription);
    var dialing := o.(caller := Dialing);
    assert CallerStep(o, Success) == dialing && CallerStep(dialing, Success) == REQUESTING;
    BeginGoes(s, id, Subscription, [Caller(id, Success)] + ([Caller(id, Success)] + Acknowledges(id)));
    CallerGoes(s, id, o, s.group + 1, s.tokens, [Caller(id, Success)] + Acknowledges(id));
    CallerGoes(s, id, dialing, s.group + 1, s.tokens, Acknowledges(id));
    SubscriptionIsAcknowledged(s, id);
  }

  lemma SubscriptionIsAnswered(s: State, id: Id, rest: seq<Action>)
    ensures After(With(s, id, REQUESTING, s.group + 1, s.tokens),
                  [Caller(id, Success)] + ([Deliver(id)] + rest))
         == After(With(s, id, ACKNOWLEDGED, s.group + 1, s.tokens), rest)
  {
    var reading := REQUESTING.(caller := Reading);
    assert CallerStep(REQUESTING, Success) == reading && reading.(buffered := 1) == ACKNOWLEDGED;
    CallerGoes(s, id, REQUESTING, s.group + 1, s.tokens, [Deliver(id)] + rest);
    DeliverGoes(s, id, reading, s.group + 1, s.tokens, rest);
  }

  lemma SubscriptionIsAcknowledged(s: State, id: Id)
    ensures After(With(s, id, REQUESTING, s.group + 1, s.tokens),
                  Acknowledges(id))
         == Some(With(s, id, HANDED_OVER, s.group + 1, s.tokens))
  {
    SubscriptionIsAnswered(s, id, [Caller(id, Success)] + []);
    assert CallerStep(ACKNOWLEDGED, Success) == HANDED_OVER;
    CallerGoes(s, id, ACKNOWLEDGED, s.group + 1, s.tokens, []);
  }

  // ----- liveness: Close terminates

  /** The goroutines of the protocol. */
  datatype Actor =
    | CallerOf(id: Id) | StreamOf(id: Id) | Propagator(id: Id) | Watcher(id: Id) | CloserOf(id: Id)

  predicate By(a: Action, actor: Actor) {
    match actor
    case CallerOf(id) => a.Caller? && a.id == id
    case StreamOf(id) => a.Stream? && a.id == id
    case Propagator(id) => a == Propagate(id)
    case Watcher(id) => a == Watch(id)
    case CloserOf(id) => a == Closer(id)
  }

  /** Whether the goroutine can move whatever the peer, the consumer of the events and the
      other operations do. */
  predicate Ready(s: State, actor: Actor) {
    match actor
    case CallerOf(id) =>
      && id in s.ops
      && var o := s.ops[id];
         (match o.caller
          case AwaitingSlot => o.cancelled
          case Dialing => o.cancelled
          case Writing => o.conn != Open
          case Reading => o.buffered > 0 || o.conn != Open
          case Finished => false
          case _ => true)
    case StreamOf(id) =>
      && id in s.ops
      && var o := s.ops[id];
         (match o.stream
          case Receiving => o.buffered > 0 || o.conn != Open
          case Sending => o.cancelled
          case NotStarted => false
          case StreamFinished => false
          case _ => true)
    case Propagator(id) => id in s.ops && s.closed && s.ops[id].caller != Entered && !s.ops[id].cancelled
    case Watcher(id) => id in s.ops && s.ops[id].cancelled && s.ops[id].conn == Open
    case CloserOf(id) => Enabled(s, Closer(id))
  }

  /** A step that takes nobody else's part: no free slot, no peer that answers, no consumer. */
  predicate Alone(s: State, a: Action) {
    match a
    case Caller(id, Success) =>
      id in s.ops && !s.ops[id].caller.AwaitingSlot? && !s.ops[id].caller.Dialing? && !s.ops[id].caller.Writing?
    case Stream(id, Success) => id in s.ops && s.ops[id].stream != Sending
    case _ => true
  }

  /** A goroutine that can move has a step to take: the fairness below asks nothing impossible. */
  lemma ReadyCanStep(s: State, actor: Actor)
    requires Ready(s, actor)
    ensures exists a :: By(a, actor) && Enabled(s, a) && Alone(s, a)
  {
    match actor
    case CallerOf(id) => CanStepAlone(s, actor, Caller(id, Success), Caller(id, Failure));
    case StreamOf(id) => CanStepAlone(s, actor, Stream(id, Success), Stream(id, Failure));
    case Propagator(id) => CanStepAlone(s, actor, Propagate(id), Propagate(id));
    case Watcher(id) => CanStepAlone(s, actor, Watch(id), Watch(id));
    case CloserOf(id) => CanStepAlone(s, actor, Closer(id), Closer(id));
  }

  lemma CanStepAlone(s: State, actor: Actor, a: Action, b: Action)
    requires By(a, actor) && By(b, actor)
    requires (Enabled(s, a) && Alone(s, a)) || (Enabled(s, b) && Alone(s, b))
    ensures exists c :: By(c, actor) && Enabled(s, c) && Alone(s, c)
  {
  }

  ghost predicate ReadyFrom(run: nat -> State, actor: Actor, n: nat) {
    forall m: nat :: m >= n ==> Ready(run(m), actor)
  }

  ghost predicate ActsAfter(acts: nat -> Action, actor: Actor, n: nat) {
    exists m: nat :: m >= n && By(acts(m), actor)
  }

  /** An infinite run from the start in which no goroutine that could always move is starved. */
  ghost predicate FairRun(run: nat -> State, acts: nat -> Action) {
    && run(0) == INITIAL
    && (forall n: nat :: Enabled(run(n), acts(n)) && run(n + 1) == Apply(run(n), acts(n)))
    && (forall actor, n: nat :: ReadyFrom(run, actor, n) ==> ActsAfter(acts, actor, n))
  }

  /** How far the goroutine that owes the Done still has to go, ... */
  function StageRank(o: Op): nat {
    if o.transferred then
      match o.stream
      case Receiving => 7
      case Sending => 7
      case StreamClosingConn => 3
      case ClosingChannel => 2
      case StreamFinishing => 1
      case _ => 0
    else
      match o.caller
      case Entered => 12
      case AwaitingSlot => 11
      case Dialing => 10
      case Writing => 9
      case Reading => 8
      case ClosingConn => 6
      case ReturningSlot => 5
      case Finishing => 4
      case Finished => 0
  }

  /** ... what still connects it to the peer, ... */
  function Uncut(o: Op): nat {
    (if o.cancelled then 0 else 2) + (if o.conn == Open then 1 else 0)
  }

  /** ... and, once it is cut off, the input it can still read and deliver. */
  function Work(o: Op): nat {
    if Uncut(o) > 0 then 0 else 2 * o.buffered + (if o.stream == Sending then 1 else 0)
  }

  predicate Below(p: Op, o: Op) {
    || StageRank(p) < StageRank(o)
    || (StageRank(p) == StageRank(o) && Uncut(p) < Uncut(o))
    || (StageRank(p) == StageRank(o) && Uncut(p) == Uncut(o) && Work(p) < Work(o))
  }

  predicate SameMeasure(p: Op, o: Op) {
    StageRank(p) == StageRank(o) && Uncut(p) == Uncut(o) && Work(p) == Work(o)
  }

  /** Whose move brings the operation closer to its Done. */
  function ActorFor(id: Id, o: Op): Actor {
    if Uncut(o) >= 2 && StageRank(o) != 12 then Propagator(id)
    else if Uncut(o) == 1 then Watcher(id)
    else if o.transferred then StreamOf(id)
    else CallerOf(id)
  }

  lemma MeasureKeepsActor(id: Id, p: Op, o: Op)
    requires OpInv(p) && OpInv(o) && Live(o) && SameMeasure(p, o)
    ensures ActorFor(id, p) == ActorFor(id, o) && Live(p)
  {
  }

  lemma ActorIsReady(s: State, id: Id)
    requires id in s.ops && s.closed && OpInv(s.ops[id]) && Live(s.ops[id])
    ensures Ready(s, ActorFor(id, s.ops[id]))
  {
  }

  /** No Close call is ever stuck: in every reachable state in which one has not returned, some
      goroutine can move that needs neither the peer nor the consumer of the events. */
  lemma CloseNeverDeadlocks(run: seq<Action>, c: Id)
    requires After(INITIAL, run).Some?
    requires c in After(INITIAL, run).value.closers && !After(INITIAL, run).value.closers[c].Returned?
    ensures exists actor, a :: Ready(After(INITIAL, run).value, actor) && By(a, actor)
                               && Enabled(After(INITIAL, run).value, a) && Alone(After(INITIAL, run).value, a)
  {
    InitialInv();
    RunKeepsInv(INITIAL, run);
    var s := After(INITIAL, run).value;
    CountZero(s.ops, Live);
    if s.group != 0 {
      var id :| id in s.ops && Live(s.ops[id]);
      ActorIsReady(s, id);
      ReadyCanStep(s, ActorFor(id, s.ops[id]));
    } else {
      var first :| first in s.closers && First(s.closers[first]);
      var next := if s.closers[first].Returned? then c else first;
      assert Ready(s, CloserOf(next));
      ReadyCanStep(s, CloserOf(next));
    }
  }

  /** The step keeps or lowers the operation's measure, and lowers it if the responsible
      goroutine takes it. */
  ghost predicate Lowers(s: State, a: Action, id: Id)
    requires id in s.ops && Enabled(s, a)
  {
    && id in Apply(s, a).ops
    && var o, p := s.ops[id], Apply(s, a).ops[id];
       && (Below(p, o) || SameMeasure(p, o))
       && (By(a, ActorFor(id, o)) ==> Below(p, o))
  }

  /** After Close every step does so for every unfinished operation. */
  lemma StepLowersMeasure(s: State, a: Action, id: Id)
    requires Inv(s) && s.closed && id in s.ops && Live(s.ops[id]) && Enabled(s, a)
    ensures Lowers(s, a, id)
  {
    assert OpInv(s.ops[id]);
    if !Touches(a, id) {
      OthersAreUntouched(s, a, id);
    } else if a.Caller? {
      CallerStepLowersMeasure(id, s.ops[id], s.tokens, a.choice);
    } else if a.Stream? {
      StreamStepLowersMeasure(id, s.ops[id], a.choice);
    } else {
      SurroundingsLowerMeasure(s, a, id);
    }
  }

  /** Whether the action is about this operation. */
  predicate Touches(a: Action, id: Id) {
    !a.EnterClose? && !a.Closer? && !a.Idle? && a.id == id
  }

  lemma OthersAreUntouched(s: State, a: Action, id: Id)
    requires id in s.ops && Enabled(s, a) && !Touches(a, id)
    ensures id in Apply(s, a).ops && Apply(s, a).ops[id] == s.ops[id]
    ensures forall o :: !By(a, ActorFor(id, o))
  {
  }

  /** The context, the watchers, the user and the peer. */
  lemma SurroundingsLowerMeasure(s: State, a: Action, id: Id)
    requires s.closed && id in s.ops && OpInv(s.ops[id]) && Live(s.ops[id]) && Enabled(s, a)
    requires Touches(a, id) && !a.Caller? && !a.Stream?
    ensures Lowers(s, a, id)
  {
  }

  lemma CallerStepLowersMeasure(id: Id, o: Op, tokens: int, choice: Choice)
    requires OpInv(o) && Live(o) && CallerEnabled(o, tokens, choice)
    ensures var p := CallerStep(o, choice);
            && (Below(p, o) || SameMeasure(p, o))
            && (ActorFor(id, o) == CallerOf(id) ==> Below(p, o))
  {
  }

  lemma StreamStepLowersMeasure(id: Id, o: Op, choice: Choice)
    requires OpInv(o) && Live(o) && StreamEnabled(o, choice)
    ensures var p := StreamStep(o, choice);
            && (Below(p, o) || SameMeasure(p, o))
            && (ActorFor(id, o) == StreamOf(id) ==> Below(p, o))
  {
  }

  lemma {:induction false} RunInv(run: nat -> State, acts: nat -> Action, n: nat)
    requires FairRun(run, acts)
    ensures Inv(run(n))
  {
    if n == 0 {
      InitialInv();
    } else {
      RunInv(run, acts, n - 1);
      NextKeepsInv(run(n - 1), acts(n - 1));
    }
  }

  /** Closing, beginning and finishing are for ever. */
  lemma {:induction false} RunMonotone(run: nat -> State, acts: nat -> Action, n: nat, m: nat)
    requires FairRun(run, acts) && n <= m
    ensures run(n).closed ==> run(m).closed && run(m).ops.Keys == run(n).ops.Keys
    ensures forall id :: id in run(n).ops ==>
              id in run(m).ops && (Live(run(m).ops[id]) ==> Live(run(n).ops[id]))
    ensures run(n).closers.Keys <= run(m).closers.Keys && run(n).closeDone <= run(m).closeDone
    decreases m - n
  {
    if n < m {
      RunMonotone(run, acts, n, m - 1);
      RunInv(run, acts, m - 1);
      var s, a := run(m - 1), acts(m - 1);
      assert Enabled(s, a) && run(m) == Apply(s, a);
      OneStepMonotone(s, a);
    }
  }

  lemma OneStepMonotone(s: State, a: Action)
    requires Inv(s) && Enabled(s, a)
    ensures s.closed ==> Apply(s, a).closed && Apply(s, a).ops.Keys == s.ops.Keys
    ensures forall id :: id in s.ops ==>
              id in Apply(s, a).ops && (Live(Apply(s, a).ops[id]) ==> Live(s.ops[id]))
    ensures s.closers.Keys <= Apply(s, a).closers.Keys && s.closeDone <= Apply(s, a).closeDone
  {
    forall id | id in s.ops ensures id in Apply(s, a).ops && (Live(Apply(s, a).ops[id]) ==> Live(s.ops[id])) {
      if Touches(a, id) {
        DonesGrow(s, a, id);
      } else {
        OthersAreUntouched(s, a, id);
      }
    }
  }

  lemma DonesGrow(s: State, a: Action, id: Id)
    requires Inv(s) && Enabled(s, a) && Touches(a, id) && id in s.ops
    ensures id in Apply(s, a).ops && Apply(s, a).ops[id].dones >= s.ops[id].dones
  {
    assert OpInv(s.ops[id]);
    if a.Caller? {
      CallerStepKeepsOpInv(s.ops[id], s.tokens, a.choice);
    } else if a.Stream? {
      StreamStepKeepsOpInv(s.ops[id], a.choice);
    }
  }

  /** The last moment before the measure of an operation changes for the first time. */
  lemma {:induction false} LastSame(run: nat -> State, id: Id, n: nat, m: nat) returns (k: nat)
    requires n <= m && forall i: nat :: n <= i ==> id in run(i).ops
    requires !SameMeasure(run(m).ops[id], run(n).ops[id])
    ensures n <= k < m && SameMeasure(run(k).ops[id], run(n).ops[id])
    ensures !SameMeasure(run(k + 1).ops[id], run(n).ops[id])
    decreases m - n
  {
    if SameMeasure(run(m - 1).ops[id], run(n).ops[id]) {
      k := m - 1;
    } else {
      k := LastSame(run, id, n, m - 1);
    }
  }

  /** After Close the measure of an unfinished operation drops sooner or later. */
  lemma MeasureDrops(run: nat -> State, acts: nat -> Action, id: Id, n: nat) returns (m: nat)
    requires FairRun(run, acts) && run(n).closed && id in run(n).ops && Live(run(n).ops[id])
    ensures m > n && id in run(m).ops && Below(run(m).ops[id], run(n).ops[id])
  {
    var o, actor := run(n).ops[id], ActorFor(id, run(n).ops[id]);
    forall i: nat | n <= i ensures id in run(i).ops && run(i).closed && OpInv(run(i).ops[id]) {
      RunMonotone(run, acts, n, i);
      RunInv(run, acts, i);
    }
    if i: nat :| n <= i && !SameMeasure(run(i).ops[id], o) {
      var k := LastSame(run, id, n, i);
      RunInv(run, acts, k);
      MeasureKeepsActor(id, run(k).ops[id], o);
      StepLowersMeasure(run(k), acts(k), id);
      m := k + 1;
    } else {
      forall i: nat | i >= n ensures Ready(run(i), actor) {
        MeasureKeepsActor(id, run(i).ops[id], o);
        ActorIsReady(run(i), id);
      }
      assert ReadyFrom(run, actor, n);
      assert ActsAfter(acts, actor, n);
      var k: nat :| k >= n && By(acts(k), actor);
      RunInv(run, acts, k);
      MeasureKeepsActor(id, run(k).ops[id], o);
      StepLowersMeasure(run(k), acts(k), id);
      m := k + 1;
    }
  }

  /** Every operation in flight when the client is closed runs its Done. */
  lemma {:induction false} OperationDrains(run: nat -> State, acts: nat -> Action, id: Id, n: nat) returns (m: nat)
    requires FairRun(run, acts) && run(n).closed && id in run(n).ops
    ensures m >= n && id in run(m).ops && !Live(run(m).ops[id])
    decreases StageRank(run(n).ops[id]), Uncut(run(n).ops[id]), Work(run(n).ops[id])
  {
    if Live(run(n).ops[id]) {
      var k := MeasureDrops(run, acts, id, n);
      RunMonotone(run, acts, n, k);
      m := OperationDrains(run, acts, id, k);
    } else {
      m := n;
    }
  }

  lemma {:induction false} AllDrain(run: nat -> State, acts: nat -> Action, ids: set<Id>, n: nat) returns (m: nat)
    requires FairRun(run, acts) && run(n).closed && ids <= run(n).ops.Keys
    ensures m >= n && ids <= run(m).ops.Keys && forall id :: id in ids ==> !Live(run(m).ops[id])
    decreases |ids|
  {
    if ids == {} {
      m := n;
    } else {
      var id :| id in ids;
      var k := OperationDrains(run, acts, id, n);
      RunMonotone(run, acts, n, k);
      m := AllDrain(run, acts, ids - {id}, k);
      RunMonotone(run, acts, k, m);
    }
  }

  /** The group stays at zero once a closed client has drained. */
  lemma DrainedStays(run: nat -> State, acts: nat -> Action, n: nat, m: nat)
    requires FairRun(run, acts) && run(n).closed && n <= m
    requires forall id :: id in run(n).ops ==> !Live(run(n).ops[id])
    ensures run(m).group == 0
  {
    RunMonotone(run, acts, n, m);
    RunInv(run, acts, m);
    CountZero(run(m).ops, Live);
  }

  /** A close call that can always move does move, so it leaves its stage. */
  lemma {:induction false} CloserMoves(run: nat -> State, acts: nat -> Action, c: Id, n: nat) returns (m: nat)
    requires FairRun(run, acts) && c in run(n).closers && !run(n).closers[c].Returned?
    requires forall i: nat :: i >= n && AtStage(run(i), c, run(n).closers[c]) ==> Ready(run(i), CloserOf(c))
    ensures m >= n && c in run(m).closers && Enabled(run(m), Closer(c))
    ensures run(m).closers[c] == run(n).closers[c] && acts(m) == Closer(c)
  {
    var stage := run(n).closers[c];
    if i: nat :| i >= n && !AtStage(run(i), c, stage) {
      m := LastAtStage(run, c, stage, n, i);
      OnlyOwnStep(run, acts, c, m);
    } else {
      assert ReadyFrom(run, CloserOf(c), n);
      assert ActsAfter(acts, CloserOf(c), n);
      m :| m >= n && By(acts(m), CloserOf(c));
    }
  }

  /** Only its own steps change the stage of a close call, and never whether it is the first. */
  lemma OnlyOwnStep(run: nat -> State, acts: nat -> Action, c: Id, n: nat)
    requires FairRun(run, acts) && c in run(n).closers
    ensures c in run(n + 1).closers && (First(run(n + 1).closers[c]) <==> First(run(n).closers[c]))
    ensures acts(n) == Closer(c) || run(n + 1).closers[c] == run(n).closers[c]
  {
    var s, a := run(n), acts(n);
    assert Enabled(s, a) && run(n + 1) == Apply(s, a);
  }

  predicate AtStage(s: State, c: Id, stage: CloserStage) {
    c in s.closers && s.closers[c] == stage
  }

  lemma {:induction false} LastAtStage(run: nat -> State, c: Id, stage: CloserStage, n: nat, i: nat) returns (k: nat)
    requires n <= i && AtStage(run(n), c, stage) && !AtStage(run(i), c, stage)
    ensures n <= k < i && AtStage(run(k), c, stage) && !AtStage(run(k + 1), c, stage)
    decreases i - n
  {
    if AtStage(run(i - 1), c, stage) {
      k := i - 1;
    } else {
      k := LastAtStage(run, c, stage, n, i - 1);
    }
  }

  /** The first `Close` call returns once the group has drained. */
  lemma FirstReturns(run: nat -> State, acts: nat -> Action, c: Id, n: nat) returns (m: nat)
    requires FairRun(run, acts) && c in run(n).closers && First(run(n).closers[c])
    requires forall i: nat :: i >= n ==> run(i).group == 0
    ensures m >= n && c in run(m).closers && run(m).closers[c] == Returned(true)
    decreases match run(n).closers[c] case Draining => 2 case Signalling => 1 case _ => 0
  {
    if run(n).closers[c].Returned? {
      m := n;
    } else {
      var k := CloserMoves(run, acts, c, n);
      assert run(k + 1) == Apply(run(k), acts(k));
      m := FirstReturns(run, acts, c, k + 1);
    }
  }

  lemma FollowerReturns(run: nat -> State, acts: nat -> Action, c: Id, n: nat) returns (m: nat)
    requires FairRun(run, acts) && c in run(n).closers && run(n).closers[c] == Following
    requires forall i: nat :: i >= n ==> run(i).closeDone > 0
    ensures m >= n && c in run(m).closers && run(m).closers[c].Returned?
  {
    var k := CloserMoves(run, acts, c, n);
    assert run(k + 1) == Apply(run(k), acts(k));
    m := k + 1;
  }

  /** Whoever waits for a close call sees it in the same stage, or it has moved on. */
  lemma {:induction false} StageOrMoved(run: nat -> State, acts: nat -> Action, c: Id, n: nat, m: nat)
    requires FairRun(run, acts) && n <= m && c in run(n).closers
    ensures c in run(m).closers && (First(run(m).closers[c]) <==> First(run(n).closers[c]))
    decreases m - n
  {
    if n < m {
      OnlyOwnStep(run, acts, c, n);
      StageOrMoved(run, acts, c, n + 1, m);
    }
  }

  /** Every `Close` call returns, whatever the peer and the consumers of the events do. */
  lemma CloseTerminates(run: nat -> State, acts: nat -> Action, c: Id, n: nat)
    requires FairRun(run, acts) && c in run(n).closers
    ensures exists m: nat :: m >= n && c in run(m).closers && run(m).closers[c].Returned?
  {
    RunInv(run, acts, n);
    var d := AllDrain(run, acts, run(n).ops.Keys, n);
    RunMonotone(run, acts, n, d);
    forall i: nat | i >= d ensures run(i).group == 0 {
      DrainedStays(run, acts, d, i);
    }
    var first :| first in run(n).closers && First(run(n).closers[first]);
    StageOrMoved(run, acts, first, n, d);
    var r := FirstReturns(run, acts, first, d);
    RunInv(run, acts, r);
    forall i: nat | i >= r ensures run(i).closeDone > 0 {
      RunMonotone(run, acts, r, i);
    }
    StageOrMoved(run, acts, c, n, r);
    if run(r).closers[c] == Following {
      var m := FollowerReturns(run, acts, c, r);
    } else if First(run(r).closers[c]) {
      StageOrMoved(run, acts, first, n, r);
      assert c == first;
    }
  }
}
