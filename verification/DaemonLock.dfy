/** The session's daemon lock.

    `Protocol` part: any number of daemons starting and stopping, probes, stale-record clearers
    and stop requests, each on its own open file description, in small steps and with crashes.
    `Session` part: the operations of one caller without interleaving. */
module DaemonLock {
  import opened Common
  import opened PidRecord

  type Id = nat

  /** What the owner of one open file description is doing. */
  datatype Stage =
    | Opened           // Acquire: before the lock request
    | Locked
    | Truncated
    | Rewound
    | Written          // before the sync
    | Held             // Acquire has returned
    | Failing          // writing the record failed; about to unlock
    | Clearing         // Release: before the truncation
    | Unlocking        // Release: before the unlock
    | ProbeOpened
    | ProbeLocked
    | StaleOpened
    | StaleLocked
    | StaleCleared
    | StopEntered                    // SignalStop: before the record is read
    | StopRead(recorded: nat)        // before the probe
    | StopProbing(recorded: nat)     // the probe has got the lock
    | StopRefused(recorded: nat)     // the probe was refused: before the signal
    | Gone(refused: bool)

  datatype Proc = Proc(pid: nat, stage: Stage)

  datatype Signal = Signal(sender: Id, pid: nat)

  datatype State = State(file: Option<string>, owner: Option<Id>, procs: map<Id, Proc>, signals: seq<Signal>)

  datatype Action =
    | Start(id: Id, pid: nat)
    | Probe(id: Id, pid: nat)
    | ClearStale(id: Id, pid: nat)
    | Stop(id: Id, pid: nat)
    | Advance(id: Id)
    | FailWrite(id: Id, written: nat)    // an I/O error after part of the record was written
    | Release(id: Id)
    | FailTruncate(id: Id)
    | NoSuchProcess(id: Id)              // nobody has the PID that was to be signalled
    | Crash(id: Id)

  const INITIAL := State(None, None, map[], [])

  predicate Holds(stage: Stage) {
    match stage
    case Locked => true
    case Truncated => true
    case Rewound => true
    case Written => true
    case Held => true
    case Failing => true
    case Clearing => true
    case Unlocking => true
    case ProbeLocked => true
    case StaleLocked => true
    case StaleCleared => true
    case StopProbing(_) => true
    case _ => false
  }

  /** Whether the description only has to do with an existing file. */
  predicate NeedsFile(stage: Stage) {
    !stage.StopEntered? && !stage.StopRead? && !stage.Gone?
  }

  predicate Enabled(s: State, a: Action) {
    match a
    case Start(id, pid) => id !in s.procs && 0 < pid <= MAX_INT
    case Probe(id, _) => id !in s.procs && s.file.Some?
    case ClearStale(id, _) => id !in s.procs && s.file.Some?
    case Stop(id, pid) => id !in s.procs && 0 < pid <= MAX_INT
    case Advance(id) => id in s.procs && !s.procs[id].stage.Held? && !s.procs[id].stage.Gone?
    case FailWrite(id, written) =>
      && id in s.procs
      && (match s.procs[id].stage
          case Locked => true
          case Truncated => true
          case Rewound => written <= |PidText(s.procs[id].pid)|
          case Written => true
          case _ => false)
    case Release(id) => id in s.procs && s.procs[id].stage == Held
    case FailTruncate(id) =>
      id in s.procs && (s.procs[id].stage == Clearing || s.procs[id].stage == StaleLocked)
    case NoSuchProcess(id) => AboutToSignal(s, id)
    case Crash(id) => id in s.procs
  }

  /** The stop request `id` is going to signal the PID it has read. */
  predicate AboutToSignal(s: State, id: Id) {
    && id in s.procs && s.procs[id].stage.StopRefused?
    && s.procs[id].stage.recorded != 0 && s.procs[id].stage.recorded != s.procs[id].pid
  }

  function At(s: State, id: Id, stage: Stage): State
    requires id in s.procs
  {
    s.(procs := s.procs[id := s.procs[id].(stage := stage)])
  }

  /** The non-blocking lock request of one description. */
  function TryLock(s: State, id: Id, locked: Stage): State
    requires id in s.procs
  {
    if s.owner == None then At(s, id, locked).(owner := Some(id)) else At(s, id, Gone(true))
  }

  function Unlock(s: State, id: Id): State
    requires id in s.procs
  {
    At(s, id, Gone(false)).(owner := if s.owner == Some(id) then None else s.owner)
  }

  /** The steps of a stop request: read the record, probe the lock, and signal or clear. */
  function StopStep(s: State, id: Id): State
    requires id in s.procs
  {
    match s.procs[id].stage
    case StopEntered =>
      var recorded := Parse(s.file);
      At(s, id, if recorded.Ok? then StopRead(recorded.value) else Gone(false))
    case StopRead(recorded) =>
      if s.file == None then At(s, id, Gone(false))
      else if s.owner == None then At(s, id, StopProbing(recorded)).(owner := Some(id))
      else At(s, id, StopRefused(recorded))
    case StopProbing(recorded) =>
      At(Unlock(s, id), id, if recorded != 0 then StaleOpened else Gone(false))
    case StopRefused(recorded) =>
      At(s, id, Gone(false)).(
        signals := if AboutToSignal(s, id) then s.signals + [Signal(id, recorded)] else s.signals)
    case _ => s
  }

  function Apply(s: State, a: Action): State
    requires Enabled(s, a)
  {
    match a
    case Start(id, pid) =>
      s.(file := if s.file == None then Some("") else s.file, procs := s.procs[id := Proc(pid, Opened)])
    case Probe(id, pid) => s.(procs := s.procs[id := Proc(pid, ProbeOpened)])
    case ClearStale(id, pid) => s.(procs := s.procs[id := Proc(pid, StaleOpened)])
    case Stop(id, pid) => s.(procs := s.procs[id := Proc(pid, StopEntered)])
    case Advance(id) =>
      (match s.procs[id].stage
       case Opened => TryLock(s, id, Locked)
       case Locked => At(s, id, Truncated).(file := Some(""))
       case Truncated => At(s, id, Rewound)
       case Rewound => At(s, id, Written).(file := Some(PidText(s.procs[id].pid)))
       case Written => At(s, id, Held)
       case Failing => Unlock(s, id)
       case Clearing => At(s, id, Unlocking).(file := Some(""))
       case Unlocking => Unlock(s, id)
       case ProbeOpened => TryLock(s, id, ProbeLocked)
       case ProbeLocked => Unlock(s, id)
       case StaleOpened => TryLock(s, id, StaleLocked)
       case StaleLocked => At(s, id, StaleCleared).(file := Some(""))
       case StaleCleared => Unlock(s, id)
       case _ => StopStep(s, id))
    case FailWrite(id, written) =>
      var t := At(s, id, Failing);
      if s.procs[id].stage == Rewound then t.(file := Some(PidText(s.procs[id].pid)[..written])) else t
    case Release(id) => At(s, id, Clearing)
    case FailTruncate(id) => At(s, id, if s.procs[id].stage == Clearing then Unlocking else StaleCleared)
    case NoSuchProcess(id) => At(s, id, StaleOpened)
    case Crash(id) => Unlock(s, id)
  }

  /** What the stage of one description says about the lock and the record. */
  predicate ProcInv(file: Option<string>, owner: Option<Id>, id: Id, p: Proc) {
    && (Holds(p.stage) ==> owner == Some(id))
    && (NeedsFile(p.stage) ==> file.Some?)
    && (match p.stage
        case Opened => 0 < p.pid <= MAX_INT
        case Locked => 0 < p.pid <= MAX_INT
        case Truncated => 0 < p.pid <= MAX_INT && file == Some("")
        case Rewound => 0 < p.pid <= MAX_INT && file == Some("")
        case Written => 0 < p.pid <= MAX_INT && file == Some(PidText(p.pid))
        case Held => 0 < p.pid <= MAX_INT && file == Some(PidText(p.pid))
        case _ => true)
  }

  ghost predicate Inv(s: State) {
    && (forall id :: id in s.procs ==> ProcInv(s.file, s.owner, id, s.procs[id]))
    && (s.owner.Some? ==> s.owner.value in s.procs && Holds(s.procs[s.owner.value].stage))
  }

  /** A description that does not act keeps its stage's meaning. */
  lemma OthersKeepInv(s: State, a: Action, id: Id)
    requires Inv(s) && Enabled(s, a) && id in s.procs && id != a.id
    ensures ProcInv(Apply(s, a).file, Apply(s, a).owner, id, s.procs[id])
  {
    assert ProcInv(s.file, s.owner, id, s.procs[id]);
    if a.id in s.procs {
      assert ProcInv(s.file, s.owner, a.id, s.procs[a.id]);
    }
  }

  /** The description that acts has the meaning of its new stage, and the lock follows. */
  ghost predicate Acted(s: State, t: State, id: Id) {
    && t.procs.Keys == s.procs.Keys + {id}
    && ProcInv(t.file, t.owner, id, t.procs[id])
    && (forall other :: other in s.procs && other != id ==> t.procs[other] == s.procs[other])
    && t.owner == (if Holds(t.procs[id].stage) then Some(id) else if s.owner == Some(id) then None else s.owner)
  }

  predicate Asks(stage: Stage) { stage.Opened? || stage.ProbeOpened? || stage.StaleOpened? }

  lemma AskingKeepsInv(s: State, id: Id)
    requires Inv(s) && Enabled(s, Advance(id)) && Asks(s.procs[id].stage)
    ensures Acted(s, Apply(s, Advance(id)), id)
  {
    assert ProcInv(s.file, s.owner, id, s.procs[id]);
  }

  predicate Stopping(stage: Stage) {
    stage.StopEntered? || stage.StopRead? || stage.StopProbing? || stage.StopRefused?
  }

  lemma ProbeEndKeepsInv(s: State, id: Id)
    requires Inv(s) && Enabled(s, Advance(id)) && s.procs[id].stage.StopProbing?
    ensures Acted(s, StopStep(s, id), id)
  {
    assert ProcInv(s.file, s.owner, id, s.procs[id]);
  }

  lemma ProbeKeepsInv(s: State, id: Id)
    requires Inv(s) && Enabled(s, Advance(id)) && s.procs[id].stage.StopRead?
    ensures Acted(s, StopStep(s, id), id)
  {
    assert ProcInv(s.file, s.owner, id, s.procs[id]);
  }

  lemma StopKeepsInv(s: State, id: Id)
    requires Inv(s) && Enabled(s, Advance(id)) && Stopping(s.procs[id].stage)
    ensures Acted(s, StopStep(s, id), id)
  {
    if s.procs[id].stage.StopProbing? {
      ProbeEndKeepsInv(s, id);
    } else if s.procs[id].stage.StopRead? {
      ProbeKeepsInv(s, id);
    } else {
      assert ProcInv(s.file, s.owner, id, s.procs[id]);
    }
  }

  lemma AdvanceKeepsInv(s: State, id: Id)
    requires Inv(s) && Enabled(s, Advance(id))
    ensures Acted(s, Apply(s, Advance(id)), id)
  {
    if Asks(s.procs[id].stage) {
      AskingKeepsInv(s, id);
    } else if Stopping(s.procs[id].stage) {
      StopKeepsInv(s, id);
    } else {
      assert ProcInv(s.file, s.owner, id, s.procs[id]);
    }
  }

  lemma CrashKeepsInv(s: State, id: Id)
    requires Inv(s) && id in s.procs
    ensures Acted(s, Unlock(s, id), id)
  {
    assert ProcInv(s.file, s.owner, id, s.procs[id]);
  }

  lemma ArrivalKeepsInv(s: State, a: Action)
    requires Inv(s) && Enabled(s, a) && a.id !in s.procs
    ensures Acted(s, Apply(s, a), a.id)
  {
  }

  lemma ActorKeepsInv(s: State, a: Action)
    requires Inv(s) && Enabled(s, a)
    ensures Acted(s, Apply(s, a), a.id)
  {
    if a.Advance? {
      AdvanceKeepsInv(s, a.id);
    } else if a.Crash? {
      CrashKeepsInv(s, a.id);
    } else if a.id in s.procs {
      assert ProcInv(s.file, s.owner, a.id, s.procs[a.id]);
    } else {
      ArrivalKeepsInv(s, a);
    }
  }

  lemma NextKeepsInv(s: State, a: Action)
    requires Inv(s) && Enabled(s, a)
    ensures Inv(Apply(s, a))
  {
    var t := Apply(s, a);
    ActorKeepsInv(s, a);
    forall id | id in t.procs ensures ProcInv(t.file, t.owner, id, t.procs[id]) {
      if id != a.id {
        OthersKeepInv(s, a, id);
      }
    }
  }

  function After(s: State, run: seq<Action>): Option<State>
    decreases |run|
  {
    if run == [] then Some(s)
    else if Enabled(s, run[0]) then After(Apply(s, run[0]), run[1..]) else None
  }

  lemma {:induction false} RunKeepsInv(s: State, run: seq<Action>)
    requires Inv(s)
    ensures After(s, run).Some? ==> Inv(After(s, run).value)
    decreases |run|
  {
    if run != [] && Enabled(s, run[0]) {
      NextKeepsInv(s, run[0]);
      RunKeepsInv(Apply(s, run[0]), run[1..]);
    }
  }

  /** In every reachable state only the current owner of the lock changes an existing record,
      whatever step is taken. */
  lemma OnlyTheOwnerWrites(run: seq<Action>, a: Action)
    requires After(INITIAL, run).Some? && Enabled(After(INITIAL, run).value, a)
    requires After(INITIAL, run).value.file.Some?
    ensures var s := After(INITIAL, run).value;
            Apply(s, a).file != s.file ==> s.owner == Some(a.id)
  {
    RunKeepsInv(INITIAL, run);
  }

  /** In every reachable state a daemon whose Acquire has returned, and which has neither
      begun its Release nor crashed, is the only holder and the record is exactly its PID:
      no contender, probe or stale-record clearer has touched it. */
  lemma HeldRecordIsIntact(run: seq<Action>, id: Id)
    requires After(INITIAL, run).Some?
    requires id in After(INITIAL, run).value.procs && After(INITIAL, run).value.procs[id].stage == Held
    ensures var s := After(INITIAL, run).value;
            && s.owner == Some(id)
            && s.file == Some(PidText(s.procs[id].pid)) && Parse(s.file) == Ok(s.procs[id].pid)
            && forall other :: other in s.procs && other != id ==> !Holds(s.procs[other].stage)
  {
    RunKeepsInv(INITIAL, run);
    ParseOwnRecord(After(INITIAL, run).value.procs[id].pid);
  }

  /** A contender that asks for the lock while a daemon holds it is refused and changes
      neither the record nor the ownership. */
  lemma ContenderIsRefused(s: State, holder: Id, id: Id)
    requires Inv(s) && holder in s.procs && s.procs[holder].stage == Held
    requires id in s.procs && s.procs[id].stage in {Opened, ProbeOpened, StaleOpened}
    ensures var t := Apply(s, Advance(id));
            t.procs[id].stage == Gone(true) && t.file == s.file && t.owner == s.owner
            && t.procs[holder] == s.procs[holder]
  {
  }

  // ----- stop requests

  /** The PID of the daemon that holds the lock with its Acquire returned, if there is one. */
  function CurrentDaemon(s: State): Option<nat> {
    if s.owner.Some? && s.owner.value in s.procs && s.procs[s.owner.value].stage == Held then
      Some(s.procs[s.owner.value].pid)
    else None
  }

  /** In every reachable state a stop request that is about to send its signal sends it to the
      current daemon if and only if there is one and the record still reads as it did: the lock
      being held at the probe, on which the request relies, is neither of the two. */
  lemma SignalHitsTheDaemonIff(run: seq<Action>, id: Id)
    requires After(INITIAL, run).Some? && AboutToSignal(After(INITIAL, run).value, id)
    ensures var s := After(INITIAL, run).value;
            var recorded := s.procs[id].stage.recorded;
            && Apply(s, Advance(id)).signals == s.signals + [Signal(id, recorded)]
            && (CurrentDaemon(s) == Some(recorded) <==> CurrentDaemon(s).Some? && Parse(s.file) == Ok(recorded))
  {
    RunKeepsInv(INITIAL, run);
    var s := After(INITIAL, run).value;
    if CurrentDaemon(s).Some? {
      assert ProcInv(s.file, s.owner, s.owner.value, s.procs[s.owner.value]);
      ParseOwnRecord(CurrentDaemon(s).value);
    }
  }

  /** A daemon that has left its hold never has it again. */
  lemma {:induction false} LeftForGood(s: State, run: seq<Action>, d: Id)
    requires d in s.procs && Leaving(s.procs[d].stage) && After(s, run).Some?
    ensures d in After(s, run).value.procs && Leaving(After(s, run).value.procs[d].stage)
    decreases |run|
  {
    if run != [] {
      LeftForGood(Apply(s, run[0]), run[1..], d);
    }
  }

  predicate Leaving(stage: Stage) { stage == Clearing || stage == Unlocking || stage.Gone? }

  /** What the stop request has read, if anything, is the daemon's PID. */
  predicate Reads(s: State, id: Id, pid: nat) {
    && id in s.procs
    && (match s.procs[id].stage
        case StopRead(recorded) => recorded == pid
        case StopProbing(recorded) => recorded == pid
        case StopRefused(recorded) => recorded == pid
        case Opened => false
        case Locked => false
        case Truncated => false
        case Rewound => false
        case Written => false
        case Held => false
        case _ => true)
  }

  lemma StepStillReads(s: State, a: Action, id: Id, d: Id)
    requires Inv(s) && Enabled(s, a) && d in s.procs && s.procs[d].stage == Held && Reads(s, id, s.procs[d].pid)
    ensures Reads(Apply(s, a), id, s.procs[d].pid)
  {
    assert ProcInv(s.file, s.owner, d, s.procs[d]);
    ParseOwnRecord(s.procs[d].pid);
    if a.id != id {
      StepIsLocal(s, a, id);
    }
  }

  lemma StepIsLocal(s: State, a: Action, id: Id)
    requires Enabled(s, a) && id in s.procs && id != a.id
    ensures id in Apply(s, a).procs && Apply(s, a).procs[id] == s.procs[id]
  {
  }

  lemma HeldStaysOrLeaves(s: State, a: Action, d: Id)
    requires Enabled(s, a) && d in s.procs && s.procs[d].stage == Held
    ensures Apply(s, a).procs[d] == s.procs[d] || Leaving(Apply(s, a).procs[d].stage)
  {
    if a.id != d {
      StepIsLocal(s, a, d);
    }
  }

  lemma {:induction false} StillReads(s: State, run: seq<Action>, id: Id, d: Id)
    requires Inv(s) && d in s.procs && s.procs[d].stage == Held && Reads(s, id, s.procs[d].pid)
    requires After(s, run).Some? && d in After(s, run).value.procs && After(s, run).value.procs[d].stage == Held
    ensures After(s, run).value.procs[d].pid == s.procs[d].pid && Reads(After(s, run).value, id, s.procs[d].pid)
    decreases |run|
  {
    if run != [] {
      var t := Apply(s, run[0]);
      StepStillReads(s, run[0], id, d);
      HeldStaysOrLeaves(s, run[0], d);
      NextKeepsInv(s, run[0]);
      if t.procs[d] != s.procs[d] {
        LeftForGood(t, run[1..], d);
      }
      StillReads(t, run[1..], id, d);
    }
  }

  /** A stop request hits the daemon that holds the lock both when the request begins and when
      it signals, whatever contenders, probes, clearers and other requests do meanwhile. */
  lemma SteadyDaemonIsHit(before: seq<Action>, during: seq<Action>, id: Id, d: Id)
    requires After(INITIAL, before).Some? && After(After(INITIAL, before).value, during).Some?
    requires var s := After(INITIAL, before).value;
             id in s.procs && s.procs[id].stage == StopEntered && d in s.procs && s.procs[d].stage == Held
    requires var t := After(After(INITIAL, before).value, during).value;
             AboutToSignal(t, id) && d in t.procs && t.procs[d].stage == Held
    ensures var t := After(After(INITIAL, before).value, during).value;
            t.procs[id].stage.recorded == t.procs[d].pid && CurrentDaemon(t) == Some(t.procs[d].pid)
  {
    RunKeepsInv(INITIAL, before);
    var s := After(INITIAL, before).value;
    StillReads(s, during, id, d);
    RunKeepsInv(s, during);
    var t := After(s, during).value;
    assert ProcInv(t.file, t.owner, d, t.procs[d]);
  }

  predicate Sound(s: State) {
    forall k | 0 <= k < |s.signals| ::
      && s.signals[k].sender in s.procs && s.signals[k].pid != 0
      && s.signals[k].pid != s.procs[s.signals[k].sender].pid
  }

  lemma {:induction false} RunKeepsSound(s: State, run: seq<Action>)
    requires Sound(s)
    ensures After(s, run).Some? ==> Sound(After(s, run).value)
    decreases |run|
  {
    if run != [] && Enabled(s, run[0]) {
      RunKeepsSound(Apply(s, run[0]), run[1..]);
    }
  }

  /** However the steps interleave, nobody is ever signalled as process zero, and no request
      signals its own process. */
  lemma NobodySignalsItself(run: seq<Action>)
    requires After(INITIAL, run).Some?
    ensures forall g | g in After(INITIAL, run).value.signals ::
              && g.pid != 0 && g.sender in After(INITIAL, run).value.procs
              && g.pid != After(INITIAL, run).value.procs[g.sender].pid
  {
    RunKeepsSound(INITIAL, run);
  }

  // ----- undisturbed operations

  lemma AfterDrop(s: State, run: seq<Action>, i: nat)
    requires i < |run| && Enabled(s, run[i])
    ensures After(s, run[i..]) == After(Apply(s, run[i]), run[i + 1..])
  {
    assert run[i..][1..] == run[i + 1..];
  }

  /** Three enabled steps in a row. */
  lemma AfterThree(s: State, a: Action, b: Action, c: Action)
    requires Enabled(s, a) && Enabled(Apply(s, a), b) && Enabled(Apply(Apply(s, a), b), c)
    ensures After(s, [a, b, c]) == Some(Apply(Apply(Apply(s, a), b), c))
  {
    var run := [a, b, c];
    assert run[0..] == run;
    AfterDrop(s, run, 0);
    AfterDrop(Apply(s, a), run, 1);
    AfterDrop(Apply(Apply(s, a), b), run, 2);
  }

  lemma AfterConcat(s: State, a: seq<Action>, b: seq<Action>)
    requires After(s, a).Some?
    ensures After(s, a + b) == After(After(s, a).value, b)
    decreases |a|
  {
    if a == [] {
      assert a + b == b;
    } else {
      assert (a + b)[1..] == a[1..] + b;
      AfterConcat(Apply(s, a[0]), a[1..], b);
    }
  }

  /** The state in which the description is at its end. */
  function Done(s: State, id: Id, pid: nat): State {
    s.(procs := s.procs[id := Proc(pid, Gone(false))], owner := None)
  }

  /** A Release frees the lock and leaves an empty record. */
  lemma ReleaseRuns(s: State, d: Id)
    requires d in s.procs && s.procs[d].stage == Held && s.owner == Some(d)
    ensures After(s, [Release(d), Advance(d), Advance(d)]) == Some(Done(s, d, s.procs[d].pid).(file := Some("")))
  {
    var pid := s.procs[d].pid;
    var clearing := s.(procs := s.procs[d := Proc(pid, Clearing)]);
    var cleared := s.(procs := s.procs[d := Proc(pid, Unlocking)], file := Some(""));
    assert Apply(s, Release(d)) == clearing && Apply(clearing, Advance(d)) == cleared;
    assert cleared.procs[d := Proc(pid, Gone(false))] == Done(s, d, pid).procs;
    AfterThree(s, Release(d), Advance(d), Advance(d));
  }

  /** An Acquire whose writing fails, at whatever step, frees the lock. Only a failing write
      changes the record: the part of the PID that it managed is left. */
  lemma FailedAcquireFreesLock(s: State, id: Id, written: nat)
    requires Enabled(s, FailWrite(id, written)) && s.owner == Some(id)
    ensures After(s, [FailWrite(id, written), Advance(id)])
         == Some(Done(s, id, s.procs[id].pid).(
                   file := if s.procs[id].stage == Rewound then Some(PidText(s.procs[id].pid)[..written]) else s.file))
  {
    var run := [FailWrite(id, written), Advance(id)];
    var t := Apply(s, run[0]);
    assert run[0..] == run && t.procs == s.procs[id := Proc(s.procs[id].pid, Failing)];
    assert Apply(t, run[1]).procs == Done(s, id, s.procs[id].pid).procs;
    AfterDrop(s, run, 0);
    AfterDrop(t, run, 1);
  }

  /** A truncation that fails, in a Release or in clearing, frees the lock and keeps the record. */
  lemma FailedTruncationFreesLock(s: State, id: Id)
    requires Enabled(s, FailTruncate(id)) && s.owner == Some(id)
    ensures After(s, [FailTruncate(id), Advance(id)]) == Some(Done(s, id, s.procs[id].pid))
  {
    var run := [FailTruncate(id), Advance(id)];
    var t := Apply(s, run[0]);
    assert run[0..] == run && t.procs == s.procs[id := t.procs[id]];
    assert Apply(t, run[1]).procs == Done(s, id, s.procs[id].pid).procs;
    AfterDrop(s, run, 0);
    AfterDrop(t, run, 1);
  }

  /** A probe of a free lock leaves everything as it was. */
  lemma ProbeRuns(s: State, id: Id, pid: nat)
    requires s.owner == None && s.file.Some? && id !in s.procs
    ensures After(s, [Probe(id, pid), Advance(id), Advance(id)]) == Some(Done(s, id, pid))
  {
    var asking := s.(procs := s.procs[id := Proc(pid, ProbeOpened)]);
    var locked := s.(procs := s.procs[id := Proc(pid, ProbeLocked)], owner := Some(id));
    assert Apply(s, Probe(id, pid)) == asking && Apply(asking, Advance(id)) == locked;
    assert locked.procs[id := Proc(pid, Gone(false))] == Done(s, id, pid).procs;
    AfterThree(s, Probe(id, pid), Advance(id), Advance(id));
  }

  /** Clearing the record of a free lock empties it. */
  lemma ClearingRuns(s: State, id: Id)
    requires s.owner == None && id in s.procs && s.procs[id].stage == StaleOpened
    ensures After(s, [Advance(id), Advance(id), Advance(id)]) == Some(Done(s, id, s.procs[id].pid).(file := Some("")))
  {
    var pid := s.procs[id].pid;
    var locked := s.(procs := s.procs[id := Proc(pid, StaleLocked)], owner := Some(id));
    var cleared := s.(procs := s.procs[id := Proc(pid, StaleCleared)], owner := Some(id), file := Some(""));
    assert Apply(s, Advance(id)) == locked && Apply(locked, Advance(id)) == cleared;
    assert cleared.procs[id := Proc(pid, Gone(false))] == Done(s, id, pid).procs;
    AfterThree(s, Advance(id), Advance(id), Advance(id));
  }

  /** A stop request up to the end of its probe. */
  lemma StopProbes(s: State, id: Id, pid: nat, recorded: nat)
    requires s.file == Some(PidText(recorded)) && 0 < recorded <= MAX_INT
    requires id !in s.procs && 0 < pid <= MAX_INT
    ensures After(s, [Stop(id, pid), Advance(id), Advance(id)])
         == Some(if s.owner == None then s.(procs := s.procs[id := Proc(pid, StopProbing(recorded))], owner := Some(id))
                 else s.(procs := s.procs[id := Proc(pid, StopRefused(recorded))]))
  {
    RecordIsRead(s, id, pid, recorded);
    var read := s.(procs := s.procs[id := Proc(pid, StopRead(recorded))]);
    assert read.procs[id := Proc(pid, StopProbing(recorded))] == s.procs[id := Proc(pid, StopProbing(recorded))];
    assert read.procs[id := Proc(pid, StopRefused(recorded))] == s.procs[id := Proc(pid, StopRefused(recorded))];
    AfterThree(s, Stop(id, pid), Advance(id), Advance(id));
  }

  lemma AfterOne(s: State, run: seq<Action>, t: State, a: Action)
    requires After(s, run) == Some(t) && Enabled(t, a)
    ensures After(s, run + [a]) == Some(Apply(t, a))
  {
    AfterConcat(s, run, [a]);
    assert [a][1..] == [];
  }

  /** A stop request while a daemon holds the lock signals that daemon, once, and changes
      neither the record nor the lock. */
  lemma StopRuns(s: State, id: Id, pid: nat, d: Id)
    requires Inv(s) && d in s.procs && s.procs[d].stage == Held && s.procs[d].pid != pid
    requires id !in s.procs && 0 < pid <= MAX_INT
    ensures After(s, [Stop(id, pid), Advance(id), Advance(id)] + [Advance(id)])
         == Some(s.(procs := s.procs[id := Proc(pid, Gone(false))],
                    signals := s.signals + [Signal(id, s.procs[d].pid)]))
  {
    assert ProcInv(s.file, s.owner, d, s.procs[d]);
    var holder := s.procs[d].pid;
    StopProbes(s, id, pid, holder);
    var refused := s.(procs := s.procs[id := Proc(pid, StopRefused(holder))]);
    AfterOne(s, [Stop(id, pid), Advance(id), Advance(id)], refused, Advance(id));
    assert refused.procs[id := Proc(pid, Gone(false))] == s.procs[id := Proc(pid, Gone(false))];
  }

  lemma ProbingEnds(s: State, id: Id, pid: nat, stale: nat)
    requires s.owner == None && stale != 0
    ensures var probing := s.(procs := s.procs[id := Proc(pid, StopProbing(stale))], owner := Some(id));
            Apply(probing, Advance(id)) == s.(procs := s.procs[id := Proc(pid, StaleOpened)])
  {
    var probing := s.(procs := s.procs[id := Proc(pid, StopProbing(stale))], owner := Some(id));
    assert Unlock(probing, id).procs[id := Proc(pid, StaleOpened)] == s.procs[id := Proc(pid, StaleOpened)];
  }

  /** A stop request while the lock is free signals nobody and leaves a well-formed record
      empty. */
  lemma StopWithoutDaemonRuns(s: State, id: Id, pid: nat, stale: nat)
    requires s.owner == None && s.file == Some(PidText(stale)) && 0 < stale <= MAX_INT
    requires id !in s.procs && 0 < pid <= MAX_INT
    ensures After(s, ([Stop(id, pid), Advance(id), Advance(id)] + [Advance(id)])
                     + [Advance(id), Advance(id), Advance(id)])
         == Some(Done(s, id, pid).(file := Some("")))
  {
    var probe := [Stop(id, pid), Advance(id), Advance(id)];
    var probing := s.(procs := s.procs[id := Proc(pid, StopProbing(stale))], owner := Some(id));
    StopProbes(s, id, pid, stale);
    ProbingEnds(s, id, pid, stale);
    AfterOne(s, probe, probing, Advance(id));
    var clearing := s.(procs := s.procs[id := Proc(pid, StaleOpened)]);
    ClearingRuns(clearing, id);
    assert Done(clearing, id, pid).procs == Done(s, id, pid).procs;
    AfterConcat(s, probe + [Advance(id)], [Advance(id), Advance(id), Advance(id)]);
  }

  /** A stop request that finds a malformed record ends there, changing nothing. */
  lemma MalformedRecordStops(s: State, id: Id, pid: nat)
    requires id !in s.procs && 0 < pid <= MAX_INT && Parse(s.file).Err?
    ensures After(s, [Stop(id, pid), Advance(id)]) == Some(s.(procs := s.procs[id := Proc(pid, Gone(false))]))
  {
    var entered := s.(procs := s.procs[id := Proc(pid, StopEntered)]);
    assert StopStep(entered, id).procs == s.procs[id := Proc(pid, Gone(false))];
    var run := [Stop(id, pid), Advance(id)];
    assert run[0..] == run;
    AfterDrop(s, run, 0);
    AfterDrop(entered, run, 1);
  }

  lemma EmptyRecordIsProbed(s: State, id: Id, pid: nat)
    requires s.file.Some? && id in s.procs && s.procs[id] == Proc(pid, StopRead(0))
    ensures After(s, [Advance(id), Advance(id)]) == Some(s.(procs := s.procs[id := Proc(pid, Gone(false))]))
  {
    var run := [Advance(id), Advance(id)];
    var asked := Apply(s, run[0]);
    assert run[0..] == run && asked.procs == s.procs[id := asked.procs[id]];
    assert StopStep(asked, id).procs == s.procs[id := Proc(pid, Gone(false))];
    AfterDrop(s, run, 0);
    AfterDrop(asked, run, 1);
  }

  /** One that finds an empty record signals nobody and changes neither record nor lock,
      whether or not the lock is held. */
  lemma EmptyRecordStops(s: State, id: Id, pid: nat)
    requires id !in s.procs && 0 < pid <= MAX_INT && s.file.Some? && Parse(s.file) == Ok(0)
    ensures After(s, [Stop(id, pid), Advance(id)] + [Advance(id), Advance(id)])
         == Some(s.(procs := s.procs[id := Proc(pid, Gone(false))]))
  {
    var entered := s.(procs := s.procs[id := Proc(pid, StopEntered)]);
    var read := s.(procs := s.procs[id := Proc(pid, StopRead(0))]);
    assert StopStep(entered, id).procs == read.procs;
    var run := [Stop(id, pid), Advance(id)];
    assert run[0..] == run;
    AfterDrop(s, run, 0);
    AfterDrop(entered, run, 1);
    AfterConcat(s, run, [Advance(id), Advance(id)]);
    EmptyRecordIsProbed(read, id, pid);
    assert read.procs[id := Proc(pid, Gone(false))] == s.procs[id := Proc(pid, Gone(false))];
  }

  // ----- two ways in which a stop request misses

  /** An Acquire from its beginning to its return. */
  function Acquires(id: Id, pid: nat): seq<Action> {
    [Start(id, pid), Advance(id), Advance(id)] + [Advance(id), Advance(id), Advance(id)]
  }

  lemma LockIsTaken(s: State, id: Id, pid: nat)
    requires s.owner == None && id !in s.procs && 0 < pid <= MAX_INT
    ensures After(s, [Start(id, pid), Advance(id), Advance(id)])
         == Some(State(Some(""), Some(id), s.procs[id := Proc(pid, Truncated)], s.signals))
  {
    var entered := Apply(s, Start(id, pid));
    var locked := entered.(procs := s.procs[id := Proc(pid, Locked)], owner := Some(id));
    assert Apply(entered, Advance(id)) == locked;
    assert Apply(locked, Advance(id)) == State(Some(""), Some(id), s.procs[id := Proc(pid, Truncated)], s.signals);
    AfterThree(s, Start(id, pid), Advance(id), Advance(id));
  }

  lemma RecordIsWritten(s: State, id: Id, pid: nat)
    requires id in s.procs && s.procs[id] == Proc(pid, Truncated)
    ensures After(s, [Advance(id), Advance(id), Advance(id)])
         == Some(s.(file := Some(PidText(pid)), procs := s.procs[id := Proc(pid, Held)]))
  {
    var rewound := s.(procs := s.procs[id := Proc(pid, Rewound)]);
    assert Apply(s, Advance(id)) == rewound;
    var written := s.(procs := s.procs[id := Proc(pid, Written)], file := Some(PidText(pid)));
    assert Apply(rewound, Advance(id)) == written;
    assert Apply(written, Advance(id)).procs == s.procs[id := Proc(pid, Held)];
    AfterThree(s, Advance(id), Advance(id), Advance(id));
  }

  lemma AcquireSucceeds(s: State, id: Id, pid: nat)
    requires s.owner == None && id !in s.procs && 0 < pid <= MAX_INT
    ensures After(s, Acquires(id, pid))
         == Some(State(Some(PidText(pid)), Some(id), s.procs[id := Proc(pid, Held)], s.signals))
  {
    LockIsTaken(s, id, pid);
    var t := After(s, [Start(id, pid), Advance(id), Advance(id)]).value;
    RecordIsWritten(t, id, pid);
    AfterConcat(s, [Start(id, pid), Advance(id), Advance(id)], [Advance(id), Advance(id), Advance(id)]);
    assert t.procs[id := Proc(pid, Held)] == s.procs[id := Proc(pid, Held)];
  }

  /** A daemon 0 comes up, a stop request 1 reads its record, and the daemon crashes. */
  function ReadsAndCrashes(daemon: nat, stopper: nat): seq<Action> {
    Acquires(0, daemon) + [Stop(1, stopper), Advance(1), Crash(0)]
  }

  lemma RecordIsRead(s: State, id: Id, stopper: nat, pid: nat)
    requires id !in s.procs && 0 < stopper <= MAX_INT && 0 < pid <= MAX_INT && s.file == Some(PidText(pid))
    ensures Enabled(s, Stop(id, stopper)) && Enabled(Apply(s, Stop(id, stopper)), Advance(id))
    ensures Apply(Apply(s, Stop(id, stopper)), Advance(id))
         == s.(procs := s.procs[id := Proc(stopper, StopRead(pid))])
  {
    ParseOwnRecord(pid);
    var entered := s.(procs := s.procs[id := Proc(stopper, StopEntered)]);
    assert Apply(s, Stop(id, stopper)) == entered;
    assert StopStep(entered, id).procs == s.procs[id := Proc(stopper, StopRead(pid))];
  }

  lemma RecordOutlivesDaemon(daemon: nat, stopper: nat)
    requires 0 < daemon <= MAX_INT && 0 < stopper <= MAX_INT
    ensures After(INITIAL, ReadsAndCrashes(daemon, stopper))
         == Some(State(Some(PidText(daemon)), None,
                       map[0 := Proc(daemon, Gone(false)), 1 := Proc(stopper, StopRead(daemon))], []))
  {
    AcquireSucceeds(INITIAL, 0, daemon);
    var held := State(Some(PidText(daemon)), Some(0), map[0 := Proc(daemon, Held)], []);
    assert After(INITIAL, Acquires(0, daemon)) == Some(held);
    RecordIsRead(held, 1, stopper, daemon);
    var read := held.(procs := held.procs[1 := Proc(stopper, StopRead(daemon))]);
    AfterThree(held, Stop(1, stopper), Advance(1), Crash(0));
    assert Unlock(read, 0).procs == map[0 := Proc(daemon, Gone(false)), 1 := Proc(stopper, StopRead(daemon))];
    AfterConcat(INITIAL, Acquires(0, daemon), [Stop(1, stopper), Advance(1), Crash(0)]);
  }

  lemma ProbeRefusesStop(s: State, probe: Id, id: Id)
    requires s.owner == None && s.file.Some? && probe !in s.procs && id in s.procs && s.procs[id].stage.StopRead?
    ensures After(s, [Probe(probe, 0), Advance(probe), Advance(id)])
         == Some(s.(owner := Some(probe),
                    procs := s.procs[probe := Proc(0, ProbeLocked)]
                                    [id := s.procs[id].(stage := StopRefused(s.procs[id].stage.recorded))]))
  {
    var asking := s.(procs := s.procs[probe := Proc(0, ProbeOpened)]);
    var locked := s.(procs := s.procs[probe := Proc(0, ProbeLocked)], owner := Some(probe));
    assert Apply(s, Probe(probe, 0)) == asking && Apply(asking, Advance(probe)) == locked;
    AfterThree(s, Probe(probe, 0), Advance(probe), Advance(id));
  }

  /** Nobody's daemon is up, but somebody else's probe has the lock for a moment: the request
      takes that for a daemon and signals the PID of the one that is gone. */
  lemma ProbeMakesStaleSignal(daemon: nat, stopper: nat)
    requires 0 < daemon <= MAX_INT && 0 < stopper <= MAX_INT && daemon != stopper
    ensures var run := ReadsAndCrashes(daemon, stopper) + [Probe(2, 0), Advance(2), Advance(1)];
            && After(INITIAL, run).Some?
            && var s := After(INITIAL, run).value;
               && AboutToSignal(s, 1) && s.procs[1].stage.recorded == daemon
               && CurrentDaemon(s) == None && (forall id :: id in s.procs ==> s.procs[id].stage != Held)
  {
    RecordOutlivesDaemon(daemon, stopper);
    var s := After(INITIAL, ReadsAndCrashes(daemon, stopper)).value;
    ProbeRefusesStop(s, 2, 1);
    AfterConcat(INITIAL, ReadsAndCrashes(daemon, stopper), [Probe(2, 0), Advance(2), Advance(1)]);
  }

  /** A successor comes up between the read and the probe: the request signals its predecessor. */
  lemma SuccessorMakesStaleSignal(daemon: nat, stopper: nat, successor: nat)
    requires 0 < daemon <= MAX_INT && 0 < stopper <= MAX_INT && 0 < successor <= MAX_INT
    requires daemon != stopper && daemon != successor
    ensures var run := ReadsAndCrashes(daemon, stopper) + (Acquires(2, successor) + [Advance(1)]);
            && After(INITIAL, run).Some?
            && var s := After(INITIAL, run).value;
               AboutToSignal(s, 1) && s.procs[1].stage.recorded == daemon && CurrentDaemon(s) == Some(successor)
  {
    RecordOutlivesDaemon(daemon, stopper);
    var s := After(INITIAL, ReadsAndCrashes(daemon, stopper)).value;
    AcquireSucceeds(s, 2, successor);
    var held := After(s, Acquires(2, successor)).value;
    var last := [Advance(1)];
    assert last[0..] == last;
    AfterDrop(held, last, 0);
    AfterConcat(s, Acquires(2, successor), last);
    AfterConcat(INITIAL, ReadsAndCrashes(daemon, stopper), Acquires(2, successor) + last);
  }

  // ----- one caller without interleaving

  datatype KillOutcome = Delivered | NoSuchProcess | Denied

  datatype Failure =
    | DaemonRunning | Malformed | OwnDaemon | NotRecorded | SignalFailed
    | AcquireFailed | ReleaseFailed | ProbeFailed | ClearFailed | ReadFailed

  /** The step of an Acquire that fails: before the lock is requested, in the request itself,
      or while the record is written. */
  datatype AcquireFault =
    | MakingDirectory | Opening | Locking | Truncating | Rewinding | Writing(written: nat) | Syncing

  datatype ReleaseFault = ClearingRecord | ClosingFile

  /** The step of a probe that fails, other than because the file is missing or locked. */
  datatype ProbeFault = OpeningProbe | Asking

  datatype ClearFault = OpeningStale | LockingStale | TruncatingStale

  /** The part of a stop request that fails. */
  datatype StopFault = AtRead | AtProbe(probe: ProbeFault) | AtClear(clear: ClearFault)

  /** Whether the probe of a lock that this object does not own fails. */
  predicate ProbeFails(record: Option<string>, fault: Option<ProbeFault>) {
    fault == Some(OpeningProbe) || (fault == Some(Asking) && record.Some?)
  }

  /** Whether clearing fails: of a missing file only the opening is tried, of a locked one all
      but the truncation. */
  predicate ClearFails(record: Option<string>, locked: bool, fault: Option<ClearFault>) {
    || fault == Some(OpeningStale)
    || (fault == Some(LockingStale) && record.Some?)
    || (fault == Some(TruncatingStale) && record.Some? && !locked)
  }

  function ProbeFaultOf(fault: Option<StopFault>): Option<ProbeFault> {
    if fault.Some? && fault.value.AtProbe? then Some(fault.value.probe) else None
  }

  function ClearFaultOf(fault: Option<StopFault>): Option<ClearFault> {
    if fault.Some? && fault.value.AtClear? then Some(fault.value.clear) else None
  }

  /** Whether the request gets as far as knowing the record and whether the lock is held. */
  predicate Informed(record: Option<string>, owned: bool, fault: Option<StopFault>) {
    fault != Some(AtRead) && Parse(record).Ok? && (owned || !ProbeFails(record, ProbeFaultOf(fault)))
  }

  /** Whether the fault happens before anybody else's lock would be noticed. */
  predicate BeforeLock(fault: AcquireFault) {
    fault == MakingDirectory || fault == Opening || fault == Locking
  }

  /** Whether the record is left alone, ... */
  predicate Untouched(fault: Option<AcquireFault>) {
    fault.Some? && (BeforeLock(fault.value) || fault.value == Truncating)
  }

  /** ... except that opening the file creates it. */
  predicate Opens(fault: Option<AcquireFault>) {
    fault != Some(MakingDirectory) && fault != Some(Opening)
  }

  /** The session's record and lock, and the signals sent so far. */
  class Session {
    var record: Option<string>
    var holder: Option<nat>        // the process that holds the lock
    var signals: seq<nat>

    constructor (record: Option<string>)
      ensures this.record == record && holder == None && signals == []
    {
      this.record := record;
      holder := None;
      signals := [];
    }

    /** The lock is free, or held by a daemon whose Acquire has returned: `HeldRecordIsIntact`
        says what the record then is. */
    ghost predicate Settled()
      reads this
    {
      holder.Some? ==> 0 < holder.value <= MAX_INT && record == Some(PidText(holder.value))
    }
  }

  class Lock {
    const session: Session
    const pid: nat
    var owned: bool                // whether this object keeps the locked file

    ghost predicate Valid()
      reads this, session
    {
      && 0 < pid <= MAX_INT
      && session.Settled()
      && (owned ==> session.holder == Some(pid))
    }

    constructor (session: Session, pid: nat)
      requires session.Settled() && 0 < pid <= MAX_INT
      ensures Valid() && this.session == session && this.pid == pid && !owned
    {
      this.session := session;
      this.pid := pid;
      owned := false;
    }

    /** `fault` is the step that fails, if one does. */
    method Acquire(fault: Option<AcquireFault>) returns (result: Result<(), Failure>)
      requires Valid() && (fault.Some? && fault.value.Writing? ==> fault.value.written <= |PidText(pid)|)
      modifies this`owned, session
      ensures Valid() && session.signals == old(session.signals)
      ensures result.Ok? <==> old(owned) || (old(session.holder) == None && fault == None)
      ensures result.Ok? ==> owned && session.holder == Some(pid) && session.record == Some(PidText(pid))
      ensures result.Err? ==> !owned && session.holder == old(session.holder)
      ensures result == Err(DaemonRunning) <==>
                !old(owned) && old(session.holder).Some? && (fault.Some? ==> !BeforeLock(fault.value))
      ensures result.Err? && result != Err(DaemonRunning) ==> result == Err(AcquireFailed) && fault.Some?
      ensures result.Err? && (old(session.holder).Some? || Untouched(fault)) ==>
                session.record == if old(session.record) == None && Opens(fault) then Some("") else old(session.record)
      ensures result == Err(AcquireFailed) && !Untouched(fault) ==>
                exists n: nat :: n <= |PidText(pid)| && session.record == Some(PidText(pid)[..n])
    {
      if owned {
        return Ok(());
      }
      if fault == Some(MakingDirectory) || fault == Some(Opening) {
        return Err(AcquireFailed);
      }
      if session.record == None {
        session.record := Some("");
      }
      if fault == Some(Locking) {
        return Err(AcquireFailed);
      }
      if session.holder.Some? {
        return Err(DaemonRunning);
      }
      var written, failed := WritePID(fault);
      if failed {
        return Err(AcquireFailed);
      }
      assert PidText(pid)[..written] == PidText(pid);
      session.holder := Some(pid);
      owned := true;
      return Ok(());
    }

    /** Truncates the locked file, rewinds it, and writes and syncs the record. */
    method WritePID(fault: Option<AcquireFault>) returns (ghost written: nat, failed: bool)
      requires 0 < pid <= MAX_INT && session.holder == None && session.record.Some?
      requires fault.Some? && fault.value.Writing? ==> fault.value.written <= |PidText(pid)|
      modifies session`record
      ensures failed <==> fault.Some? && !BeforeLock(fault.value)
      ensures written <= |PidText(pid)|
      ensures session.record == if fault == Some(Truncating) then old(session.record) else Some(PidText(pid)[..written])
      ensures !failed ==> written == |PidText(pid)|
    {
      written := 0;
      if fault == Some(Truncating) {
        return written, true;
      }
      session.record := Some("");
      assert PidText(pid)[..0] == "";
      if fault == Some(Rewinding) {
        return written, true;
      }
      if fault.Some? && fault.value.Writing? {
        session.record := Some(PidText(pid)[..fault.value.written]);
        return fault.value.written, true;
      }
      session.record := Some(PidText(pid));
      assert PidText(pid)[..|PidText(pid)|] == PidText(pid);
      return |PidText(pid)|, fault == Some(Syncing);
    }

    /** The lock is given up whether or not the record could be cleared. */
    method Release(fault: Option<ReleaseFault>) returns (result: Result<(), Failure>)
      requires Valid()
      modifies this`owned, session
      ensures Valid() && !owned && session.signals == old(session.signals)
      ensures !old(owned) ==>
                result == Ok(()) && session.holder == old(session.holder) && session.record == old(session.record)
      ensures old(owned) ==> session.holder == None && (result.Ok? <==> fault == None)
      ensures old(owned) ==>
                session.record == if fault == Some(ClearingRecord) then Some(PidText(pid)) else Some("")
      ensures result.Err? ==> result == Err(ReleaseFailed)
    {
      if !owned {
        return Ok(());
      }
      owned := false;
      if fault != Some(ClearingRecord) {
        session.record := Some("");
      }
      session.holder := None;
      return if fault.Some? then Err(ReleaseFailed) else Ok(());
    }

    /** Knows without a probe when this object owns the lock. */
    method LockHeld(fault: Option<ProbeFault>) returns (result: Result<bool, Failure>)
      requires Valid()
      ensures result.Ok? <==> owned || !ProbeFails(session.record, fault)
      ensures result.Ok? ==> (result.value <==> session.holder.Some?)
      ensures result.Err? ==> result == Err(ProbeFailed)
    {
      if owned {
        return Ok(true);
      }
      if fault == Some(OpeningProbe) {
        return Err(ProbeFailed);
      }
      if session.record == None {
        return Ok(false);
      }
      if fault == Some(Asking) {
        return Err(ProbeFailed);
      }
      return Ok(session.holder.Some?);
    }

    method ClearStalePID(fault: Option<ClearFault>) returns (result: Result<(), Failure>)
      requires Valid()
      modifies session
      ensures Valid() && session.holder == old(session.holder) && session.signals == old(session.signals)
      ensures session.record
           == if old(session.holder) == None && old(session.record).Some? && fault == None then Some("")
              else old(session.record)
      ensures result.Ok? <==> !ClearFails(old(session.record), old(session.holder).Some?, fault)
      ensures result.Err? ==> result == Err(ClearFailed)
    {
      if fault == Some(OpeningStale) {
        return Err(ClearFailed);
      }
      if session.record == None {
        return Ok(());
      }
      if fault == Some(LockingStale) {
        return Err(ClearFailed);
      }
      if session.holder.Some? {
        return Ok(());
      }
      assert fault.Some? ==> fault.value.OpeningStale? || fault.value.LockingStale? || fault.value.TruncatingStale?;
      if fault == Some(TruncatingStale) {
        return Err(ClearFailed);
      }
      session.record := Some("");
      return Ok(());
    }

    /** Signals exactly the holder of the lock, never anybody when the lock is free, and never
        this process.  A well-formed record of a free lock is left empty, unless a step fails. */
    method SignalStop(kill: nat -> KillOutcome, fault: Option<StopFault>) returns (result: Result<bool, Failure>)
      requires Valid()
      modifies session
      ensures Valid() && session.holder == old(session.holder)
      ensures session.signals == old(session.signals)
              + (if old(session.holder).Some? && old(session.holder).value != pid
                    && Informed(old(session.record), owned, fault)
                 then [old(session.holder).value] else [])
      ensures session.record
           == if old(session.holder) == None && old(Parse(session.record)).Ok? && old(Parse(session.record)).value != 0
                 && fault == None
              then Some("") else old(session.record)
      ensures fault != Some(AtRead) && old(Parse(session.record)).Err? ==> result == Err(Malformed)
      ensures fault == Some(AtRead) ==> result == Err(ReadFailed)
      ensures (&& fault != Some(AtRead) && old(Parse(session.record)).Ok?
               && !Informed(old(session.record), owned, fault)) ==> result == Err(ProbeFailed)
      ensures Informed(old(session.record), owned, fault) ==>
                result == match old(session.holder)
                          case None =>
                            if old(Parse(session.record)).value != 0
                               && ClearFails(old(session.record), false, ClearFaultOf(fault)) then Err(ClearFailed)
                            else Ok(false)
                          case Some(holder) =>
                            if holder == pid then Err(OwnDaemon)
                            else match kill(holder)
                                 case Delivered => Ok(true)
                                 case NoSuchProcess =>
                                   if ClearFails(old(session.record), true, ClearFaultOf(fault)) then Err(ClearFailed)
                                   else Ok(false)
                                 case Denied => Err(SignalFailed)
    {
      if session.holder.Some? {
        ParseOwnRecord(session.holder.value);
      }
      if fault == Some(AtRead) {
        return Err(ReadFailed);
      }
      var recorded := Parse(session.record);
      if recorded.Err? {
        return Err(Malformed);
      }
      assert fault.Some? ==> fault.value.AtProbe? || fault.value.AtClear?;
      assert ProbeFaultOf(fault).Some? ==> fault.value.probe.OpeningProbe? || fault.value.probe.Asking?;
      var held := LockHeld(ProbeFaultOf(fault));
      if held.Err? {
        return Err(ProbeFailed);
      }
      if !held.value {
        result := Ok(false);
        if recorded.value != 0 {
          result := Clear(fault);
        }
        return result;
      }
      if recorded.value == 0 {
        return Err(NotRecorded);
      }
      if recorded.value == pid {
        return Err(OwnDaemon);
      }
      session.signals := session.signals + [recorded.value];
      match kill(recorded.value)
      case Delivered => return Ok(true);
      case NoSuchProcess =>
        result := Clear(fault);
      case Denied => return Err(SignalFailed);
    }

    /** Clearing at the end of a stop request that no process was there for. */
    method Clear(fault: Option<StopFault>) returns (result: Result<bool, Failure>)
      requires Valid()
      modifies session
      ensures Valid() && session.holder == old(session.holder) && session.signals == old(session.signals)
      ensures session.record
           == if old(session.holder) == None && old(session.record).Some? && ClearFaultOf(fault) == None then Some("")
              else old(session.record)
      ensures result == if ClearFails(old(session.record), old(session.holder).Some?, ClearFaultOf(fault))
                        then Err(ClearFailed) else Ok(false)
    {
      var cleared := ClearStalePID(ClearFaultOf(fault));
      result := if cleared.Err? then Err(ClearFailed) else Ok(false);
    }
  }
}
