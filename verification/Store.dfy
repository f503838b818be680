/** The label-history file: a locked read-modify-write with an atomic replacement.

    JSON is left uninterpreted: a codec is any pair of functions for which decoding an
    encoded map gives the map back, so equal maps have equal bytes and different maps
    different bytes. */
module Store {
  import opened Common
  import opened Model

  type Bytes = string

  datatype Codec = Codec(encode: Tabs -> Bytes, decode: Bytes -> Option<Tabs>)

  ghost predicate Canonical(c: Codec) {
    forall t: Tabs :: c.decode(c.encode(t)) == Some(t)
  }

  /** The caller's mutation: whether it intends a change, and the map it leaves. */
  type Mutation = Tabs -> (bool, Tabs)

  /** What a reader makes of the file; a missing file is an empty session. */
  function View(c: Codec, file: Option<Bytes>): Option<Tabs> {
    if file == None then Some(map[]) else c.decode(file.value)
  }

  // ----- one update, step by step, among concurrent ones

  type Id = nat

  datatype Stage =
    | Requested
    | Locked
    | HasRead(tabs: Tabs)
    | Encoded(bytes: Bytes)
    | TempCreated(bytes: Bytes)
    | TempWritten(bytes: Bytes)
    | Unlocking(rewritten: bool)
    | LoadRequested
    | SharedLocked
    | Loaded(seen: Option<Tabs>)
    | Returned(rewritten: bool)
    | Aborted

  datatype Proc = Proc(mutate: Mutation, stage: Stage)

  datatype State = State(
    file: Option<Bytes>,
    temps: map<Id, Bytes>,
    writer: Option<Id>,
    readers: set<Id>,
    procs: map<Id, Proc>,
    order: seq<Id>,            // exclusive locks, in the order they were granted
    committed: set<Id>)        // updates whose mutation has taken effect

  datatype Action =
    | StartUpdate(id: Id, mutate: Mutation)
    | StartLoad(id: Id, mutate: Mutation)
    | Advance(id: Id)
    | PartialWrite(id: Id, content: Bytes)   // part of the temporary file has been written
    | Fail(id: Id)                           // an I/O error; the deferred cleanup runs
    | Crash(id: Id)

  predicate Critical(stage: Stage) {
    match stage
    case Locked => true
    case HasRead(_) => true
    case Encoded(_) => true
    case TempCreated(_) => true
    case TempWritten(_) => true
    case Unlocking(_) => true
    case _ => false
  }

  predicate Running(stage: Stage) {
    Critical(stage) || stage.Requested? || stage.LoadRequested? || stage.SharedLocked?
  }

  predicate Enabled(s: State, a: Action) {
    match a
    case StartUpdate(id, _) => id !in s.procs
    case StartLoad(id, _) => id !in s.procs
    case Advance(id) =>
      && id in s.procs && Running(s.procs[id].stage)
      && (s.procs[id].stage.Requested? ==> s.writer == None && s.readers == {})
      && (s.procs[id].stage.LoadRequested? ==> s.writer == None)
    case PartialWrite(id, _) => id in s.procs && s.procs[id].stage.TempCreated?
    case Fail(id) => id in s.procs && Running(s.procs[id].stage) && !s.procs[id].stage.Unlocking?
    case Crash(id) => id in s.procs && Running(s.procs[id].stage)
  }

  function At(s: State, id: Id, stage: Stage): State
    requires id in s.procs
  {
    s.(procs := s.procs[id := s.procs[id].(stage := stage)])
  }

  /** Gives up whatever lock the process holds. */
  function Unlock(s: State, id: Id, stage: Stage): State
    requires id in s.procs
  {
    At(s, id, stage).(writer := if s.writer == Some(id) then None else s.writer, readers := s.readers - {id})
  }

  function AdvanceStep(c: Codec, s: State, id: Id): State
    requires Enabled(s, Advance(id))
  {
    var p := s.procs[id];
    match p.stage
    case Requested => At(s, id, Locked).(writer := Some(id), order := s.order + [id])
    case Locked =>
      if View(c, s.file) == None then Unlock(s, id, Aborted) else At(s, id, HasRead(View(c, s.file).value))
    case HasRead(tabs) =>
      var (intended, result) := p.mutate(tabs);
      if intended then At(s, id, Encoded(c.encode(result))) else At(s, id, Unlocking(false))
    case Encoded(bytes) =>
      if s.file == Some(bytes) then At(s, id, Unlocking(false)).(committed := s.committed + {id})
      else At(s, id, TempCreated(bytes)).(temps := s.temps[id := ""])
    case TempCreated(bytes) => At(s, id, TempWritten(bytes)).(temps := s.temps[id := bytes])
    case TempWritten(bytes) =>
      if id in s.temps then
        At(s, id, Unlocking(true)).(file := Some(s.temps[id]), temps := s.temps - {id}, committed := s.committed + {id})
      else s
    case Unlocking(rewritten) => Unlock(s, id, Returned(rewritten))
    case LoadRequested => At(s, id, SharedLocked).(readers := s.readers + {id})
    case SharedLocked => Unlock(s, id, Loaded(View(c, s.file)))
    case _ => s
  }

  function Apply(c: Codec, s: State, a: Action): State
    requires Enabled(s, a)
  {
    match a
    case StartUpdate(id, mutate) => s.(procs := s.procs[id := Proc(mutate, Requested)])
    case StartLoad(id, mutate) => s.(procs := s.procs[id := Proc(mutate, LoadRequested)])
    case Advance(id) => AdvanceStep(c, s, id)
    case PartialWrite(id, content) => s.(temps := s.temps[id := content])
    case Fail(id) => Unlock(s, id, Aborted).(temps := s.temps - {id})
    case Crash(id) => Unlock(s, id, Aborted)
  }

  /** The mutations of the committed updates, one after another in lock order. */
  function Serial(order: seq<Id>, committed: set<Id>, procs: map<Id, Proc>, start: Tabs): Tabs
    requires forall id | id in order :: id in procs
  {
    if order == [] then start
    else
      var last := order[|order| - 1];
      var before := Serial(order[..|order| - 1], committed, procs, start);
      if last in committed then procs[last].mutate(before).1 else before
  }

  /** Where an update stands with respect to the map `before` it. */
  predicate ProcInv(c: Codec, s: State, id: Id, before: Option<Tabs>)
    requires id in s.procs
  {
    var p := s.procs[id];
    && (Critical(p.stage) <==> s.writer == Some(id))
    && (p.stage.SharedLocked? <==> id in s.readers)
    && (id in s.committed ==> p.stage.Unlocking? || p.stage.Returned? || p.stage.Aborted?)
    && (p.stage.Requested? ==> id !in s.order)
    && (match p.stage
        case HasRead(tabs) => before == Some(tabs)
        case Encoded(bytes) => Intended(c, p.mutate, before, bytes)
        case TempCreated(bytes) => Intended(c, p.mutate, before, bytes) && s.file != Some(bytes)
        case TempWritten(bytes) =>
          && Intended(c, p.mutate, before, bytes) && s.file != Some(bytes)
          && id in s.temps && s.temps[id] == bytes
        case _ => true)
  }

  predicate Intended(c: Codec, mutate: Mutation, before: Option<Tabs>, bytes: Bytes) {
    before.Some? && mutate(before.value).0 && bytes == c.encode(mutate(before.value).1)
  }

  /** The file shows exactly the committed mutations, in lock order. */
  ghost predicate HistoryInv(c: Codec, s: State, start: Option<Tabs>) {
    && (forall id | id in s.order :: id in s.procs)
    && (forall i, j | 0 <= i < j < |s.order| :: s.order[i] != s.order[j])
    && (forall id | id in s.committed :: id in s.order)
    && (match start
        case None => View(c, s.file) == None && s.committed == {}
        case Some(tabs) => View(c, s.file) == Some(Serial(s.order, s.committed, s.procs, tabs)))
  }

  ghost predicate LockInv(s: State) {
    && (s.writer.Some? ==> s.readers == {} && s.order != [] && s.writer.value == s.order[|s.order| - 1])
    && (forall id | id in s.readers :: id in s.procs)
  }

  ghost predicate Inv(c: Codec, s: State, start: Option<Tabs>) {
    && HistoryInv(c, s, start)
    && LockInv(s)
    && (forall id | id in s.procs :: ProcInv(c, s, id, View(c, s.file)))
  }

  lemma {:induction false} SerialFrame(order: seq<Id>, committed: set<Id>, committed': set<Id>,
                                       procs: map<Id, Proc>, procs': map<Id, Proc>, start: Tabs)
    requires forall id | id in order :: id in procs && id in procs' && procs[id].mutate == procs'[id].mutate
    requires forall id | id in order :: id in committed <==> id in committed'
    ensures Serial(order, committed, procs, start) == Serial(order, committed', procs', start)
  {
    if order != [] {
      assert order[|order| - 1] in order;
      SerialFrame(order[..|order| - 1], committed, committed', procs, procs', start);
    }
  }

  /** The last update of the order commits. */
  lemma SerialCommit(order: seq<Id>, committed: set<Id>, procs: map<Id, Proc>, procs': map<Id, Proc>,
                     last: Id, start: Tabs)
    requires order != [] && order[|order| - 1] == last && last !in committed
    requires forall i, j | 0 <= i < j < |order| :: order[i] != order[j]
    requires forall id | id in order :: id in procs && id in procs' && procs[id].mutate == procs'[id].mutate
    ensures Serial(order, committed + {last}, procs', start)
         == procs[last].mutate(Serial(order, committed, procs, start)).1
  {
    SerialFrame(order[..|order| - 1], committed, committed + {last}, procs, procs', start);
    assert last in order;
  }

  /** A process that does not act keeps its place. */
  lemma OthersKeepInv(c: Codec, s: State, a: Action, id: Id, start: Option<Tabs>)
    requires Canonical(c) && Inv(c, s, start) && Enabled(s, a) && id in s.procs && id != a.id
    ensures var t := Apply(c, s, a);
            id in t.procs && t.procs[id] == s.procs[id] && ProcInv(c, t, id, View(c, t.file))
  {
    assert ProcInv(c, s, id, View(c, s.file));
    if a.id in s.procs {
      assert ProcInv(c, s, a.id, View(c, s.file));
    }
  }

  /** Whether an update is past its lock and before its unlock. */
  predicate Updating(stage: Stage) { Critical(stage) && !stage.Unlocking? }

  lemma UpdateKeepsProc(c: Codec, s: State, id: Id)
    requires Canonical(c) && Enabled(s, Advance(id)) && ProcInv(c, s, id, View(c, s.file))
    requires Updating(s.procs[id].stage)
    ensures var t := AdvanceStep(c, s, id); id in t.procs && ProcInv(c, t, id, View(c, t.file))
  {
  }

  lemma AdvanceKeepsProc(c: Codec, s: State, id: Id)
    requires Canonical(c) && Enabled(s, Advance(id)) && ProcInv(c, s, id, View(c, s.file))
    ensures var t := AdvanceStep(c, s, id); id in t.procs && ProcInv(c, t, id, View(c, t.file))
  {
    if Updating(s.procs[id].stage) {
      UpdateKeepsProc(c, s, id);
    }
  }

  /** The process that acts keeps its place, and the file only ever changes by the commit of
      a complete encoding. */
  lemma ActorKeepsInv(c: Codec, s: State, a: Action, start: Option<Tabs>)
    requires Canonical(c) && Inv(c, s, start) && Enabled(s, a)
    ensures var t := Apply(c, s, a); a.id in t.procs && ProcInv(c, t, a.id, View(c, t.file))
  {
    if a.id in s.procs {
      assert ProcInv(c, s, a.id, View(c, s.file));
      if a.Advance? {
        AdvanceKeepsProc(c, s, a.id);
      }
    } else {
      assert s.writer != Some(a.id) && a.id !in s.readers && a.id !in s.committed;
    }
  }

  /** What a step of `id` does to the history: it may be granted the lock, or commit, and
      the commit makes the file show its mutation of what it showed before. */
  ghost predicate HistoryStep(c: Codec, s: State, t: State, id: Id) {
    && (forall i | i in s.procs :: i in t.procs && t.procs[i].mutate == s.procs[i].mutate)
    && id in t.procs
    && (t.order == s.order || (t.order == s.order + [id] && id !in s.order && t.committed == s.committed))
    && if t.committed == s.committed then View(c, t.file) == View(c, s.file)
       else
         && s.order != [] && id == s.order[|s.order| - 1] && id in s.procs && id !in s.committed
         && t.order == s.order && t.committed == s.committed + {id}
         && View(c, s.file).Some?
         && View(c, t.file) == Some(s.procs[id].mutate(View(c, s.file).value).1)
  }

  lemma AdvanceIsHistoryStep(c: Codec, s: State, id: Id, start: Option<Tabs>)
    requires Canonical(c) && Inv(c, s, start) && Enabled(s, Advance(id))
    ensures HistoryStep(c, s, AdvanceStep(c, s, id), id)
  {
    assert ProcInv(c, s, id, View(c, s.file));
  }

  lemma StepIsHistoryStep(c: Codec, s: State, a: Action, start: Option<Tabs>)
    requires Canonical(c) && Inv(c, s, start) && Enabled(s, a)
    ensures HistoryStep(c, s, Apply(c, s, a), a.id)
  {
    if a.Advance? {
      AdvanceIsHistoryStep(c, s, a.id, start);
    }
  }

  lemma HistoryKeepsInv(c: Codec, s: State, t: State, id: Id, start: Option<Tabs>)
    requires Inv(c, s, start) && HistoryStep(c, s, t, id)
    ensures HistoryInv(c, t, start)
  {
    assert forall i | i in t.order :: i in s.order || i == id;
    assert forall i | i in s.order :: i in t.order;
    if start.Some? {
      if t.committed != s.committed {
        SerialCommit(s.order, s.committed, s.procs, t.procs, id, start.value);
      } else {
        SerialFrame(s.order, s.committed, s.committed, s.procs, t.procs, start.value);
        if t.order != s.order {
          assert t.order[..|s.order|] == s.order;
        }
      }
    }
  }

  lemma NextKeepsLock(c: Codec, s: State, a: Action, start: Option<Tabs>)
    requires Inv(c, s, start) && Enabled(s, a)
    ensures LockInv(Apply(c, s, a))
  {
    if a.id in s.procs {
      assert ProcInv(c, s, a.id, View(c, s.file));
    }
  }

  lemma NextKeepsInv(c: Codec, s: State, a: Action, start: Option<Tabs>)
    requires Canonical(c) && Inv(c, s, start) && Enabled(s, a)
    ensures Inv(c, Apply(c, s, a), start)
  {
    var t := Apply(c, s, a);
    ActorKeepsInv(c, s, a, start);
    StepIsHistoryStep(c, s, a, start);
    HistoryKeepsInv(c, s, t, a.id, start);
    NextKeepsLock(c, s, a, start);
    forall id | id in t.procs ensures ProcInv(c, t, id, View(c, t.file)) {
      if id != a.id {
        ActedOnlyOnItself(c, s, a, id);
        OthersKeepInv(c, s, a, id, start);
      }
    }
  }

  lemma ActedOnlyOnItself(c: Codec, s: State, a: Action, id: Id)
    requires Enabled(s, a) && id in Apply(c, s, a).procs && id != a.id
    ensures id in s.procs
  {
  }

  // ----- main results

  function After(c: Codec, s: State, run: seq<Action>): Option<State>
    decreases |run|
  {
    if run == [] then Some(s)
    else if Enabled(s, run[0]) then After(c, Apply(c, s, run[0]), run[1..]) else None
  }

  lemma {:induction false} RunKeepsInv(c: Codec, s: State, run: seq<Action>, start: Option<Tabs>)
    requires Canonical(c) && Inv(c, s, start)
    ensures After(c, s, run).Some? ==> Inv(c, After(c, s, run).value, start)
    decreases |run|
  {
    if run != [] && Enabled(s, run[0]) {
      NextKeepsInv(c, s, run[0], start);
      RunKeepsInv(c, Apply(c, s, run[0]), run[1..], start);
    }
  }

  function Initial(file: Option<Bytes>): State {
    State(file, map[], None, {}, map[], [], {})
  }

  /** In every interleaving of updates and loads, with errors and crashes at any step, the
      file shows exactly what the committed mutations give when applied one after another in
      the order in which the exclusive lock was granted.  A file that cannot be decoded is
      never replaced. */
  lemma UpdatesAreSerial(c: Codec, file: Option<Bytes>, run: seq<Action>)
    requires Canonical(c) && After(c, Initial(file), run).Some?
    ensures var s := After(c, Initial(file), run).value;
            && (forall id | id in s.order :: id in s.procs)
            && (match View(c, file)
                case Some(start) => View(c, s.file) == Some(Serial(s.order, s.committed, s.procs, start))
                case None => View(c, s.file) == None && s.committed == {})
  {
    RunKeepsInv(c, Initial(file), run, View(c, file));
  }

  /** Whatever step is taken in a reachable state, an error or a crash included, the file
      stays as it is or becomes the whole encoding of an intended mutation of what it showed,
      which then differs from the old bytes. */
  lemma FileIsOldOrNew(c: Codec, file: Option<Bytes>, run: seq<Action>, a: Action)
    requires Canonical(c) && After(c, Initial(file), run).Some?
    requires Enabled(After(c, Initial(file), run).value, a)
    ensures var s := After(c, Initial(file), run).value;
            var t := Apply(c, s, a);
            || t.file == s.file
            || (&& a.Advance? && View(c, s.file).Some?
                && var (intended, result) := s.procs[a.id].mutate(View(c, s.file).value);
                   intended && t.file == Some(c.encode(result)) && View(c, t.file) == Some(result))
  {
    RunKeepsInv(c, Initial(file), run, View(c, file));
    var s := After(c, Initial(file), run).value;
    if a.id in s.procs {
      assert ProcInv(c, s, a.id, View(c, s.file));
    }
  }

  /** A load that reads does so while no update is between its lock and its unlock. */
  lemma LoadSeesWholeUpdates(c: Codec, file: Option<Bytes>, run: seq<Action>, id: Id)
    requires Canonical(c) && After(c, Initial(file), run).Some?
    requires var s := After(c, Initial(file), run).value; id in s.procs && s.procs[id].stage == SharedLocked
    ensures var s := After(c, Initial(file), run).value;
            && Apply(c, s, Advance(id)).procs[id].stage == Loaded(View(c, s.file))
            && forall other :: other in s.procs ==> !Critical(s.procs[other].stage)
  {
    RunKeepsInv(c, Initial(file), run, View(c, file));
    var s := After(c, Initial(file), run).value;
    assert ProcInv(c, s, id, View(c, s.file));
    forall other | other in s.procs ensures !Critical(s.procs[other].stage) {
      assert ProcInv(c, s, other, View(c, s.file));
    }
  }

  // ----- undisturbed updates and loads

  function Advances(id: Id, n: nat): seq<Action> {
    if n == 0 then [] else [Advance(id)] + Advances(id, n - 1)
  }

  lemma AfterCons(c: Codec, s: State, a: Action, rest: seq<Action>)
    requires Enabled(s, a)
    ensures After(c, s, [a] + rest) == After(c, Apply(c, s, a), rest)
  {
    assert ([a] + rest)[1..] == rest;
  }

  /** The state in which the update has the lock and is at the given stage. */
  function Holding(s: State, id: Id, mutate: Mutation, stage: Stage): State {
    s.(procs := s.procs[id := Proc(mutate, stage)], writer := Some(id), order := s.order + [id])
  }

  /** The state in which it has given the lock back. */
  function Ended(s: State, id: Id, mutate: Mutation, stage: Stage): State {
    s.(procs := s.procs[id := Proc(mutate, stage)], order := s.order + [id])
  }

  function Replaced(s: State, id: Id, bytes: Bytes): State {
    s.(file := Some(bytes), committed := s.committed + {id})
  }

  lemma TakesLock(c: Codec, s: State, id: Id, mutate: Mutation, rest: seq<Action>)
    requires s.writer == None && s.readers == {} && id !in s.procs
    ensures After(c, s, [StartUpdate(id, mutate)] + ([Advance(id)] + rest))
         == After(c, Holding(s, id, mutate, Locked), rest)
  {
    var requested := s.(procs := s.procs[id := Proc(mutate, Requested)]);
    AfterCons(c, s, StartUpdate(id, mutate), [Advance(id)] + rest);
    AfterCons(c, requested, Advance(id), rest);
    assert AdvanceStep(c, requested, id) == Holding(s, id, mutate, Locked);
  }

  lemma Moves(c: Codec, s: State, id: Id, mutate: Mutation, stage: Stage, next: State, rest: seq<Action>)
    requires Enabled(Holding(s, id, mutate, stage), Advance(id))
    requires next == AdvanceStep(c, Holding(s, id, mutate, stage), id)
    ensures After(c, Holding(s, id, mutate, stage), [Advance(id)] + rest) == After(c, next, rest)
  {
    AfterCons(c, Holding(s, id, mutate, stage), Advance(id), rest);
  }

  lemma GivesLockBack(c: Codec, s: State, id: Id, mutate: Mutation, rewritten: bool)
    requires s.writer == None && s.readers == {}
    ensures After(c, Holding(s, id, mutate, Unlocking(rewritten)), [Advance(id)] + [])
         == Some(Ended(s, id, mutate, Returned(rewritten)))
  {
    assert s.readers - {id} == s.readers;
    var t := Ended(s, id, mutate, Returned(rewritten));
    assert Holding(s, id, mutate, Unlocking(rewritten)).procs[id := Proc(mutate, Returned(rewritten))] == t.procs;
    Moves(c, s, id, mutate, Unlocking(rewritten), t, []);
  }

  /** From the lock to the decision. */
  lemma Decides(c: Codec, s: State, id: Id, mutate: Mutation, rest: seq<Action>)
    requires View(c, s.file).Some?
    ensures var (intended, result) := mutate(View(c, s.file).value);
            After(c, Holding(s, id, mutate, Locked), [Advance(id)] + ([Advance(id)] + rest))
            == After(c, Holding(s, id, mutate, if intended then Encoded(c.encode(result)) else Unlocking(false)), rest)
  {
    var tabs := View(c, s.file).value;
    var read := Holding(s, id, mutate, HasRead(tabs));
    assert Holding(s, id, mutate, Locked).procs[id := Proc(mutate, HasRead(tabs))] == read.procs;
    Moves(c, s, id, mutate, Locked, read, [Advance(id)] + rest);
    var (intended, result) := mutate(tabs);
    var stage := if intended then Encoded(c.encode(result)) else Unlocking(false);
    assert read.procs[id := Proc(mutate, stage)] == Holding(s, id, mutate, stage).procs;
    Moves(c, s, id, mutate, HasRead(tabs), Holding(s, id, mutate, stage), rest);
  }

  /** From an encoding that differs to the file replaced. */
  lemma Replaces(c: Codec, s: State, id: Id, mutate: Mutation, bytes: Bytes, rest: seq<Action>)
    requires s.file != Some(bytes) && id !in s.temps
    ensures After(c, Holding(s, id, mutate, Encoded(bytes)), [Advance(id)] + ([Advance(id)] + ([Advance(id)] + rest)))
         == After(c, Holding(Replaced(s, id, bytes), id, mutate, Unlocking(true)), rest)
  {
    var created := Holding(s.(temps := s.temps[id := ""]), id, mutate, TempCreated(bytes));
    assert Holding(s, id, mutate, Encoded(bytes)).procs[id := Proc(mutate, TempCreated(bytes))] == created.procs;
    Moves(c, s, id, mutate, Encoded(bytes), created, [Advance(id)] + ([Advance(id)] + rest));
    Writes(c, s, id, mutate, bytes, rest);
  }

  lemma Writes(c: Codec, s: State, id: Id, mutate: Mutation, bytes: Bytes, rest: seq<Action>)
    requires id !in s.temps
    ensures After(c, Holding(s.(temps := s.temps[id := ""]), id, mutate, TempCreated(bytes)),
                  [Advance(id)] + ([Advance(id)] + rest))
         == After(c, Holding(Replaced(s, id, bytes), id, mutate, Unlocking(true)), rest)
  {
    var empty, full := s.(temps := s.temps[id := ""]), s.(temps := s.temps[id := bytes]);
    var written := Holding(full, id, mutate, TempWritten(bytes));
    assert empty.temps[id := bytes] == full.temps;
    assert Holding(empty, id, mutate, TempCreated(bytes)).procs[id := Proc(mutate, TempWritten(bytes))]
        == written.procs;
    Moves(c, empty, id, mutate, TempCreated(bytes), written, [Advance(id)] + rest);
    var replaced := Holding(Replaced(s, id, bytes), id, mutate, Unlocking(true));
    assert full.temps - {id} == s.temps;
    assert written.procs[id := Proc(mutate, Unlocking(true))] == replaced.procs;
    Moves(c, full, id, mutate, TempWritten(bytes), replaced, rest);
  }

  /** An update that nothing disturbs does what it is for: a file that can be read ends up as
      the encoding of the mutation of what it showed, if that is intended, and is rewritten
      exactly if that differs from its bytes; the lock is free again. */
  lemma UpdateRuns(c: Codec, s: State, id: Id, mutate: Mutation)
    requires s.writer == None && s.readers == {} && id !in s.procs && id !in s.temps && View(c, s.file).Some?
    ensures var (intended, result) := mutate(View(c, s.file).value);
            var bytes := c.encode(result);
            && (!intended ==>
                  After(c, s, [StartUpdate(id, mutate)] + Advances(id, 4))
                  == Some(Ended(s, id, mutate, Returned(false))))
            && (intended && s.file == Some(bytes) ==>
                  After(c, s, [StartUpdate(id, mutate)] + Advances(id, 5))
                  == Some(Ended(s.(committed := s.committed + {id}), id, mutate, Returned(false))))
            && (intended && s.file != Some(bytes) ==>
                  After(c, s, [StartUpdate(id, mutate)] + Advances(id, 7))
                  == Some(Ended(Replaced(s, id, bytes), id, mutate, Returned(true))))
  {
    var (intended, result) := mutate(View(c, s.file).value);
    var bytes := c.encode(result);
    if !intended {
      AdvancesAre(id);
      TakesLock(c, s, id, mutate, Advances(id, 3));
      Decides(c, s, id, mutate, [Advance(id)] + []);
      GivesLockBack(c, s, id, mutate, false);
    } else if s.file == Some(bytes) {
      AdvancesAre(id);
      TakesLock(c, s, id, mutate, Advances(id, 4));
      Decides(c, s, id, mutate, [Advance(id)] + ([Advance(id)] + []));
      KeepsBytes(c, s, id, mutate, bytes);
    } else {
      AdvancesAre(id);
      TakesLock(c, s, id, mutate, Advances(id, 6));
      Decides(c, s, id, mutate, Advances(id, 4));
      Replaces(c, s, id, mutate, bytes, [Advance(id)] + []);
      GivesLockBack(c, Replaced(s, id, bytes), id, mutate, true);
    }
  }

  lemma KeepsBytes(c: Codec, s: State, id: Id, mutate: Mutation, bytes: Bytes)
    requires s.writer == None && s.readers == {} && s.file == Some(bytes)
    ensures After(c, Holding(s, id, mutate, Encoded(bytes)), [Advance(id)] + ([Advance(id)] + []))
         == Some(Ended(s.(committed := s.committed + {id}), id, mutate, Returned(false)))
  {
    var kept := s.(committed := s.committed + {id});
    var unlocking := Holding(kept, id, mutate, Unlocking(false));
    assert Holding(s, id, mutate, Encoded(bytes)).procs[id := Proc(mutate, Unlocking(false))] == unlocking.procs;
    Moves(c, s, id, mutate, Encoded(bytes), unlocking, [Advance(id)] + []);
    GivesLockBack(c, kept, id, mutate, false);
  }

  lemma AdvancesAre(id: Id)
    ensures Advances(id, 1) == [Advance(id)] + [] && Advances(id, 2) == [Advance(id)] + Advances(id, 1)
    ensures Advances(id, 3) == [Advance(id)] + Advances(id, 2) && Advances(id, 4) == [Advance(id)] + Advances(id, 3)
    ensures Advances(id, 5) == [Advance(id)] + Advances(id, 4) && Advances(id, 6) == [Advance(id)] + Advances(id, 5)
    ensures Advances(id, 7) == [Advance(id)] + Advances(id, 6)
  {
  }

  /** An update that fails leaves the file as it was, no temporary file, and the lock free. */
  lemma FailureCleansUp(c: Codec, s: State, id: Id)
    requires Enabled(s, Fail(id)) && s.writer == Some(id)
    ensures var t := Apply(c, s, Fail(id));
            t.file == s.file && t.temps == s.temps - {id} && t.writer == None && t.committed == s.committed
            && t.procs == s.procs[id := s.procs[id].(stage := Aborted)]
  {
  }

  /** A load likewise shows what the file shows, and leaves everything else as it was. */
  lemma LoadRuns(c: Codec, s: State, id: Id, mutate: Mutation)
    requires s.writer == None && id !in s.procs && id !in s.readers
    ensures After(c, s, [StartLoad(id, mutate)] + ([Advance(id)] + ([Advance(id)] + [])))
         == Some(s.(procs := s.procs[id := Proc(mutate, Loaded(View(c, s.file)))]))
  {
    var requested := s.(procs := s.procs[id := Proc(mutate, LoadRequested)]);
    AfterCons(c, s, StartLoad(id, mutate), [Advance(id)] + ([Advance(id)] + []));
    var shared := s.(procs := s.procs[id := Proc(mutate, SharedLocked)], readers := s.readers + {id});
    AfterCons(c, requested, Advance(id), [Advance(id)] + []);
    assert requested.procs[id := Proc(mutate, SharedLocked)] == shared.procs;
    AfterCons(c, shared, Advance(id), []);
    var loaded := s.(procs := s.procs[id := Proc(mutate, Loaded(View(c, s.file)))]);
    assert shared.procs[id := Proc(mutate, Loaded(View(c, s.file)))] == loaded.procs;
    assert shared.readers - {id} == s.readers;
  }

  // ----- one update on its own

  datatype WriteStep = CreateTemp | SetMode | WriteContent | SyncContent | CloseTemp | ReplaceFile

  /** What fails before the file has been read, ... */
  datatype AccessStep = MakeDirectory | OpenLock | TakeLock | ReadFile

  /** ... and in a whole update. */
  datatype UpdateFault = Access(access: AccessStep) | Encoding | Writing(step: WriteStep)

  datatype UpdateError = Undecodable | AccessError(access: AccessStep) | EncodeError | WriteError(step: WriteStep)

  class StateFile {
    const codec: Codec
    var file: Option<Bytes>
    var temporary: Option<Bytes>       // the temporary file next to it

    constructor (codec: Codec, file: Option<Bytes>)
      ensures this.codec == codec && this.file == file && temporary == None
    {
      this.codec := codec;
      this.file := file;
      temporary := None;
    }

    /** Takes the lock and reads.  A missing file reads as an empty session, whatever map was
        encoded into the file reads as that map, and without a fault nothing else fails but
        the decoding. */
    method Load(fault: Option<AccessStep>) returns (result: Result<Tabs, UpdateError>)
      ensures fault.Some? ==> result == Err(AccessError(fault.value))
      ensures fault == None && file == None ==> result == Ok(map[])
      ensures fault == None && Canonical(codec) ==>
                forall tabs :: file == Some(codec.encode(tabs)) ==> result == Ok(tabs)
      ensures result.Ok? ==> View(codec, file) == Some(result.value)
      ensures result.Err? && fault == None ==>
                result == Err(Undecodable) && file.Some? && codec.decode(file.value) == None
    {
      if fault.Some? {
        return Err(AccessError(fault.value));
      }
      if file == None {
        return Ok(map[]);
      }
      var tabs := codec.decode(file.value);
      result := if tabs == None then Err(Undecodable) else Ok(tabs.value);
    }

    /** `fault` is the step that fails, if one does.  A failed write leaves the old file and
        no temporary one. */
    method WriteAtomically(encoded: Bytes, fault: Option<WriteStep>) returns (error: Option<UpdateError>)
      requires temporary == None
      modifies this
      ensures temporary == None
      ensures if fault == None then error == None && file == Some(encoded)
              else error == Some(WriteError(fault.value)) && file == old(file)
    {
      error := if fault == None then None else Some(WriteError(fault.value));
      if fault == Some(CreateTemp) {
        return;
      }
      temporary := Some("");
      if fault == Some(SetMode) {
        temporary := None;
        return;
      }
      temporary := Some(encoded);
      if fault.Some? {          // WriteContent, SyncContent, CloseTemp or ReplaceFile
        temporary := None;
        return;
      }
      file, temporary := temporary, None;
    }

    /** The file is replaced exactly when it can be read, the mutation is intended, its
        encoding differs from the bytes on disk and nothing fails; every other result says
        which of these it was. */
    method Update(mutate: Mutation, fault: Option<UpdateFault>) returns (result: Result<bool, UpdateError>)
      requires temporary == None
      modifies this
      ensures temporary == None
      ensures result == Ok(true) <==>
                && old(View(codec, file)).Some?
                && mutate(old(View(codec, file)).value).0
                && Some(codec.encode(mutate(old(View(codec, file)).value).1)) != old(file)
                && fault == None
      ensures result == Ok(true) ==> file == Some(codec.encode(mutate(old(View(codec, file)).value).1)) != old(file)
      ensures result != Ok(true) ==> file == old(file)
      ensures forall step :: result == Err(AccessError(step)) <==> fault == Some(Access(step))
      ensures result == Err(Undecodable) <==>
                old(View(codec, file)) == None && !(fault.Some? && fault.value.Access?)
      ensures result == Err(EncodeError) <==>
                && old(View(codec, file)).Some?
                && mutate(old(View(codec, file)).value).0
                && fault == Some(Encoding)
      ensures forall step :: result == Err(WriteError(step)) <==>
                && old(View(codec, file)).Some?
                && mutate(old(View(codec, file)).value).0
                && Some(codec.encode(mutate(old(View(codec, file)).value).1)) != old(file)
                && fault == Some(Writing(step))
    {
      assert fault.Some? ==> fault.value.Access? || fault.value.Encoding? || fault.value.Writing?;
      var tabs := Load(if fault.Some? && fault.value.Access? then Some(fault.value.access) else None);
      if tabs.Err? {
        return Err(tabs.error);
      }
      var (intended, mutated) := mutate(tabs.value);
      if !intended {
        return Ok(false);
      }
      if fault == Some(Encoding) {
        return Err(EncodeError);
      }
      var encoded := codec.encode(mutated);
      if file == Some(encoded) {
        return Ok(false);
      }
      var error :=
        WriteAtomically(encoded, if fault.Some? && fault.value.Writing? then Some(fault.value.step) else None);
      if error.Some? {
        return Err(error.value);
      }
      return Ok(true);
    }
  }
}
