/** Whole runs of a session: reconciliation passes in small steps, one pass at a time, any of
    which may be interrupted, with tabs opened, closed, moved and renamed by the user between
    any two steps. */
module Sessions {
  import Fixpoint
  import opened Common
  import opened Model
  import opened Collector
  import opened Controller

  /** A tab as the server shows it, and whether the plugin wrote that label. */
  datatype Shown = Shown(labelText: string, own: bool)

  /** A pass under way: the loaded history, the snapshot, the tabs visited and what is to be
      committed.  `foreign` keeps, for the visited tabs, the last label that was not the one
      on record. */
  datatype Pass = Pass(
    job: Job, history: Tabs, snapshot: Option<Snapshot>, next: nat, updates: Tabs, foreign: map<TabID, string>)

  /** A rename that was sent, and what the pass went by. */
  datatype Sending = Sending(
    job: Job, context: Context, process: Option<ProcessInfo>, labelText: string, accepted: bool)

  datatype World = World(
    server: map<TabID, Shown>,
    stored: Tabs,
    pass: Option<Pass>,
    given: map<TabID, set<string>>,     // every label somebody else ever put on a tab
    foreign: map<TabID, string>,        // the last committed snapshot label that differed from the record
    sent: seq<Sending>)

  /** The order of the tabs, and so their moves, only show in the snapshots. */
  datatype Step =
    | Open(id: TabID, labelText: string)
    | Close(id: TabID)
    | UserRename(id: TabID, labelText: string)
    | Begin(job: Job)
    | Snap(snapshot: Snapshot)
    | Visit(response: Response)
    | Commit
    | Abandon                           // the target of an action is gone
    | Interrupt                         // a crash, a cancellation or a failure ends the pass uncommitted

  const INITIAL := World(map[], map[], None, map[], map[], [])

  function Given(w: World, id: TabID): set<string> {
    if id in w.given then w.given[id] else {}
  }

  function Give(w: World, id: TabID, labelText: string): World {
    w.(server := w.server[id := Shown(labelText, false)], given := w.given[id := Given(w, id) + {labelText}])
  }

  predicate Showing(server: map<TabID, Shown>, s: Snapshot) {
    && UniqueTabs(s.tabs) && Live(s.tabs) == server.Keys
    && forall i {:trigger server[s.tabs[i].id]} | 0 <= i < |s.tabs| ::
         s.tabs[i].id in server && server[s.tabs[i].id].labelText == s.tabs[i].labelText
  }

  predicate InSnapshot(w: World) { w.pass.Some? && w.pass.value.snapshot.Some? }

  predicate Visiting(w: World) {
    InSnapshot(w) && w.pass.value.next < |w.pass.value.snapshot.value.tabs|
  }

  function TabAt(w: World): RawTab
    requires Visiting(w)
  {
    w.pass.value.snapshot.value.tabs[w.pass.value.next]
  }

  function ContextAtHand(w: World): Context
    requires Visiting(w)
  {
    var p := w.pass.value;
    ContextOf(p.snapshot.value, p.next, Lookup(p.history, TabAt(w).id), p.job.now)
  }

  predicate TargetGone(p: Pass)
    requires p.snapshot.Some?
  {
    p.job.trigger == Action && p.job.target !in Live(p.snapshot.value.tabs)
  }

  /** What the pass does about the tab at hand. */
  function OutcomeAtHand(w: World, response: Response): Outcome
    requires Visiting(w)
  {
    TabOutcome(w.pass.value.job, ContextAtHand(w), response)
  }

  predicate Enabled(w: World, step: Step) {
    match step
    case Open(id, _) => id !in w.server
    case Close(id) => id in w.server
    case UserRename(id, _) => id in w.server
    case Begin(job) => w.pass == None && !(job.trigger == Action && job.target == "")
    case Snap(s) => w.pass.Some? && w.pass.value.snapshot == None && Showing(w.server, s)
    case Visit(response) => Visiting(w) && (response.accepted ==> TabAt(w).id in w.server)
    case Commit => InSnapshot(w) && !Visiting(w) && !TargetGone(w.pass.value)
    case Abandon => InSnapshot(w) && !Visiting(w) && TargetGone(w.pass.value)
    case Interrupt => w.pass.Some?
  }

  /** The rename that a visit sends, if it sends one. */
  function Sends(w: World, response: Response): seq<Sending>
    requires Visiting(w)
  {
    var outcome := OutcomeAtHand(w, response);
    if outcome.Attempted? then
      [Sending(w.pass.value.job, ContextAtHand(w), response.process, outcome.desired, outcome.accepted)]
    else []
  }

  function ForeignOf(foreign: map<TabID, string>, id: TabID): string {
    if id in foreign then foreign[id] else ""
  }

  function VisitTab(w: World, outcome: Outcome): World
    requires Visiting(w)
  {
    var p, raw := w.pass.value, TabAt(w);
    var entry := Lookup(p.history, raw.id);
    var update := TabUpdate(entry, raw.labelText, outcome);
    var foreign :=
      if entry.Some? && raw.labelText == entry.value.rendered then ForeignOf(w.foreign, raw.id) else raw.labelText;
    w.(server := if Renamed(outcome) then w.server[raw.id := Shown(outcome.desired, true)] else w.server,
       pass := Some(p.(next := p.next + 1,
                       updates := if update.Some? then p.updates[raw.id := update.value] else p.updates,
                       foreign := p.foreign[raw.id := foreign])))
  }

  function Apply(w: World, step: Step): World
    requires Enabled(w, step)
  {
    match step
    case Open(id, labelText) => Give(w, id, labelText)
    case Close(id) => w.(server := w.server - {id})
    case UserRename(id, labelText) => Give(w, id, labelText)
    case Begin(job) => w.(pass := Some(Pass(job, w.stored, None, 0, map[], map[])))
    case Snap(s) => w.(pass := Some(w.pass.value.(snapshot := Some(s))))
    case Visit(response) => VisitTab(w, OutcomeAtHand(w, response)).(sent := w.sent + Sends(w, response))
    case Commit =>
      var p := w.pass.value;
      w.(stored := Merge(w.stored, p.updates, Live(p.snapshot.value.tabs)), foreign := p.foreign, pass := None)
    case Abandon => w.(pass := None)
    case Interrupt => w.(pass := None)
  }

  // ----- the invariant

  /** The entry the plugin goes by: this pass's, or else the stored one. */
  function RecordOf(w: World, id: TabID): Option<LabelHistory> {
    if w.pass.Some? && id in w.pass.value.updates then Some(w.pass.value.updates[id]) else Lookup(w.stored, id)
  }

  function SourceOf(entry: Option<LabelHistory>): string {
    if entry.Some? then entry.value.source else ""
  }

  predicate RecordedAs(entry: Option<LabelHistory>, labelText: string) {
    entry.Some? && entry.value.rendered == labelText
  }

  /** A label the plugin wrote is on record; any other was given by somebody else. */
  ghost predicate ServerInv(w: World) {
    forall id | id in w.server ::
      if w.server[id].own then RecordedAs(RecordOf(w, id), w.server[id].labelText)
      else w.server[id].labelText in Given(w, id)
  }

  ghost predicate SourcesInv(w: World) {
    && (forall id | id in w.stored :: w.stored[id].source in Given(w, id))
    && (w.pass.Some? ==> forall id | id in w.pass.value.updates :: w.pass.value.updates[id].source in Given(w, id))
  }

  ghost predicate PassInv(w: World) {
    w.pass.Some? ==>
      var p := w.pass.value;
      && p.history == w.stored
      && (p.snapshot == None ==> p.next == 0 && p.updates == map[] && p.foreign == map[])
      && (p.snapshot.Some? ==> SnapshotInv(w, p, p.snapshot.value.tabs))
  }

  ghost predicate SnapshotInv(w: World, p: Pass, tabs: seq<RawTab>) {
    && UniqueTabs(tabs) && p.next <= |tabs|
    && (forall i | 0 <= i < |tabs| ::
          RecordedAs(Lookup(w.stored, tabs[i].id), tabs[i].labelText) || tabs[i].labelText in Given(w, tabs[i].id))
    && VisitedInv(w, p, tabs)
    && OwnInv(w, p, tabs)
  }

  /** The visited tabs have been recorded with the source label they turned out to have. */
  ghost predicate VisitedInv(w: World, p: Pass, tabs: seq<RawTab>)
    requires p.next <= |tabs|
  {
    && p.foreign.Keys == Live(tabs[..p.next])
    && p.updates.Keys <= p.foreign.Keys
    && (forall id | id in p.foreign :: SourceOf(RecordOf(w, id)) == p.foreign[id])
  }

  ghost predicate OwnInv(w: World, p: Pass, tabs: seq<RawTab>) {
    && (forall id | id in w.server && w.server[id].own :: id in Live(tabs))
    && (p.job.trigger == Action && p.job.target !in Live(tabs) ==> OwnStored(w))
  }

  /** Every label the plugin wrote is on the stored record. */
  ghost predicate OwnStored(w: World) {
    forall id | id in w.server && w.server[id].own :: RecordedAs(Lookup(w.stored, id), w.server[id].labelText)
  }

  ghost predicate ForeignInv(w: World) {
    forall id :: SourceOf(Lookup(w.stored, id)) == ForeignOf(w.foreign, id)
  }

  ghost predicate Inv(w: World) {
    ServerInv(w) && SourcesInv(w) && PassInv(w) && ForeignInv(w)
  }

  /** What is left between passes when one was interrupted: a label of the plugin's may be on
      no record. */
  ghost predicate WeakInv(w: World) {
    if InSnapshot(w) then Inv(w)
    else
      && (forall id | id in w.server && !w.server[id].own :: w.server[id].labelText in Given(w, id))
      && SourcesInv(w) && PassInv(w) && ForeignInv(w)
  }

  lemma GiveKeepsPass(w: World, id: TabID, labelText: string)
    requires PassInv(w)
    ensures PassInv(Give(w, id, labelText))
  {
    var t := Give(w, id, labelText);
    assert forall other :: Given(w, other) <= Given(t, other);
    assert forall other :: RecordOf(t, other) == RecordOf(w, other);
  }

  lemma GiveKeepsInv(w: World, id: TabID, labelText: string)
    requires Inv(w)
    ensures Inv(Give(w, id, labelText))
  {
    var t := Give(w, id, labelText);
    GiveKeepsPass(w, id, labelText);
    assert ServerInv(t) && SourcesInv(t) by {
      assert forall other :: Given(w, other) <= Given(t, other);
      assert forall other :: RecordOf(t, other) == RecordOf(w, other);
    }
  }

  lemma SnapKeepsInv(w: World, s: Snapshot)
    requires Inv(w) && Enabled(w, Snap(s))
    ensures Inv(Apply(w, Snap(s)))
  {
    var t := Apply(w, Snap(s));
    assert s.tabs[..0] == [];
    assert forall id :: RecordOf(t, id) == RecordOf(w, id) == Lookup(w.stored, id);
    assert forall i | 0 <= i < |s.tabs| :: s.tabs[i].id in w.server;
  }

  /** What one visit of the tab `id` does to the pass, ... */
  ghost predicate RecordEffect(w: World, t: World, id: TabID)
    requires w.pass.Some? && t.pass.Some?
  {
    var p, q := w.pass.value, t.pass.value;
    && q.job == p.job && q.history == p.history && q.snapshot == p.snapshot && q.next == p.next + 1
    && q.foreign == p.foreign[id := SourceOf(RecordOf(t, id))]
    && (forall other | other != id :: RecordOf(t, other) == RecordOf(w, other))
    && q.updates.Keys <= p.updates.Keys + {id}
    && (forall other | other in q.updates && other != id :: other in p.updates && q.updates[other] == p.updates[other])
    && (id in q.updates ==> q.updates[id].source in Given(w, id))
  }

  /** ... and to the server. */
  ghost predicate ServerEffect(w: World, t: World, id: TabID)
    requires w.pass.Some?
  {
    if t.server == w.server then
      RecordOf(w, id).Some? ==> RecordedAs(RecordOf(t, id), RecordOf(w, id).value.rendered)
    else
      && id in w.server && id in t.server && Targeted(w.pass.value.job, id)
      && t.server == w.server[id := t.server[id]] && t.server[id].own
      && RecordedAs(RecordOf(t, id), t.server[id].labelText)
  }

  ghost predicate VisitEffect(w: World, t: World, id: TabID)
    requires w.pass.Some?
  {
    && t.stored == w.stored && t.given == w.given && t.foreign == w.foreign && t.pass.Some?
    && RecordEffect(w, t, id) && ServerEffect(w, t, id)
  }

  lemma NotVisitedYet(w: World)
    requires Inv(w) && Visiting(w)
    ensures TabAt(w).id !in w.pass.value.updates
  {
    var p, raw := w.pass.value, TabAt(w);
    var tabs := p.snapshot.value.tabs;
    forall other | other in tabs[..p.next] ensures other.id != raw.id {
    }
    assert raw.id !in Live(tabs[..p.next]);
  }

  lemma VisitHasEffect(w: World, outcome: Outcome)
    requires Inv(w) && Visiting(w)
    requires Renamed(outcome) ==> TabAt(w).id in w.server && Targeted(w.pass.value.job, TabAt(w).id)
    ensures VisitEffect(w, VisitTab(w, outcome), TabAt(w).id)
  {
    NotVisitedYet(w);
    VisitHasRecordEffect(w, outcome);
  }

  lemma VisitHasRecordEffect(w: World, outcome: Outcome)
    requires Inv(w) && Visiting(w) && TabAt(w).id !in w.pass.value.updates
    ensures RecordEffect(w, VisitTab(w, outcome), TabAt(w).id)
  {
    var raw, t := TabAt(w), VisitTab(w, outcome);
    var entry := Lookup(w.stored, raw.id);
    assert SourceOf(entry) == ForeignOf(w.foreign, raw.id);
    SourceSettles(entry, raw.labelText, outcome);
    assert RecordOf(t, raw.id) == EntryAfter(w.stored, raw, outcome);
    assert entry.Some? ==> entry.value.source in Given(w, raw.id);
  }

  lemma EffectKeepsServer(w: World, t: World, id: TabID)
    requires ServerInv(w) && w.pass.Some? && VisitEffect(w, t, id)
    ensures ServerInv(t)
  {
  }

  lemma EffectKeepsSources(w: World, t: World, id: TabID)
    requires SourcesInv(w) && ForeignInv(w) && w.pass.Some? && VisitEffect(w, t, id)
    ensures SourcesInv(t) && ForeignInv(t)
  {
  }

  lemma EffectKeepsVisited(w: World, t: World, id: TabID, tabs: seq<RawTab>)
    requires w.pass.Some? && w.pass.value.next < |tabs| && id == tabs[w.pass.value.next].id
    requires VisitedInv(w, w.pass.value, tabs) && t.pass.Some? && RecordEffect(w, t, id)
    ensures VisitedInv(t, t.pass.value, tabs)
  {
    LiveNext(tabs, w.pass.value.next);
  }

  lemma EffectKeepsOwn(w: World, t: World, id: TabID, tabs: seq<RawTab>)
    requires w.pass.Some? && id in Live(tabs)
    requires OwnInv(w, w.pass.value, tabs) && VisitEffect(w, t, id)
    ensures OwnInv(t, t.pass.value, tabs)
  {
  }

  lemma EffectKeepsPass(w: World, t: World)
    requires Inv(w) && Visiting(w) && VisitEffect(w, t, TabAt(w).id)
    ensures PassInv(t)
  {
    var tabs, id := w.pass.value.snapshot.value.tabs, TabAt(w).id;
    assert TabAt(w) in tabs;
    EffectKeepsVisited(w, t, id, tabs);
    EffectKeepsOwn(w, t, id, tabs);
  }

  lemma VisitKeepsInv(w: World, response: Response)
    requires Inv(w) && Enabled(w, Visit(response))
    ensures Inv(Apply(w, Visit(response)))
  {
    var outcome, id := OutcomeAtHand(w, response), TabAt(w).id;
    VisitHasEffect(w, outcome);
    EffectKeepsServer(w, VisitTab(w, outcome), id);
    EffectKeepsSources(w, VisitTab(w, outcome), id);
    EffectKeepsPass(w, VisitTab(w, outcome));
    SendingKeepsInv(VisitTab(w, outcome), Apply(w, Visit(response)).sent);
  }

  lemma SendingKeepsInv(w: World, sent: seq<Sending>)
    requires Inv(w)
    ensures Inv(w.(sent := sent))
  {
    var t := w.(sent := sent);
    assert forall id :: RecordOf(t, id) == RecordOf(w, id) && Given(t, id) == Given(w, id);
  }

  lemma MergeLookup(stored: Tabs, updates: Tabs, live: set<TabID>, id: TabID)
    ensures Lookup(Merge(stored, updates, live), id)
         == if id !in live then None else if id in updates then Some(updates[id]) else Lookup(stored, id)
  {
  }

  lemma CommitRecords(w: World)
    requires Inv(w) && Enabled(w, Commit)
    ensures var t, live := Apply(w, Commit), Live(w.pass.value.snapshot.value.tabs);
            && w.pass.value.foreign.Keys == live
            && forall id :: Lookup(t.stored, id) == if id in live then RecordOf(w, id) else None
  {
    var p := w.pass.value;
    var tabs := p.snapshot.value.tabs;
    assert tabs[..p.next] == tabs;
    forall id ensures Lookup(Apply(w, Commit).stored, id) == if id in Live(tabs) then RecordOf(w, id) else None {
      MergeLookup(w.stored, p.updates, Live(tabs), id);
    }
  }

  lemma CommitKeepsServer(w: World, t: World, live: set<TabID>)
    requires ServerInv(w) && t.server == w.server && t.given == w.given && t.pass == None
    requires forall id | id in w.server && w.server[id].own :: id in live
    requires forall id :: Lookup(t.stored, id) == if id in live then RecordOf(w, id) else None
    ensures ServerInv(t)
  {
    assert forall id :: RecordOf(t, id) == Lookup(t.stored, id);
  }

  lemma CommitKeepsForeign(w: World, t: World)
    requires SourcesInv(w) && t.given == w.given && t.pass == None
    requires w.pass.Some? && t.foreign == w.pass.value.foreign
    requires forall id | id in t.foreign :: SourceOf(RecordOf(w, id)) == t.foreign[id]
    requires forall id :: Lookup(t.stored, id) == if id in t.foreign then RecordOf(w, id) else None
    ensures SourcesInv(t) && ForeignInv(t)
  {
    forall id | id in t.stored ensures t.stored[id].source in Given(t, id) {
      assert Lookup(t.stored, id) == RecordOf(w, id);
    }
  }

  lemma CommitKeepsInv(w: World)
    requires Inv(w) && Enabled(w, Commit)
    ensures Inv(Apply(w, Commit))
  {
    CommitRecords(w);
    CommitKeepsServer(w, Apply(w, Commit), Live(w.pass.value.snapshot.value.tabs));
    CommitKeepsForeign(w, Apply(w, Commit));
  }

  lemma NextKeepsInv(w: World, step: Step)
    requires Inv(w) && Enabled(w, step)
    requires step == Interrupt ==> OwnStored(w)
    ensures Inv(Apply(w, step))
  {
    match step
    case Open(id, labelText) => GiveKeepsInv(w, id, labelText);
    case UserRename(id, labelText) => GiveKeepsInv(w, id, labelText);
    case Close(id) => CloseKeepsInv(w, id);
    case Begin(job) => BeginKeepsInv(w, job);
    case Snap(s) => SnapKeepsInv(w, s);
    case Visit(response) => VisitKeepsInv(w, response);
    case Commit => CommitKeepsInv(w);
    case Abandon => AbandonKeepsInv(w);
    case Interrupt => InterruptKeepsInv(w);
  }

  lemma InterruptKeepsInv(w: World)
    requires Inv(w) && OwnStored(w)
    ensures Inv(w.(pass := None))
  {
    var t := w.(pass := None);
    assert forall id :: RecordOf(t, id) == Lookup(w.stored, id) && Given(t, id) == Given(w, id);
  }

  lemma OwnStoredIsInv(w: World)
    requires WeakInv(w) && !InSnapshot(w)
    ensures OwnStored(w) <==> Inv(w)
  {
    assert forall id :: RecordOf(w, id) == Lookup(w.stored, id);
  }

  lemma InterruptKeepsWeakInv(w: World)
    requires WeakInv(w)
    ensures WeakInv(w.(pass := None))
  {
    var t := w.(pass := None);
    assert forall id :: Given(t, id) == Given(w, id);
  }

  /** Steps outside a snapshot, but for taking one. */
  lemma IdleKeepsWeakInv(w: World, step: Step)
    requires WeakInv(w) && !InSnapshot(w) && Enabled(w, step) && !step.Snap? && step != Interrupt
    ensures WeakInv(Apply(w, step))
  {
    var t := Apply(w, step);
    assert forall id :: Given(w, id) <= Given(t, id);
  }

  /** A snapshot is all that must not be taken while a label of the plugin's is off the record. */
  lemma NextKeepsWeakInv(w: World, step: Step)
    requires WeakInv(w) && Enabled(w, step)
    requires step.Snap? ==> OwnStored(w)
    ensures WeakInv(Apply(w, step))
  {
    if step == Interrupt {
      InterruptKeepsWeakInv(w);
    } else if InSnapshot(w) {
      NextKeepsInv(w, step);
    } else if step.Snap? {
      OwnStoredIsInv(w);
      NextKeepsInv(w, step);
    } else {
      IdleKeepsWeakInv(w, step);
    }
  }

  lemma CloseKeepsInv(w: World, id: TabID)
    requires Inv(w) && Enabled(w, Close(id))
    ensures Inv(Apply(w, Close(id)))
  {
    var t := Apply(w, Close(id));
    assert forall other :: RecordOf(t, other) == RecordOf(w, other);
  }

  lemma BeginKeepsInv(w: World, job: Job)
    requires Inv(w) && Enabled(w, Begin(job))
    ensures Inv(Apply(w, Begin(job)))
  {
    var t := Apply(w, Begin(job));
    assert forall other :: RecordOf(t, other) == RecordOf(w, other);
  }

  lemma AbandonKeepsInv(w: World)
    requires Inv(w) && Enabled(w, Abandon)
    ensures Inv(Apply(w, Abandon))
  {
    assert OwnStored(w);
  }

  // ----- main results

  function After(w: World, run: seq<Step>): Option<World>
    decreases |run|
  {
    if run == [] then Some(w)
    else if Enabled(w, run[0]) then After(Apply(w, run[0]), run[1..]) else None
  }

  /** Every interruption of the run leaves each label of the plugin's on the stored record. */
  ghost predicate Harmless(w: World, run: seq<Step>)
    requires After(w, run).Some?
    decreases |run|
  {
    run != [] ==> (run[0] == Interrupt ==> OwnStored(w)) && Harmless(Apply(w, run[0]), run[1..])
  }

  /** Every snapshot of the run finds each label of the plugin's on the stored record. */
  ghost predicate Careful(w: World, run: seq<Step>)
    requires After(w, run).Some?
    decreases |run|
  {
    run != [] ==> (run[0].Snap? ==> OwnStored(w)) && Careful(Apply(w, run[0]), run[1..])
  }

  lemma {:induction false} UninterruptedIsHarmless(w: World, run: seq<Step>)
    requires After(w, run).Some? && Interrupt !in run
    ensures Harmless(w, run)
    decreases |run|
  {
    if run != [] {
      assert forall step | step in run[1..] :: step in run;
      assert run[0] in run;
      UninterruptedIsHarmless(Apply(w, run[0]), run[1..]);
    }
  }

  lemma {:induction false} RunKeepsInv(w: World, run: seq<Step>)
    requires Inv(w) && After(w, run).Some? && Harmless(w, run)
    ensures Inv(After(w, run).value) && Careful(w, run)
    decreases |run|
  {
    if run != [] {
      NextKeepsInv(w, run[0]);
      RunKeepsInv(Apply(w, run[0]), run[1..]);
      if run[0].Snap? {
        OwnStoredIsInv(w);
      }
    }
  }

  lemma {:induction false} RunKeepsWeakInv(w: World, run: seq<Step>)
    requires WeakInv(w) && After(w, run).Some? && Careful(w, run)
    ensures WeakInv(After(w, run).value)
    decreases |run|
  {
    if run != [] {
      NextKeepsWeakInv(w, run[0]);
      RunKeepsWeakInv(Apply(w, run[0]), run[1..]);
    }
  }

  /** Between passes of any run whose interruptions are harmless, and so of any run without
      one: a label the plugin wrote last is the rendered label on record for that tab; every
      recorded source is a label somebody else gave the tab; and it is the last committed
      snapshot label that differed from the rendered label on record. */
  lemma HistoryIsFaithful(run: seq<Step>)
    requires After(INITIAL, run).Some? && After(INITIAL, run).value.pass == None
    requires Interrupt in run ==> Harmless(INITIAL, run)
    ensures var w := After(INITIAL, run).value;
            && (forall id | id in w.server && w.server[id].own ::
                  id in w.stored && w.stored[id].rendered == w.server[id].labelText)
            && (forall id | id in w.stored :: w.stored[id].source in Given(w, id))
            && (forall id :: SourceOf(Lookup(w.stored, id)) == ForeignOf(w.foreign, id))
  {
    if Interrupt !in run {
      UninterruptedIsHarmless(INITIAL, run);
    }
    RunKeepsInv(INITIAL, run);
    OwnStoredIsInv(After(INITIAL, run).value);
  }

  /** The recorded sources survive even an interruption that leaves a label of the plugin's off
      the record, as long as it is gone from the server, or on record, at the next snapshot. */
  lemma SourcesSurviveInterruptions(run: seq<Step>)
    requires After(INITIAL, run).Some? && Careful(INITIAL, run)
    ensures var w := After(INITIAL, run).value;
            && (forall id | id in w.stored :: w.stored[id].source in Given(w, id))
            && (forall id :: SourceOf(Lookup(w.stored, id)) == ForeignOf(w.foreign, id))
  {
    RunKeepsWeakInv(INITIAL, run);
  }

  /** Whenever a snapshot is taken, in any such run, a tab that shows the plugin's own label
      keeps its recorded source: the plugin never adopts its own label. */
  lemma OwnLabelIsNeverAdopted(run: seq<Step>, s: Snapshot, i: nat)
    requires After(INITIAL, run).Some? && Enabled(After(INITIAL, run).value, Snap(s)) && i < |s.tabs|
    requires Interrupt in run ==> Harmless(INITIAL, run)
    requires After(INITIAL, run).value.server[s.tabs[i].id].own
    ensures var w := After(INITIAL, run).value;
            s.tabs[i].id in w.stored
            && SourceLabel(Lookup(w.stored, s.tabs[i].id), s.tabs[i].labelText) == w.stored[s.tabs[i].id].source
  {
    if Interrupt !in run {
      UninterruptedIsHarmless(INITIAL, run);
    }
    RunKeepsInv(INITIAL, run);
    OwnStoredIsInv(After(INITIAL, run).value);
  }

  // ----- interrupted passes

  /** The pass has recorded another rendered label for the tab than the stored one. */
  predicate Unsaved(w: World, id: TabID) {
    && w.pass.Some? && id in w.pass.value.updates
    && !RecordedAs(Lookup(w.stored, id), w.pass.value.updates[id].rendered)
  }

  /** Exactly when an interruption loses a label: the next snapshot takes a label of the
      plugin's for somebody else's if and only if the interrupted pass had recorded a rendered
      label for that tab that is not the stored one, so after a rename of the tab in that pass.
      The interruption is harmless if and only if there is no such tab. */
  lemma InterruptionLosesIff(run: seq<Step>)
    requires After(INITIAL, run).Some? && Harmless(INITIAL, run) && After(INITIAL, run).value.pass.Some?
    ensures var w := After(INITIAL, run).value;
            && (forall id | id in w.server && w.server[id].own ::
                  !RecordedAs(Lookup(w.stored, id), w.server[id].labelText) <==> Unsaved(w, id))
            && (Inv(w.(pass := None)) <==> forall id | id in w.server && w.server[id].own :: !Unsaved(w, id))
            && (OwnStored(w) <==> Inv(w.(pass := None)))
  {
    RunKeepsInv(INITIAL, run);
    var w := After(INITIAL, run).value;
    InterruptKeepsWeakInv(w);
    OwnStoredIsInv(w.(pass := None));
  }

  // ----- renames

  /** A rename that was due to a tab that showed something else. */
  ghost predicate Lawful(g: Sending) {
    Due(g.job, g.context, g.process, g.labelText) && g.labelText != g.context.tab.currentLabel
  }

  ghost predicate Granted(sent: seq<Sending>, id: TabID, labelText: string) {
    exists g :: g in sent && g.accepted && g.context.tab.id == id && g.labelText == labelText
  }

  ghost predicate SentInv(w: World) {
    && (forall g | g in w.sent :: Lawful(g))
    && (forall id | id in w.server && w.server[id].own :: Granted(w.sent, id, w.server[id].labelText))
  }

  lemma VisitKeepsSent(w: World, response: Response)
    requires SentInv(w) && Enabled(w, Visit(response))
    ensures SentInv(Apply(w, Visit(response)))
  {
    var t, outcome := Apply(w, Visit(response)), OutcomeAtHand(w, response);
    if outcome.Attempted? {
      AttemptedIff(w.pass.value.job, ContextAtHand(w), response, outcome.desired);
      var g := Sends(w, response)[0];
      assert t.sent == w.sent + [g] && g in t.sent;
      assert g.context.tab.id == TabAt(w).id;
    }
    forall id | id in t.server && t.server[id].own ensures Granted(t.sent, id, t.server[id].labelText) {
      if id in w.server && t.server[id] == w.server[id] {
        var g :| g in w.sent && g.accepted && g.context.tab.id == id && g.labelText == w.server[id].labelText;
        assert g in t.sent;
      }
    }
  }

  /** The converse: a visit sends exactly the label that is due, if the tab does not show it,
      and sends nothing if no such label is due. */
  lemma VisitSendsWhatIsDue(w: World, response: Response, labelText: string)
    requires Enabled(w, Visit(response))
    ensures var p, context := w.pass.value, ContextAtHand(w);
            var due := Due(p.job, context, response.process, labelText) && labelText != context.tab.currentLabel;
            var sending := Sending(p.job, context, response.process, labelText, response.accepted);
            Apply(w, Visit(response)).sent == w.sent + [sending] <==> due
    ensures |Apply(w, Visit(response)).sent| > |w.sent| ==>
              exists due :: Due(w.pass.value.job, ContextAtHand(w), response.process, due)
                            && due != ContextAtHand(w).tab.currentLabel
  {
    var outcome := OutcomeAtHand(w, response);
    AttemptedIff(w.pass.value.job, ContextAtHand(w), response, labelText);
    if outcome.Attempted? {
      AttemptedIff(w.pass.value.job, ContextAtHand(w), response, outcome.desired);
      var sent := Apply(w, Visit(response)).sent;
      assert sent[|w.sent|] == Sends(w, response)[0];
    }
  }

  lemma {:induction false} RunKeepsSent(w: World, run: seq<Step>)
    requires SentInv(w) && After(w, run).Some?
    ensures SentInv(After(w, run).value)
    decreases |run|
  {
    if run != [] {
      if run[0].Visit? {
        VisitKeepsSent(w, run[0].response);
      }
      RunKeepsSent(Apply(w, run[0]), run[1..]);
    }
  }

  /** In any run, interrupted or not, every rename that was sent, accepted or refused, was
      permitted by the tab's mode both before and after its process was known, to an action
      only for its target, and to a label that the template gave and the tab did not show; and
      whatever label of the plugin's a tab shows, such a rename of that tab put it there. */
  lemma OnlyPermittedRenames(run: seq<Step>)
    requires After(INITIAL, run).Some?
    ensures var w := After(INITIAL, run).value;
            && (forall g | g in w.sent :: Lawful(g))
            && (forall id | id in w.server && w.server[id].own :: Granted(w.sent, id, w.server[id].labelText))
  {
    RunKeepsSent(INITIAL, run);
  }

  // ----- an uninterrupted pass is a whole `Reconcile`

  function Visits(responses: seq<Response>): seq<Step> {
    if responses == [] then [] else [Visit(responses[0])] + Visits(responses[1..])
  }

  function WholePass(job: Job, s: Snapshot, responses: seq<Response>): seq<Step> {
    [Begin(job)] + ([Snap(s)] + (Visits(responses) + [Commit]))
  }

  function Renames(sent: seq<Sending>): seq<Rename> {
    seq(|sent|, i requires 0 <= i < |sent| => Rename(sent[i].context.tab.id, sent[i].labelText))
  }

  /** The server after the first `n` tabs of the snapshot, if nobody else changes anything. */
  ghost predicate Shows(server: map<TabID, Shown>, s: Snapshot, outcomes: seq<Outcome>, n: nat)
    requires |outcomes| == |s.tabs|
  {
    && UniqueTabs(s.tabs) && Live(s.tabs) == server.Keys
    && forall i {:trigger server[s.tabs[i].id]} | 0 <= i < |s.tabs| ::
         s.tabs[i].id in server
         && server[s.tabs[i].id].labelText
         == if i < n && Renamed(outcomes[i]) then outcomes[i].desired else s.tabs[i].labelText
  }

  /** A pass over the snapshot that has recorded and renamed for the visited tabs what it is
      to record and rename. */
  ghost predicate OnCourse(p: Pass, server: map<TabID, Shown>, s: Snapshot, outcomes: seq<Outcome>) {
    && p.snapshot == Some(s) && |outcomes| == |s.tabs|
    && p.next <= |s.tabs| && Shows(server, s, outcomes, p.next)
    && p.updates == Updates(p.history, s.tabs, outcomes, p.next)
  }

  /** What a visit leaves alone. */
  ghost predicate SamePass(w: World, t: World)
    requires w.pass.Some?
  {
    && t.stored == w.stored && t.given == w.given && t.pass.Some?
    && t.pass.value.job == w.pass.value.job && t.pass.value.history == w.pass.value.history
  }

  lemma ShowsNext(server: map<TabID, Shown>, s: Snapshot, outcomes: seq<Outcome>, n: nat)
    requires |outcomes| == |s.tabs| && n < |s.tabs| && Shows(server, s, outcomes, n)
    ensures var id := s.tabs[n].id;
            id in server
            && Shows(if Renamed(outcomes[n]) then server[id := Shown(outcomes[n].desired, true)] else server,
                     s, outcomes, n + 1)
  {
    assert s.tabs[n].id in server;
  }

  lemma UpdatesNext(w: World, s: Snapshot, outcomes: seq<Outcome>)
    requires Visiting(w) && w.pass.value.snapshot == Some(s) && |outcomes| == |s.tabs|
    requires w.pass.value.updates == Updates(w.pass.value.history, s.tabs, outcomes, w.pass.value.next)
    ensures var n, p := w.pass.value.next, VisitTab(w, outcomes[w.pass.value.next]).pass.value;
            && p.updates == Updates(w.pass.value.history, s.tabs, outcomes, n + 1)
            && p.snapshot == Some(s) && p.next == n + 1
  {
  }

  lemma VisitStaysOnCourse(w: World, s: Snapshot, outcomes: seq<Outcome>)
    requires w.pass.Some? && OnCourse(w.pass.value, w.server, s, outcomes) && w.pass.value.next < |s.tabs|
    ensures var t := VisitTab(w, outcomes[w.pass.value.next]);
            && OnCourse(t.pass.value, t.server, s, outcomes)
            && SamePass(w, t) && t.pass.value.next == w.pass.value.next + 1
  {
    ShowsNext(w.server, s, outcomes, w.pass.value.next);
    UpdatesNext(w, s, outcomes);
  }

  /** The visit does what the whole pass does about the tab. */
  lemma VisitIsPlanned(w: World, s: Snapshot, responses: seq<Response>)
    requires InSnapshot(w) && w.pass.value.snapshot == Some(s)
    requires w.pass.value.next < |s.tabs| == |responses| && s.tabs[w.pass.value.next].id in w.server
    ensures var n, p := w.pass.value.next, w.pass.value;
            var outcome := Outcomes(p.job, s, p.history, responses)[n];
            && Enabled(w, Visit(responses[n]))
            && Apply(w, Visit(responses[n])) == VisitTab(w, outcome).(sent := w.sent + Sends(w, responses[n]))
            && Renames(Sends(w, responses[n])) == SentFor(s.tabs[n].id, outcome)
  {
    var n, p := w.pass.value.next, w.pass.value;
    assert OutcomeAtHand(w, responses[n]) == Outcomes(p.job, s, p.history, responses)[n];
    assert ContextAtHand(w).tab.id == s.tabs[n].id;
  }

  function SentFor(id: TabID, outcome: Outcome): seq<Rename> {
    if outcome.Attempted? then [Rename(id, outcome.desired)] else []
  }

  lemma RenamesConcat(a: seq<Sending>, b: seq<Sending>)
    ensures Renames(a + b) == Renames(a) + Renames(b)
  {
  }

  lemma VisitProceeds(w: World, s: Snapshot, responses: seq<Response>, outcomes: seq<Outcome>)
    requires w.pass.Some? && OnCourse(w.pass.value, w.server, s, outcomes)
    requires w.pass.value.next < |s.tabs| == |responses|
    requires outcomes == Outcomes(w.pass.value.job, s, w.pass.value.history, responses)
    ensures Enabled(w, Visit(responses[w.pass.value.next]))
    ensures var n, t := w.pass.value.next, Apply(w, Visit(responses[w.pass.value.next]));
            && SamePass(w, t) && OnCourse(t.pass.value, t.server, s, outcomes) && t.pass.value.next == n + 1
            && Renames(t.sent) == Renames(w.sent) + SentFor(s.tabs[n].id, outcomes[n])
  {
    assert s.tabs[w.pass.value.next].id in w.server by {
      ShowsNext(w.server, s, outcomes, w.pass.value.next);
    }
    VisitIsPlanned(w, s, responses);
    VisitStaysOnCourse(w, s, outcomes);
    RenamesConcat(w.sent, Sends(w, responses[w.pass.value.next]));
  }

  lemma VisitsNext(w: World, responses: seq<Response>, n: nat)
    requires n < |responses| && Enabled(w, Visit(responses[n]))
    ensures After(w, Visits(responses[n..])) == After(Apply(w, Visit(responses[n])), Visits(responses[n + 1..]))
  {
    assert responses[n..][1..] == responses[n + 1..];
    assert Visits(responses[n..]) == [Visit(responses[n])] + Visits(responses[n + 1..]);
    AfterCons(w, Visit(responses[n]), Visits(responses[n + 1..]));
  }

  /** Whether visits keep a property of worlds, and can always be made where it holds. */
  ghost predicate VisitsKeep(property: World -> bool, responses: seq<Response>) {
    forall w | property(w) && w.pass.Some? && w.pass.value.next < |responses| ::
      VisitKeeps(property, w, responses[w.pass.value.next])
  }

  ghost predicate VisitKeeps(property: World -> bool, w: World, response: Response)
    requires w.pass.Some?
  {
    && Enabled(w, Visit(response))
    && var t := Apply(w, Visit(response));
       t.pass.Some? && t.pass.value.next == w.pass.value.next + 1 && property(t)
  }

  /** The visits still to make can then be made, and the property holds after them. */
  lemma {:induction false} VisitsRun(property: World -> bool, w: World, responses: seq<Response>) returns (end: World)
    requires VisitsKeep(property, responses) && property(w) && w.pass.Some? && w.pass.value.next <= |responses|
    ensures After(w, Visits(responses[w.pass.value.next..])) == Some(end)
    ensures property(end) && end.pass.Some? && end.pass.value.next == |responses|
    decreases |responses| - w.pass.value.next
  {
    var n := w.pass.value.next;
    if n < |responses| {
      assert VisitKeeps(property, w, responses[n]);
      end := VisitsRun(property, Apply(w, Visit(responses[n])), responses);
      VisitsNext(w, responses, n);
    } else {
      end := w;
      assert Visits(responses[n..]) == [];
    }
  }

  /** The pass from `start` is on course, and has sent what it is to have sent. */
  ghost predicate Proceeds(start: World, w: World, s: Snapshot, outcomes: seq<Outcome>)
    requires start.pass.Some?
  {
    && SamePass(start, w) && OnCourse(w.pass.value, w.server, s, outcomes)
    && Renames(w.sent) == Renames(start.sent) + Sent(s.tabs, outcomes, w.pass.value.next)
  }

  lemma StaysProceeding(start: World, w: World, s: Snapshot, responses: seq<Response>, outcomes: seq<Outcome>)
    requires start.pass.Some? && Proceeds(start, w, s, outcomes) && w.pass.value.next < |s.tabs| == |responses|
    requires outcomes == Outcomes(start.pass.value.job, s, start.pass.value.history, responses)
    ensures Enabled(w, Visit(responses[w.pass.value.next]))
    ensures var t := Apply(w, Visit(responses[w.pass.value.next]));
            Proceeds(start, t, s, outcomes) && t.pass.value.next == w.pass.value.next + 1
  {
    var n := w.pass.value.next;
    VisitProceeds(w, s, responses, outcomes);
    SentNext(s.tabs, outcomes, n, Renames(start.sent));
  }

  lemma SentNext(tabs: seq<RawTab>, outcomes: seq<Outcome>, n: nat, before: seq<Rename>)
    requires |outcomes| == |tabs| && n < |tabs|
    ensures before + Sent(tabs, outcomes, n + 1)
         == (before + Sent(tabs, outcomes, n)) + SentFor(tabs[n].id, outcomes[n])
  {
  }

  /** The visits of a pass do what the pass as a whole does. */
  lemma VisitsRecord(start: World, s: Snapshot, responses: seq<Response>, outcomes: seq<Outcome>) returns (end: World)
    requires start.pass.Some? && start.pass.value.next == 0 && |responses| == |s.tabs|
    requires OnCourse(start.pass.value, start.server, s, outcomes)
    requires outcomes == Outcomes(start.pass.value.job, s, start.pass.value.history, responses)
    ensures After(start, Visits(responses)) == Some(end)
    ensures SamePass(start, end) && OnCourse(end.pass.value, end.server, s, outcomes)
    ensures end.pass.value.next == |s.tabs|
    ensures Renames(end.sent) == Renames(start.sent) + Sent(s.tabs, outcomes, |s.tabs|)
  {
    var property := (x: World) => Proceeds(start, x, s, outcomes);
    forall w | property(w) && w.pass.Some? && w.pass.value.next < |responses|
      ensures VisitKeeps(property, w, responses[w.pass.value.next])
    {
      StaysProceeding(start, w, s, responses, outcomes);
    }
    assert responses[0..] == responses && Renames(start.sent) + [] == Renames(start.sent);
    end := VisitsRun(property, start, responses);
  }

  lemma AfterCons(w: World, step: Step, rest: seq<Step>)
    requires Enabled(w, step)
    ensures After(w, [step] + rest) == After(Apply(w, step), rest)
  {
    assert ([step] + rest)[1..] == rest;
  }

  lemma {:induction false} AfterConcat(w: World, a: seq<Step>, b: seq<Step>)
    requires After(w, a).Some?
    ensures After(w, a + b) == After(After(w, a).value, b)
    decreases |a|
  {
    if a == [] {
      assert a + b == b;
    } else {
      assert (a + b)[1..] == a[1..] + b;
      AfterConcat(Apply(w, a[0]), a[1..], b);
    }
  }

  /** What a completed pass leaves. */
  ghost predicate Completed(w: World, t: World, s: Snapshot, outcomes: seq<Outcome>)
    requires |outcomes| == |s.tabs|
  {
    && t.pass == None && t.given == w.given
    && t.stored == HistoryAfter(w.stored, s.tabs, outcomes)
    && Showing(t.server, s.(tabs := Fixpoint.TabsAfter(s.tabs, outcomes)))
    && Renames(t.sent) == Renames(w.sent) + Sent(s.tabs, outcomes, |s.tabs|)
  }

  lemma CommitLeavesHistory(w: World, s: Snapshot, outcomes: seq<Outcome>)
    requires w.pass.Some? && OnCourse(w.pass.value, w.server, s, outcomes)
    requires w.pass.value.next == |s.tabs| && w.pass.value.history == w.stored
    requires !TargetGone(w.pass.value)
    ensures Enabled(w, Commit) && Apply(w, Commit).pass == None
    ensures Apply(w, Commit).stored == HistoryAfter(w.stored, s.tabs, outcomes)
  {
  }

  lemma ShowsAll(server: map<TabID, Shown>, s: Snapshot, outcomes: seq<Outcome>)
    requires |outcomes| == |s.tabs| && Shows(server, s, outcomes, |s.tabs|)
    ensures Showing(server, s.(tabs := Fixpoint.TabsAfter(s.tabs, outcomes)))
  {
    Fixpoint.SameLive(s.tabs, Fixpoint.TabsAfter(s.tabs, outcomes));
  }

  lemma RunsToVisits(w: World, job: Job, s: Snapshot, responses: seq<Response>, w3: World)
    requires w.pass == None && !(job.trigger == Action && job.target == "") && Showing(w.server, s)
    requires After(Snapped(w, job, s), Visits(responses)) == Some(w3) && Enabled(w3, Commit)
    ensures After(w, WholePass(job, s, responses)) == Some(Apply(w3, Commit))
  {
    AfterCons(w, Begin(job), [Snap(s)] + (Visits(responses) + [Commit]));
    AfterCons(Apply(w, Begin(job)), Snap(s), Visits(responses) + [Commit]);
    AfterConcat(Snapped(w, job, s), Visits(responses), [Commit]);
    AfterCons(w3, Commit, []);
    assert [Commit] == [Commit] + [];
  }

  /** The world in which a pass starts on the tabs of its snapshot. */
  function Snapped(w: World, job: Job, s: Snapshot): World {
    w.(pass := Some(Pass(job, w.stored, Some(s), 0, map[], map[])))
  }

  lemma StartsOnCourse(w: World, job: Job, s: Snapshot, outcomes: seq<Outcome>)
    requires Showing(w.server, s) && |outcomes| == |s.tabs|
    ensures OnCourse(Snapped(w, job, s).pass.value, w.server, s, outcomes)
  {
  }

  lemma PassRuns(w: World, job: Job, s: Snapshot, responses: seq<Response>, outcomes: seq<Outcome>)
    returns (w3: World)
    requires Showing(w.server, s) && |responses| == |s.tabs|
    requires outcomes == Outcomes(job, s, w.stored, responses)
    ensures After(Snapped(w, job, s), Visits(responses)) == Some(w3)
    ensures SamePass(Snapped(w, job, s), w3) && OnCourse(w3.pass.value, w3.server, s, outcomes)
    ensures w3.pass.value.next == |s.tabs|
    ensures Renames(w3.sent) == Renames(w.sent) + Sent(s.tabs, outcomes, |s.tabs|)
  {
    StartsOnCourse(w, job, s, outcomes);
    w3 := VisitsRecord(Snapped(w, job, s), s, responses, outcomes);
  }

  lemma PassEnds(w: World, job: Job, s: Snapshot, outcomes: seq<Outcome>, w3: World)
    requires SamePass(Snapped(w, job, s), w3) && OnCourse(w3.pass.value, w3.server, s, outcomes)
    requires w3.pass.value.next == |s.tabs| && !(job.trigger == Action && job.target !in Live(s.tabs))
    ensures Enabled(w3, Commit) && Apply(w3, Commit).pass == None
    ensures Apply(w3, Commit).stored == HistoryAfter(w.stored, s.tabs, outcomes)
    ensures Apply(w3, Commit).given == w.given && Apply(w3, Commit).sent == w3.sent
    ensures Apply(w3, Commit).server == w3.server && Shows(w3.server, s, outcomes, |s.tabs|)
  {
    CommitLeavesHistory(w3, s, outcomes);
  }

  /** A pass that nothing interrupts can always run to its commit.  It then leaves the history
      that `Reconcile` is proved to write, has sent the renames that `Reconcile` is proved to
      send, and the server shows the accepted ones. */
  lemma UninterruptedPass(w: World, job: Job, s: Snapshot, responses: seq<Response>) returns (t: World)
    requires w.pass == None && !(job.trigger == Action && job.target == "")
    requires Showing(w.server, s) && |responses| == |s.tabs|
    requires !(job.trigger == Action && job.target !in Live(s.tabs))
    ensures After(w, WholePass(job, s, responses)) == Some(t)
    ensures Completed(w, t, s, Outcomes(job, s, w.stored, responses))
  {
    var outcomes := Outcomes(job, s, w.stored, responses);
    var w3 := PassRuns(w, job, s, responses, outcomes);
    PassEnds(w, job, s, outcomes, w3);
    RunsToVisits(w, job, s, responses, w3);
    t := Apply(w3, Commit);
    ShowsAll(t.server, s, outcomes);
  }

  /** The fixpoint on the running session: after a background pass in which the server refused
      nothing, a second pass on what it left sends no rename and leaves both the history and
      the labels that the server shows as they are. */
  lemma SessionSettles(w: World, job: Job, s: Snapshot, responses: seq<Response>, job': Job, responses': seq<Response>)
    returns (t: World, u: World)
    requires w.pass == None && Showing(w.server, s)
    requires Fixpoint.Repeated(job, s, w.stored, responses, job', responses')
    requires Fixpoint.AllAccepted(Outcomes(job, s, w.stored, responses))
    ensures var s' := Fixpoint.SnapshotAfter(job, s, w.stored, responses);
            && After(w, WholePass(job, s, responses)) == Some(t)
            && After(t, WholePass(job', s', responses')) == Some(u)
            && u.stored == t.stored && Renames(u.sent) == Renames(t.sent)
            && Showing(t.server, s') && Showing(u.server, s')
  {
    var s' := Fixpoint.SnapshotAfter(job, s, w.stored, responses);
    t := UninterruptedPass(w, job, s, responses);
    u := UninterruptedPass(t, job', s', responses');
    Fixpoint.SecondPassIsQuiet(job, s, w.stored, responses, job', responses');
    SettledTabs(job', s', t.stored, responses');
  }

  lemma {:induction false} NothingAttempted(tabs: seq<RawTab>, outcomes: seq<Outcome>, n: nat)
    requires |outcomes| == |tabs| && n <= |tabs| && Sent(tabs, outcomes, n) == []
    ensures forall i | 0 <= i < n :: !outcomes[i].Attempted?
  {
    if n > 0 {
      NothingAttempted(tabs, outcomes, n - 1);
    }
  }

  /** A pass that sends nothing leaves the snapshot as it is. */
  lemma SettledTabs(job: Job, s: Snapshot, history: Tabs, responses: seq<Response>)
    requires |responses| == |s.tabs| && Sent(s.tabs, Outcomes(job, s, history, responses), |s.tabs|) == []
    ensures Fixpoint.SnapshotAfter(job, s, history, responses) == s
  {
    var outcomes := Outcomes(job, s, history, responses);
    NothingAttempted(s.tabs, outcomes, |s.tabs|);
    assert Fixpoint.TabsAfter(s.tabs, outcomes) == s.tabs;
  }

  // ----- an interruption that loses a label

  /** A tab is opened, renamed by a pass, and the pass is interrupted before its commit. */
  function Interrupted(job: Job, s: Snapshot, response: Response): seq<Step>
    requires |s.tabs| == 1
  {
    [Open(s.tabs[0].id, s.tabs[0].labelText), Begin(job), Snap(s)] + [Visit(response), Interrupt]
  }

  lemma AfterDrop(w: World, run: seq<Step>, i: nat)
    requires i < |run| && Enabled(w, run[i])
    ensures After(w, run[i..]) == After(Apply(w, run[i]), run[i + 1..])
  {
    assert run[i..][1..] == run[i + 1..];
  }

  /** The world in which the interrupted pass makes its visit. */
  lemma VisitIsReached(job: Job, s: Snapshot) returns (w: World)
    requires |s.tabs| == 1 && job.trigger == Background
    ensures After(INITIAL, [Open(s.tabs[0].id, s.tabs[0].labelText), Begin(job), Snap(s)]) == Some(w)
    ensures var raw := s.tabs[0];
            w == World(map[raw.id := Shown(raw.labelText, false)], map[],
                       Some(Pass(job, map[], Some(s), 0, map[], map[])), map[raw.id := {raw.labelText}], map[], [])
  {
    var raw := s.tabs[0];
    var run := [Open(raw.id, raw.labelText), Begin(job), Snap(s)];
    assert run[0..] == run;
    AfterDrop(INITIAL, run, 0);
    var shown := Apply(INITIAL, run[0]);
    AfterDrop(shown, run, 1);
    var begun := Apply(shown, run[1]);
    assert raw in s.tabs && Live(s.tabs) == {raw.id} == begun.server.Keys;
    AfterDrop(begun, run, 2);
    w := Apply(begun, run[2]);
    assert w.server == map[raw.id := Shown(raw.labelText, false)];
    assert Given(INITIAL, raw.id) + {raw.labelText} == {raw.labelText};
  }

  lemma InterruptedLeaves(job: Job, s: Snapshot, response: Response) returns (end: World)
    requires |s.tabs| == 1 && job.trigger == Background
    requires Renamed(OutcomeAt(job, s, map[], [response], 0))
    ensures After(INITIAL, Interrupted(job, s, response)) == Some(end)
    ensures end.pass == None && end.stored == map[]
    ensures end.server == map[s.tabs[0].id := Shown(OutcomeAt(job, s, map[], [response], 0).desired, true)]
    ensures Given(end, s.tabs[0].id) == {s.tabs[0].labelText}
  {
    var w := VisitIsReached(job, s);
    var last := [Visit(response), Interrupt];
    assert OutcomeAtHand(w, response) == OutcomeAt(job, s, map[], [response], 0);
    assert last[0..] == last;
    AfterDrop(w, last, 0);
    var visited := Apply(w, last[0]);
    AfterDrop(visited, last, 1);
    end := Apply(visited, last[1]);
    AfterConcat(INITIAL, [Open(s.tabs[0].id, s.tabs[0].labelText), Begin(job), Snap(s)], last);
  }

  /** Whatever the user called the tab, and whatever the next pass does: it records the label
      that the plugin wrote as the tab's source, which nobody else ever gave it. */
  lemma InterruptionAdoptsOwnLabel(job: Job, s: Snapshot, response: Response, response': Response)
    requires |s.tabs| == 1 && job.trigger == Background
    requires Renamed(OutcomeAt(job, s, map[], [response], 0)) && OutcomeAt(job, s, map[], [response], 0).desired != ""
    ensures var desired, id := OutcomeAt(job, s, map[], [response], 0).desired, s.tabs[0].id;
            var s' := s.(tabs := [s.tabs[0].(labelText := desired)]);
            var end := After(INITIAL, Interrupted(job, s, response) + WholePass(job, s', [response']));
            && end.Some? && id in end.value.stored
            && end.value.stored[id].source == desired && desired !in Given(end.value, id)
  {
    var desired := OutcomeAt(job, s, map[], [response], 0).desired;
    var s' := s.(tabs := [s.tabs[0].(labelText := desired)]);
    var w := InterruptedLeaves(job, s, response);
    assert s'.tabs[0] in s'.tabs;
    assert Live(s'.tabs) == {s.tabs[0].id};
    var end := UninterruptedPass(w, job, s', [response']);
    HistoryAfterAt(map[], s'.tabs, Outcomes(job, s', map[], [response']), 0);
    AfterConcat(INITIAL, Interrupted(job, s, response), WholePass(job, s', [response']));
  }
}
