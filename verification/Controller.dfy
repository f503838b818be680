/** One reconciliation pass. */
module Controller {
  import Render
  import opened Common
  import opened Model
  import opened Config
  import opened Collector
  import opened Store

  datatype Trigger = Background | Action

  /** The libraries for matching, for templates and for grapheme clusters. */
  datatype Engine = Engine(
    lib: Libraries,
    output: (Template, Context) -> Option<string>,
    segment: Render.Segmentation)

  /** What a pass works with besides the server and the history. */
  datatype Job = Job(engine: Engine, config: Compiled, trigger: Trigger, target: TabID, now: int)

  /** The client's answers concerning one tab; no process information stands for an error. */
  datatype Response = Response(process: Option<ProcessInfo>, accepted: bool)

  datatype Outcome = Skipped | Attempted(desired: string, accepted: bool)

  datatype Rename = Rename(id: TabID, labelText: string)

  predicate Eligible(mode: Mode, trigger: Trigger) {
    match mode
    case Auto => true
    case Keybind => trigger == Action
    case Off => false
  }

  // ----- one tab

  /** The context with process data, which an ineligible tab never asks for. */
  function Informed(context: Context, process: Option<ProcessInfo>): Option<Context> {
    if context.pane.id == "" then Some(context)
    else if process == None then None
    else Some(WithProcess(context, process.value))
  }

  /** Whether the mode in effect for the context permits the trigger. */
  predicate Permits(job: Job, context: Context) {
    Eligible(Effectively(job.engine.lib, job.config, context).mode, job.trigger)
  }

  /** The text of the label that an output is displayed as. */
  function Displayed(engine: Engine, output: Option<string>, maxWidth: int): Option<string> {
    var made := Render.Execute(output, engine.segment, maxWidth);
    if made == None then None else Some(Render.Text(made.value))
  }

  /** What the tab's template prints, in the mode in effect once the process is known. */
  function Output(job: Job, informed: Context): Option<string> {
    var effective := Effectively(job.engine.lib, job.config, informed);
    job.engine.output(effective.template, informed.(profile := effective.profileName))
  }

  /** The label the tab should show, if this pass is to write it and can render it. */
  function Desired(job: Job, context: Context, process: Option<ProcessInfo>): Option<string> {
    if !Permits(job, context) then None
    else
      var informed := Informed(context, process);
      if informed == None || !Permits(job, informed.value) then None
      else
        Displayed(job.engine, Output(job, informed.value),
                  Effectively(job.engine.lib, job.config, informed.value).maxWidth)
  }

  predicate Targeted(job: Job, id: TabID) {
    job.trigger == Background || id == job.target
  }

  function TabOutcome(job: Job, context: Context, response: Response): Outcome {
    var desired := Desired(job, context, response.process);
    if !Targeted(job, context.tab.id) || desired == None || desired.value == context.tab.currentLabel then Skipped
    else Attempted(desired.value, response.accepted)
  }

  predicate Renamed(outcome: Outcome) { outcome.Attempted? && outcome.accepted }

  /** The entry to record for a source label that changed outside the plugin. */
  function Observe(entry: Option<LabelHistory>, current: string): Option<LabelHistory> {
    var observed := SourceLabel(entry, current);
    if entry.Some? && entry.value.source == observed then None
    else if entry == None && observed == "" then None
    else Some(LabelHistory(observed, if entry.Some? then entry.value.rendered else ""))
  }

  /** The entry this pass records for the tab, if it records one. */
  function TabUpdate(entry: Option<LabelHistory>, current: string, outcome: Outcome): Option<LabelHistory> {
    if Renamed(outcome) then Some(LabelHistory(SourceLabel(entry, current), outcome.desired))
    else Observe(entry, current)
  }

  /** Whether or not the tab was renamed, the entry recorded with the label then shown gives
      back the source label the pass worked with, and leaves nothing to observe. */
  lemma SourceSettles(entry: Option<LabelHistory>, current: string, outcome: Outcome)
    ensures var shown := if Renamed(outcome) then outcome.desired else current;
            var update := TabUpdate(entry, current, outcome);
            var entry' := if update.Some? then update else entry;
            var source := SourceLabel(entry, current);
            && SourceLabel(entry', shown) == source
            && (if entry'.Some? then entry'.value.source == source else source == "")
  {
  }

  /** Everything it takes for the label to be the tab's: the trigger means the tab; the mode in
      effect is `Auto`, or `Keybind` for an action, both before and after the process is known;
      the process is known, if there is a pane to ask about; and the template of that mode,
      told the name of its profile, is displayed as that label. */
  ghost predicate Due(job: Job, context: Context, process: Option<ProcessInfo>, labelText: string) {
    && (job.trigger == Background || context.tab.id == job.target)
    && Effectively(job.engine.lib, job.config, context).mode
       in (if job.trigger == Action then {Auto, Keybind} else {Auto})
    && (context.pane.id == "" || process.Some?)
    && var informed := if context.pane.id == "" then context else WithProcess(context, process.value);
       var effective := Effectively(job.engine.lib, job.config, informed);
       && effective.mode in (if job.trigger == Action then {Auto, Keybind} else {Auto})
       && var output := job.engine.output(effective.template, informed.(profile := effective.profileName));
          var made := Render.Execute(output, job.engine.segment, effective.maxWidth);
          made.Some? && Render.Text(made.value) == labelText
  }

  /** A tab is renamed to a label, as far as the plugin is concerned, exactly when that label
      is due and not already shown. */
  lemma AttemptedIff(job: Job, context: Context, response: Response, labelText: string)
    ensures TabOutcome(job, context, response) == Attempted(labelText, response.accepted)
       <==> Due(job, context, response.process, labelText) && labelText != context.tab.currentLabel
    ensures TabOutcome(job, context, response).Attempted? ==>
              TabOutcome(job, context, response).accepted == response.accepted
  {
  }

  /** The label of a rename shows no control character, and it is empty exactly when the
      template printed nothing but placeholders for missing values. */
  lemma AttemptedLabels(job: Job, context: Context, response: Response)
    requires Render.Segments(job.engine.segment) && TabOutcome(job, context, response).Attempted?
    ensures var informed := Informed(context, response.process);
            && informed.Some? && Output(job, informed.value).Some?
            && var desired, output := TabOutcome(job, context, response).desired, Output(job, informed.value).value;
               && (desired == "" <==> exists n: nat :: n > 0 && output == Render.Copies(n))
               && forall c | c in desired :: !Render.IsControl(c)
  {
    var informed := Informed(context, response.process).value;
    var maxWidth := Effectively(job.engine.lib, job.config, informed).maxWidth;
    Render.EmptyLabelIff(Output(job, informed).value, job.engine.segment, maxWidth);
    Render.LabelIsDisplayable(Output(job, informed), job.engine.segment, maxWidth);
  }

  // ----- all tabs of a snapshot

  function OutcomeAt(job: Job, s: Snapshot, history: Tabs, responses: seq<Response>, i: nat): Outcome
    requires |responses| == |s.tabs| && i < |s.tabs|
  {
    TabOutcome(job, ContextOf(s, i, Lookup(history, s.tabs[i].id), job.now), responses[i])
  }

  function Outcomes(job: Job, s: Snapshot, history: Tabs, responses: seq<Response>): (outcomes: seq<Outcome>)
    requires |responses| == |s.tabs|
    ensures |outcomes| == |s.tabs|
  {
    seq(|s.tabs|, i requires 0 <= i < |s.tabs| => OutcomeAt(job, s, history, responses, i))
  }

  function UpdateFor(history: Tabs, raw: RawTab, outcome: Outcome): Option<LabelHistory> {
    TabUpdate(Lookup(history, raw.id), raw.labelText, outcome)
  }

  /** The entries recorded for the first `n` tabs. */
  function Updates(history: Tabs, tabs: seq<RawTab>, outcomes: seq<Outcome>, n: nat): Tabs
    requires |outcomes| == |tabs| && n <= |tabs|
  {
    if n == 0 then map[]
    else
      var before := Updates(history, tabs, outcomes, n - 1);
      var update := UpdateFor(history, tabs[n - 1], outcomes[n - 1]);
      if update.Some? then before[tabs[n - 1].id := update.value] else before
  }

  /** The renames sent for the first `n` tabs. */
  function Sent(tabs: seq<RawTab>, outcomes: seq<Outcome>, n: nat): seq<Rename>
    requires |outcomes| == |tabs| && n <= |tabs|
  {
    if n == 0 then []
    else if outcomes[n - 1].Attempted? then
      Sent(tabs, outcomes, n - 1) + [Rename(tabs[n - 1].id, outcomes[n - 1].desired)]
    else Sent(tabs, outcomes, n - 1)
  }

  /** How many of the first `n` tabs are attempted. */
  function Attempts(outcomes: seq<Outcome>, n: nat): nat
    requires n <= |outcomes|
  {
    if n == 0 then 0 else Attempts(outcomes, n - 1) + (if outcomes[n - 1].Attempted? then 1 else 0)
  }

  /** The renames are sent in tab order: the rename of an attempted tab comes after those of
      the attempted tabs before it, and there are no others. */
  lemma {:induction false} SentInOrder(tabs: seq<RawTab>, outcomes: seq<Outcome>, n: nat)
    requires |outcomes| == |tabs| && n <= |tabs|
    ensures |Sent(tabs, outcomes, n)| == Attempts(outcomes, n)
    ensures forall i | 0 <= i < n && outcomes[i].Attempted? ::
              && Attempts(outcomes, i) < Attempts(outcomes, n)
              && Sent(tabs, outcomes, n)[Attempts(outcomes, i)] == Rename(tabs[i].id, outcomes[i].desired)
  {
    if n > 0 {
      SentInOrder(tabs, outcomes, n - 1);
    }
  }

  /** The rename is one that is due for a tab of the snapshot that shows something else. */
  ghost predicate Justified(job: Job, s: Snapshot, history: Tabs, responses: seq<Response>, r: Rename)
    requires |responses| == |s.tabs|
  {
    exists i :: 0 <= i < |s.tabs| && JustifiedAt(job, s, history, responses, r, i)
  }

  ghost predicate JustifiedAt(job: Job, s: Snapshot, history: Tabs, responses: seq<Response>, r: Rename, i: nat)
    requires |responses| == |s.tabs| && i < |s.tabs|
  {
    && s.tabs[i].id == r.id && s.tabs[i].labelText != r.labelText
    && Due(job, ContextOf(s, i, Lookup(history, s.tabs[i].id), job.now), responses[i].process, r.labelText)
  }

  lemma {:induction false} SentIsJustified(job: Job, s: Snapshot, history: Tabs, responses: seq<Response>, n: nat)
    requires |responses| == |s.tabs| && n <= |s.tabs|
    ensures forall r | r in Sent(s.tabs, Outcomes(job, s, history, responses), n) ::
              Justified(job, s, history, responses, r)
  {
    if n > 0 {
      SentIsJustified(job, s, history, responses, n - 1);
      var context := ContextOf(s, n - 1, Lookup(history, s.tabs[n - 1].id), job.now);
      var outcome := TabOutcome(job, context, responses[n - 1]);
      assert Outcomes(job, s, history, responses)[n - 1] == outcome;
      if outcome.Attempted? {
        AttemptedIff(job, context, responses[n - 1], outcome.desired);
        assert JustifiedAt(job, s, history, responses, Rename(s.tabs[n - 1].id, outcome.desired), n - 1);
      }
    }
  }

  function Live(tabs: seq<RawTab>): set<TabID> {
    set raw | raw in tabs :: raw.id
  }

  /** Stored entries overridden by this pass's, restricted to live tabs. */
  function Merge(stored: Tabs, updates: Tabs, live: set<TabID>): Tabs {
    map id | id in (stored.Keys + updates.Keys) * live :: if id in updates then updates[id] else stored[id]
  }

  /** With unique ids a tab's update is recorded under its id, and under no other. */
  lemma {:induction false} UpdatesAt(history: Tabs, tabs: seq<RawTab>, outcomes: seq<Outcome>, n: nat, i: nat)
    requires |outcomes| == |tabs| && i < |tabs| && n <= |tabs| && UniqueTabs(tabs)
    ensures Lookup(Updates(history, tabs, outcomes, n), tabs[i].id)
         == if i < n then UpdateFor(history, tabs[i], outcomes[i]) else None
  {
    if n > 0 {
      UpdatesAt(history, tabs, outcomes, n - 1, i);
    }
  }

  /** The history entry a completed pass leaves for a tab. */
  function EntryAfter(history: Tabs, raw: RawTab, outcome: Outcome): Option<LabelHistory> {
    var update := UpdateFor(history, raw, outcome);
    if update.Some? then update else Lookup(history, raw.id)
  }

  function HistoryAfter(history: Tabs, tabs: seq<RawTab>, outcomes: seq<Outcome>): Tabs
    requires |outcomes| == |tabs|
  {
    Merge(history, Updates(history, tabs, outcomes, |tabs|), Live(tabs))
  }

  /** A pass keeps exactly the live tabs, each with its own update or else its old entry. */
  lemma HistoryAfterAt(history: Tabs, tabs: seq<RawTab>, outcomes: seq<Outcome>, i: nat)
    requires |outcomes| == |tabs| && i < |tabs| && UniqueTabs(tabs)
    ensures Lookup(HistoryAfter(history, tabs, outcomes), tabs[i].id) == EntryAfter(history, tabs[i], outcomes[i])
    ensures HistoryAfter(history, tabs, outcomes).Keys <= Live(tabs)
  {
    UpdatesAt(history, tabs, outcomes, |tabs|, i);
    assert tabs[i] in tabs;
  }

  /** Per-tab isolation: the rename attempted and the entry recorded for a tab depend only on
      the job, the snapshot, its own history entry and its own answers from the client.
      Whatever happens to the other tabs changes nothing. */
  lemma TabsAreIsolated(job: Job, s: Snapshot, i: nat,
                        history: Tabs, responses: seq<Response>, history': Tabs, responses': seq<Response>)
    requires |responses| == |responses'| == |s.tabs| && i < |s.tabs| && UniqueTabs(s.tabs)
    requires Lookup(history, s.tabs[i].id) == Lookup(history', s.tabs[i].id)
    requires responses[i] == responses'[i]
    ensures var outcomes, outcomes' := Outcomes(job, s, history, responses), Outcomes(job, s, history', responses');
            && outcomes[i] == outcomes'[i]
            && Lookup(HistoryAfter(history, s.tabs, outcomes), s.tabs[i].id)
            == Lookup(HistoryAfter(history', s.tabs, outcomes'), s.tabs[i].id)
  {
    HistoryAfterAt(history, s.tabs, Outcomes(job, s, history, responses), i);
    HistoryAfterAt(history', s.tabs, Outcomes(job, s, history', responses'), i);
  }

  // ----- the pass itself

  datatype PassResult =
    | NoTarget | NoConfig | LoadFailed | SnapshotFailed | TargetMissing | Cancelled | CommitFailed | Committed

  /** Merges the updates into the stored map and purges tabs that are gone, one by one. */
  method MergeInto(stored: Tabs, updates: Tabs, live: set<TabID>) returns (tabs: Tabs)
    ensures tabs == Merge(stored, updates, live)
  {
    tabs := Override(stored, updates);
    tabs := Purge(tabs, live);
  }

  method Override(stored: Tabs, updates: Tabs) returns (tabs: Tabs)
    ensures tabs == stored + updates
  {
    tabs := stored;
    var todo := updates.Keys;
    while todo != {}
      invariant todo <= updates.Keys && tabs.Keys == stored.Keys + (updates.Keys - todo)
      invariant forall id | id in stored && (id !in updates || id in todo) :: tabs[id] == stored[id]
      invariant forall id | id in updates && id !in todo :: tabs[id] == updates[id]
      decreases |todo|
    {
      var id :| id in todo;
      tabs := tabs[id := updates[id]];
      todo := todo - {id};
    }
  }

  method Purge(all: Tabs, live: set<TabID>) returns (tabs: Tabs)
    ensures tabs == map id | id in all && id in live :: all[id]
  {
    tabs := all;
    var todo := tabs.Keys;
    while todo != {}
      invariant todo <= all.Keys
      invariant forall id :: id in tabs <==> id in all && (id in live || id in todo)
      invariant forall id | id in tabs :: tabs[id] == all[id]
      decreases |todo|
    {
      var id :| id in todo;
      if id !in live {
        tabs := tabs - {id};
      }
      todo := todo - {id};
    }
  }

  /** A label the plugin did not write is recorded even when the tab is not renamed; a rename
      replaces that entry. */
  method Record(updates: Tabs, entry: Option<LabelHistory>, current: string, id: TabID, outcome: Outcome)
    returns (recorded: Tabs)
    ensures var update := TabUpdate(entry, current, outcome);
            recorded == if update.Some? then updates[id := update.value] else updates
  {
    recorded := updates;
    var observed := Observe(entry, current);
    if observed.Some? {
      recorded := recorded[id := observed.value];
    }
    if Renamed(outcome) {
      recorded := recorded[id := LabelHistory(SourceLabel(entry, current), outcome.desired)];
    }
  }

  /** `contexts` describe `tabs`, and `outcomes` are what the job makes of them. */
  ghost predicate Describes(job: Job, tabs: seq<RawTab>, contexts: seq<Context>, responses: seq<Response>,
                            outcomes: seq<Outcome>)
  {
    && |contexts| == |responses| == |outcomes| == |tabs|
    && (forall i | 0 <= i < |tabs| :: contexts[i].tab.id == tabs[i].id)
    && (forall i | 0 <= i < |tabs| :: contexts[i].tab.currentLabel == tabs[i].labelText)
    && (forall i | 0 <= i < |tabs| :: outcomes[i] == TabOutcome(job, contexts[i], responses[i]))
  }

  lemma BuildDescribes(job: Job, s: Snapshot, history: Tabs, responses: seq<Response>)
    requires |responses| == |s.tabs|
    ensures Describes(job, s.tabs, Contexts(s, history, job.now), responses, Outcomes(job, s, history, responses))
  {
    var contexts := Contexts(s, history, job.now);
    forall i | 0 <= i < |s.tabs| ensures contexts[i] == ContextOf(s, i, Lookup(history, s.tabs[i].id), job.now) {
      ContextAt(s, history, job.now, i);
    }
  }

  /** How many tabs, from the i-th on, a pass gets through: before each tab it works on it
      looks whether it has been cancelled, which it is from the tab `cancelAt` on. */
  function Handled(job: Job, tabs: seq<RawTab>, cancelAt: nat, i: nat): (n: nat)
    requires i <= |tabs|
    ensures i <= n <= |tabs| && (n < |tabs| ==> n >= cancelAt && Targeted(job, tabs[n].id))
    ensures forall j | i <= j < n :: j < cancelAt || !Targeted(job, tabs[j].id)
    decreases |tabs| - i
  {
    if i == |tabs| || (i >= cancelAt && Targeted(job, tabs[i].id)) then i else Handled(job, tabs, cancelAt, i + 1)
  }

  method ReconcileTabs(job: Job, ghost tabs: seq<RawTab>, history: Tabs, contexts: seq<Context>,
                       responses: seq<Response>, cancelAt: nat, ghost outcomes: seq<Outcome>)
    returns (updates: Tabs, live: set<TabID>, sent: seq<Rename>, cancelled: bool)
    requires Describes(job, tabs, contexts, responses, outcomes)
    ensures sent == Sent(tabs, outcomes, Handled(job, tabs, cancelAt, 0))
    ensures cancelled <==> Handled(job, tabs, cancelAt, 0) < |tabs|
    ensures !cancelled ==> updates == Updates(history, tabs, outcomes, |tabs|) && live == Live(tabs)
  {
    updates, live, sent := map[], {}, [];
    for i := 0 to |contexts|
      invariant updates == Updates(history, tabs, outcomes, i)
      invariant sent == Sent(tabs, outcomes, i)
      invariant live == Live(tabs[..i])
      invariant Handled(job, tabs, cancelAt, i) == Handled(job, tabs, cancelAt, 0)
    {
      LiveNext(tabs, i);
      var context := contexts[i];
      var id := context.tab.id;
      live := live + {id};
      if Targeted(job, id) && i >= cancelAt {
        return updates, live, sent, true;
      }
      var outcome := TabOutcome(job, context, responses[i]);
      updates := Record(updates, Lookup(history, id), context.tab.currentLabel, id, outcome);
      if outcome.Attempted? {
        sent := sent + [Rename(id, outcome.desired)];
      }
    }
    assert tabs[..|tabs|] == tabs;
    cancelled := false;
  }

  lemma LiveNext(tabs: seq<RawTab>, i: nat)
    requires i < |tabs|
    ensures Live(tabs[..i + 1]) == Live(tabs[..i]) + {tabs[i].id}
  {
    assert tabs[..i + 1] == tabs[..i] + [tabs[i]];
    assert tabs[i] in tabs[..i + 1];
    assert forall raw | raw in tabs[..i] :: raw in tabs[..i + 1];
  }

  /** Why a pass stops before its commit, if it does. */
  function Refusal(trigger: Trigger, target: TabID, config: Option<Compiled>, history: Option<Tabs>,
                   snapshot: Option<Snapshot>): Option<PassResult>
  {
    if trigger == Action && target == "" then Some(NoTarget)
    else if config == None then Some(NoConfig)
    else if history == None then Some(LoadFailed)
    else if snapshot == None then Some(SnapshotFailed)
    else if trigger == Action && target !in Live(snapshot.value.tabs) then Some(TargetMissing)
    else None
  }

  /** What a pass that reaches its commit does to the file. */
  predicate PassEffect(codec: Codec, job: Job, s: Snapshot, history: Tabs, responses: seq<Response>,
                       fault: Option<UpdateFault>, before: Option<Bytes>, after: Option<Bytes>,
                       result: PassResult, sent: seq<Rename>)
    requires |responses| == |s.tabs|
  {
    var outcomes := Outcomes(job, s, history, responses);
    var encoded := codec.encode(HistoryAfter(history, s.tabs, outcomes));
    && sent == Sent(s.tabs, outcomes, |s.tabs|)
    && (result == Committed <==> fault == None || (fault.value.Writing? && before == Some(encoded)))
    && (result == Committed ==> after == Some(encoded))
    && (result != Committed ==> result == CommitFailed && after == before)
  }

  lemma {:induction false} NothingSent(tabs: seq<RawTab>, outcomes: seq<Outcome>, n: nat)
    requires |outcomes| == |tabs| && n <= |tabs|
    requires forall i | 0 <= i < n :: !outcomes[i].Attempted?
    ensures Sent(tabs, outcomes, n) == []
  {
    if n > 0 {
      NothingSent(tabs, outcomes, n - 1);
    }
  }

  /** An action whose target is gone works on no tab at all. */
  lemma NothingForMissingTarget(job: Job, s: Snapshot, history: Tabs, responses: seq<Response>, cancelAt: nat)
    requires |responses| == |s.tabs| && job.trigger == Action && job.target !in Live(s.tabs)
    ensures Handled(job, s.tabs, cancelAt, 0) == |s.tabs|
    ensures Sent(s.tabs, Outcomes(job, s, history, responses), |s.tabs|) == []
  {
    forall i | 0 <= i < |s.tabs| ensures !Targeted(job, s.tabs[i].id) {
      assert s.tabs[i] in s.tabs;
    }
    NothingSent(s.tabs, Outcomes(job, s, history, responses), |s.tabs|);
  }

  /** Merges the updates into what is stored by then.  Nothing but the result changes when
      that is what the file already says. */
  method Commit(file: StateFile, updates: Tabs, live: set<TabID>, fault: Option<UpdateFault>)
    returns (result: PassResult)
    requires file.temporary == None && View(file.codec, file.file).Some?
    modifies file
    ensures file.temporary == None
    ensures var encoded := file.codec.encode(Merge(View(file.codec, old(file.file)).value, updates, live));
            && (result == Committed <==> fault == None || (fault.value.Writing? && old(file.file) == Some(encoded)))
            && (result == Committed ==> file.file == Some(encoded))
            && (result != Committed ==> result == CommitFailed && file.file == old(file.file))
  {
    var written := file.Update((tabs: Tabs) => (true, Merge(tabs, updates, live)), fault);
    assert fault.Some? ==> fault.value.Access? || fault.value.Encoding? || fault.value.Writing?;
    assert written.Err? ==> written.error.Undecodable? || written.error.AccessError? || written.error.EncodeError?
                            || written.error.WriteError?;
    result := if written.Err? then CommitFailed else Committed;
  }

  /** The pass once its snapshot is there. */
  method ReconcileSnapshot(job: Job, s: Snapshot, history: Tabs, responses: seq<Response>, cancelAt: nat,
                           file: StateFile, fault: Option<UpdateFault>)
    returns (result: PassResult, sent: seq<Rename>)
    requires file.temporary == None && View(file.codec, file.file) == Some(history)
    requires |responses| == |s.tabs|
    modifies file
    ensures file.temporary == None
    ensures var handled := Handled(job, s.tabs, cancelAt, 0);
            if job.trigger == Action && job.target !in Live(s.tabs) then
              result == TargetMissing && file.file == old(file.file) && sent == []
            else if handled < |s.tabs| then
              result == Cancelled && file.file == old(file.file)
              && sent == Sent(s.tabs, Outcomes(job, s, history, responses), handled)
            else PassEffect(file.codec, job, s, history, responses, fault, old(file.file), file.file, result, sent)
  {
    var contexts := Build(s, history, job.now);
    var updates, live, cancelled;
    BuildDescribes(job, s, history, responses);
    updates, live, sent, cancelled :=
      ReconcileTabs(job, s.tabs, history, contexts, responses, cancelAt, Outcomes(job, s, history, responses));
    if job.trigger == Action && job.target !in Live(s.tabs) {
      NothingForMissingTarget(job, s, history, responses, cancelAt);
    }
    if cancelled {
      return Cancelled, sent;
    }
    if job.trigger == Action && job.target !in live {
      return TargetMissing, sent;
    }
    result := Commit(file, updates, live, fault);
  }

  /** One whole pass.  A refused pass leaves the file alone and sends nothing; a cancelled one
      leaves the file alone and has sent what came before; any other sends what `Sent` says
      and leaves the file as the encoding of `HistoryAfter`, unless the write fails; equal
      bytes are not rewritten. */
  method Reconcile(engine: Engine, config: Option<Compiled>, trigger: Trigger, target: TabID, now: int,
                   file: StateFile, loadFault: Option<AccessStep>, snapshot: Option<Snapshot>,
                   responses: seq<Response>, cancelAt: nat, fault: Option<UpdateFault>)
    returns (result: PassResult, sent: seq<Rename>)
    requires file.temporary == None
    requires snapshot.Some? ==> |responses| == |snapshot.value.tabs|
    modifies file
    ensures file.temporary == None
    ensures var history := if loadFault == None then View(file.codec, old(file.file)) else None;
            var refusal := Refusal(trigger, target, config, history, snapshot);
            if refusal.Some? then
              result == refusal.value && file.file == old(file.file) && sent == []
            else
              var job, s := Job(engine, config.value, trigger, target, now), snapshot.value;
              var handled := Handled(job, s.tabs, cancelAt, 0);
              if handled < |s.tabs| then
                result == Cancelled && file.file == old(file.file)
                && sent == Sent(s.tabs, Outcomes(job, s, history.value, responses), handled)
              else
                PassEffect(file.codec, job, s, history.value, responses, fault, old(file.file), file.file, result, sent)
    ensures forall r | r in sent ::
              && config.Some? && snapshot.Some? && View(file.codec, old(file.file)).Some?
              && Justified(Job(engine, config.value, trigger, target, now), snapshot.value,
                           View(file.codec, old(file.file)).value, responses, r)
    ensures trigger == Action && target == "" ==> result == NoTarget
    ensures trigger == Action && snapshot.Some? && target !in Live(snapshot.value.tabs) ==>
              result != Committed && file.file == old(file.file) && sent == []
  {
    sent := [];
    if trigger == Action && target == "" {
      return NoTarget, sent;
    }
    if config == None {
      return NoConfig, sent;
    }
    var loaded := file.Load(loadFault);
    if loaded.Err? {
      return LoadFailed, sent;
    }
    if snapshot == None {
      return SnapshotFailed, sent;
    }
    var job := Job(engine, config.value, trigger, target, now);
    var s := snapshot.value;
    result, sent := ReconcileSnapshot(job, s, loaded.value, responses, cancelAt, file, fault);
    SentIsJustified(job, s, loaded.value, responses, |s.tabs|);
    SentIsJustified(job, s, loaded.value, responses, Handled(job, s.tabs, cancelAt, 0));
  }
}
