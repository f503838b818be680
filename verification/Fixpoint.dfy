/** A second pass over an unchanged session has nothing left to do. */
module Fixpoint {
  import opened Common
  import opened Model
  import opened Config
  import opened Collector
  import opened Controller
  import opened Store

  /** Contexts that differ at most in what the label shows, what the plugin wrote, and the
      clock. */
  predicate SameButLabels(a: Context, b: Context) {
    a == b.(tab := b.tab.(currentLabel := a.tab.currentLabel, renderedLabel := a.tab.renderedLabel), now := a.now)
  }

  /** Templates that do not look at those three fields. */
  ghost predicate IgnoresLabels(engine: Engine) {
    forall t, a, b :: SameButLabels(a, b) ==> engine.output(t, a) == engine.output(t, b)
  }

  /** The server after a pass: every accepted rename is shown, nothing else has changed. */
  function TabsAfter(tabs: seq<RawTab>, outcomes: seq<Outcome>): seq<RawTab>
    requires |outcomes| == |tabs|
  {
    seq(|tabs|, i requires 0 <= i < |tabs| =>
      if Renamed(outcomes[i]) then tabs[i].(labelText := outcomes[i].desired) else tabs[i])
  }

  function SnapshotAfter(job: Job, s: Snapshot, history: Tabs, responses: seq<Response>): Snapshot
    requires |responses| == |s.tabs|
  {
    s.(tabs := TabsAfter(s.tabs, Outcomes(job, s, history, responses)))
  }

  function NextHistory(job: Job, s: Snapshot, history: Tabs, responses: seq<Response>): Tabs
    requires |responses| == |s.tabs|
  {
    HistoryAfter(history, s.tabs, Outcomes(job, s, history, responses))
  }

  /** A first background pass, and a second one on what it leaves: the same processes, but
      possibly other answers to renames and a later clock. */
  ghost predicate Repeated(job: Job, s: Snapshot, history: Tabs, responses: seq<Response>,
                           job': Job, responses': seq<Response>)
  {
    && |responses| == |s.tabs| == |responses'| && UniqueTabs(s.tabs)
    && job.trigger == Background && job' == job.(now := job'.now)
    && IgnoresLabels(job.engine)
    && forall i | 0 <= i < |s.tabs| :: responses'[i].process == responses[i].process
  }

  lemma TabsInIgnoresLabels(a: seq<RawTab>, b: seq<RawTab>, w: string)
    requires |a| == |b| && forall i | 0 <= i < |a| :: a[i].workspaceID == b[i].workspaceID
    ensures TabsIn(a, w) == TabsIn(b, w)
  {
    if a != [] {
      TabsInIgnoresLabels(a[..|a| - 1], b[..|b| - 1], w);
    }
  }

  /** Another label with the same source gives the same context up to the three fields. */
  lemma RelabelledContext(s: Snapshot, s': Snapshot, i: nat, entry: Option<LabelHistory>, entry': Option<LabelHistory>,
                          now: int, now': int)
    requires i < |s.tabs| == |s'.tabs| && s' == s.(tabs := s'.tabs)
    requires forall k | 0 <= k < |s.tabs| :: s'.tabs[k] == s.tabs[k].(labelText := s'.tabs[k].labelText)
    requires SourceLabel(entry', s'.tabs[i].labelText) == SourceLabel(entry, s.tabs[i].labelText)
    ensures SameButLabels(ContextOf(s', i, entry', now'), ContextOf(s, i, entry, now))
  {
    TabsInIgnoresLabels(s.tabs[..i], s'.tabs[..i], s.tabs[i].workspaceID);
  }

  /** The next pass sees the same source label, so the same context up to the three fields,
      and has nothing to observe. */
  lemma ContextRepeats(job: Job, s: Snapshot, history: Tabs, responses: seq<Response>, i: nat, now: int)
    requires |responses| == |s.tabs| && i < |s.tabs| && UniqueTabs(s.tabs)
    ensures var s' := SnapshotAfter(job, s, history, responses);
            var entry := Lookup(history, s.tabs[i].id);
            var entry' := Lookup(NextHistory(job, s, history, responses), s.tabs[i].id);
            && SameButLabels(ContextOf(s', i, entry', now), ContextOf(s, i, entry, job.now))
            && Observe(entry', s'.tabs[i].labelText) == None
  {
    var s', outcomes := SnapshotAfter(job, s, history, responses), Outcomes(job, s, history, responses);
    HistoryAfterAt(history, s.tabs, outcomes, i);
    var entry, entry' := Lookup(history, s.tabs[i].id), EntryAfter(history, s.tabs[i], outcomes[i]);
    SourceSettles(entry, s.tabs[i].labelText, outcomes[i]);
    RelabelledContext(s, s', i, entry, entry', job.now, now);
  }

  lemma DesiredIgnoresLabels(job: Job, job': Job, a: Context, b: Context, process: Option<ProcessInfo>)
    requires SameButLabels(a, b) && IgnoresLabels(job.engine) && job' == job.(now := job'.now)
    ensures Desired(job', a, process) == Desired(job, b, process)
  {
    ResolutionSeesOnlyMatchers(job.engine.lib, job.config, a, b);
    var x, y := Informed(a, process), Informed(b, process);
    if x.Some? {
      ResolutionSeesOnlyMatchers(job.engine.lib, job.config, x.value, y.value);
      var effective := Effectively(job.engine.lib, job.config, x.value);
      assert SameButLabels(x.value.(profile := effective.profileName), y.value.(profile := effective.profileName));
    }
  }

  /** The second pass attempts exactly the renames that the server refused in the first,
      with the same labels. */
  lemma SecondPassRetriesOnly(job: Job, s: Snapshot, history: Tabs, responses: seq<Response>,
                              job': Job, responses': seq<Response>, i: nat)
    requires Repeated(job, s, history, responses, job', responses') && i < |s.tabs|
    ensures var s', history' := SnapshotAfter(job, s, history, responses), NextHistory(job, s, history, responses);
            var first := OutcomeAt(job, s, history, responses, i);
            var second := OutcomeAt(job', s', history', responses', i);
            && (second.Attempted? <==> first.Attempted? && !first.accepted)
            && (second.Attempted? ==> second.desired == first.desired)
  {
    var s', history' := SnapshotAfter(job, s, history, responses), NextHistory(job, s, history, responses);
    ContextRepeats(job, s, history, responses, i, job'.now);
    var a := ContextOf(s', i, Lookup(history', s.tabs[i].id), job'.now);
    var b := ContextOf(s, i, Lookup(history, s.tabs[i].id), job.now);
    DesiredIgnoresLabels(job, job', a, b, responses[i].process);
  }

  /** The server refused no rename of the pass. */
  ghost predicate AllAccepted(outcomes: seq<Outcome>) {
    forall outcome | outcome in outcomes :: outcome.Attempted? ==> outcome.accepted
  }

  /** If the server refused nothing, the second pass sends no rename, records nothing and
      leaves the history as it is. */
  lemma SecondPassIsQuiet(job: Job, s: Snapshot, history: Tabs, responses: seq<Response>,
                          job': Job, responses': seq<Response>)
    requires Repeated(job, s, history, responses, job', responses')
    requires AllAccepted(Outcomes(job, s, history, responses))
    ensures var s', history' := SnapshotAfter(job, s, history, responses), NextHistory(job, s, history, responses);
            var outcomes' := Outcomes(job', s', history', responses');
            && Sent(s'.tabs, outcomes', |s.tabs|) == []
            && Updates(history', s'.tabs, outcomes', |s.tabs|) == map[]
            && HistoryAfter(history', s'.tabs, outcomes') == history'
  {
    var s', history' := SnapshotAfter(job, s, history, responses), NextHistory(job, s, history, responses);
    var outcomes' := Outcomes(job', s', history', responses');
    forall i | 0 <= i < |s.tabs|
      ensures !outcomes'[i].Attempted? && UpdateFor(history', s'.tabs[i], outcomes'[i]) == None
    {
      NothingLeftAt(job, s, history, responses, job', responses', i);
    }
    NothingSent(s'.tabs, outcomes', |s.tabs|);
    NothingRecorded(history', s'.tabs, outcomes', |s.tabs|);
    SameLive(s.tabs, s'.tabs);
    MergeRestricts(history, Updates(history, s.tabs, Outcomes(job, s, history, responses), |s.tabs|), Live(s.tabs));
    MergeNothing(history', Live(s'.tabs));
  }

  lemma NothingLeftAt(job: Job, s: Snapshot, history: Tabs, responses: seq<Response>,
                      job': Job, responses': seq<Response>, i: nat)
    requires Repeated(job, s, history, responses, job', responses') && i < |s.tabs|
    requires AllAccepted(Outcomes(job, s, history, responses))
    ensures var s', history' := SnapshotAfter(job, s, history, responses), NextHistory(job, s, history, responses);
            var outcome' := OutcomeAt(job', s', history', responses', i);
            !outcome'.Attempted? && UpdateFor(history', s'.tabs[i], outcome') == None
  {
    assert Outcomes(job, s, history, responses)[i] in Outcomes(job, s, history, responses);
    SecondPassRetriesOnly(job, s, history, responses, job', responses', i);
    ContextRepeats(job, s, history, responses, i, job'.now);
  }

  lemma {:induction false} NothingRecorded(history: Tabs, tabs: seq<RawTab>, outcomes: seq<Outcome>, n: nat)
    requires |outcomes| == |tabs| && n <= |tabs|
    requires forall i | 0 <= i < n :: UpdateFor(history, tabs[i], outcomes[i]) == None
    ensures Updates(history, tabs, outcomes, n) == map[]
  {
    if n > 0 {
      NothingRecorded(history, tabs, outcomes, n - 1);
    }
  }

  lemma MergeRestricts(stored: Tabs, updates: Tabs, live: set<TabID>)
    ensures Merge(stored, updates, live).Keys <= live
  {
  }

  lemma MergeNothing(stored: Tabs, live: set<TabID>)
    requires stored.Keys <= live
    ensures Merge(stored, map[], live) == stored
  {
  }

  lemma SameLive(a: seq<RawTab>, b: seq<RawTab>)
    requires |a| == |b| && forall i | 0 <= i < |a| :: a[i].id == b[i].id
    ensures Live(a) == Live(b)
  {
    forall id | id in Live(a) ensures id in Live(b) {
      var i :| 0 <= i < |a| && a[i].id == id;
      assert b[i] in b;
    }
    forall id | id in Live(b) ensures id in Live(a) {
      var i :| 0 <= i < |b| && b[i].id == id;
      assert a[i] in a;
    }
  }

  /** On the file: a committed first pass leaves the bytes of its history, and if every rename
      was accepted the second pass that loads them sends nothing and keeps the very same
      bytes, even where a write would fail. */
  lemma SecondPassKeepsTheFile(codec: Codec, job: Job, s: Snapshot, history: Tabs, responses: seq<Response>,
                               job': Job, responses': seq<Response>)
    requires Canonical(codec) && Repeated(job, s, history, responses, job', responses')
    requires AllAccepted(Outcomes(job, s, history, responses))
    ensures var s', history' := SnapshotAfter(job, s, history, responses), NextHistory(job, s, history, responses);
            var bytes := codec.encode(history');
            && View(codec, Some(bytes)) == Some(history')
            && (forall fault, before, after, sent ::
                  PassEffect(codec, job, s, history, responses, fault, before, after, Committed, sent) ==>
                    after == Some(bytes))
            && (forall fault, after, result, sent ::
                  PassEffect(codec, job', s', history', responses', fault, Some(bytes), after, result, sent) ==>
                    && sent == [] && after == Some(bytes)
                    && (result == Committed <==> fault == None || fault.value.Writing?))
  {
    SecondPassIsQuiet(job, s, history, responses, job', responses');
  }
}
