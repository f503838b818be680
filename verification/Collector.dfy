/** Builds the template contexts of one snapshot. */
module Collector {
  import opened Common
  import opened Model

  datatype RawWorkspace = RawWorkspace(id: string, number: int, labelText: string, detail: string)
  datatype RawTab = RawTab(id: TabID, workspaceID: string, number: int, labelText: string, detail: string)
  datatype RawPane = RawPane(
    id: string, tabID: TabID, cwd: string, foregroundCwd: string, agent: string, agentStatus: string, detail: string)
  datatype LayoutPane = LayoutPane(paneID: string, focused: bool)
  datatype Layout = Layout(tabID: TabID, focusedPaneID: string, panes: seq<LayoutPane>)
  datatype RawAgent = RawAgent(paneID: string, kind: string, status: string, detail: string)
  datatype Snapshot = Snapshot(
    workspaces: seq<RawWorkspace>, tabs: seq<RawTab>, panes: seq<RawPane>,
    layouts: seq<Layout>, agents: seq<RawAgent>)

  datatype ProcessInfo = ProcessInfo(
    foregroundGroup: Option<int>, processes: seq<Process>, shellPID: Option<int>, tty: string)

  const NO_RAW_PANE := RawPane("", "", "", "", "", "", "")

  predicate UniqueTabs(tabs: seq<RawTab>) {
    forall i, j | 0 <= i < j < |tabs| :: tabs[i].id != tabs[j].id
  }

  // ----- the pane a tab is described by

  /** The first pane with the given id. */
  function FindPane(panes: seq<RawPane>, id: string): Option<RawPane> {
    if panes == [] then None
    else if panes[0].id == id then Some(panes[0])
    else FindPane(panes[1..], id)
  }

  function FocusedEntry(entries: seq<LayoutPane>, panes: seq<RawPane>): Option<RawPane> {
    if entries == [] then None
    else if entries[0].focused && FindPane(panes, entries[0].paneID).Some? then FindPane(panes, entries[0].paneID)
    else FocusedEntry(entries[1..], panes)
  }

  /** The pane the layout focuses, or else the tab's first one; and whether the layout chose. */
  function SelectPane(layout: Option<Layout>, panes: seq<RawPane>): (RawPane, bool) {
    var focused :=
      if layout == None then None
      else if layout.value.focusedPaneID != "" && FindPane(panes, layout.value.focusedPaneID).Some? then
        FindPane(panes, layout.value.focusedPaneID)
      else FocusedEntry(layout.value.panes, panes);
    if focused.Some? then (focused.value, true)
    else if panes == [] then (NO_RAW_PANE, false)
    else (panes[0], false)
  }

  /** Whether the layout names this pane as focused. */
  predicate NamesAsFocused(layout: Layout, id: string) {
    (layout.focusedPaneID != "" && layout.focusedPaneID == id) || LayoutPane(id, true) in layout.panes
  }

  lemma FindPaneFinds(panes: seq<RawPane>, id: string)
    ensures FindPane(panes, id).Some? <==> exists p :: p in panes && p.id == id
    ensures FindPane(panes, id).Some? ==> FindPane(panes, id).value in panes && FindPane(panes, id).value.id == id
  {
    if panes != [] && panes[0].id != id {
      FindPaneFinds(panes[1..], id);
      assert forall p :: p in panes <==> p == panes[0] || p in panes[1..];
    }
  }

  lemma {:induction false} FocusedEntryFinds(entries: seq<LayoutPane>, panes: seq<RawPane>)
    ensures FocusedEntry(entries, panes).Some? <==> exists p :: p in panes && LayoutPane(p.id, true) in entries
    ensures FocusedEntry(entries, panes).Some? ==>
              var p := FocusedEntry(entries, panes).value; p in panes && LayoutPane(p.id, true) in entries
  {
    if entries != [] {
      FindPaneFinds(panes, entries[0].paneID);
      FocusedEntryFinds(entries[1..], panes);
      assert forall e :: e in entries <==> e == entries[0] || e in entries[1..];
      assert entries[0].focused ==> entries[0] == LayoutPane(entries[0].paneID, true);
    }
  }

  /** The layout decides exactly when it names one of the tab's own panes as focused, and then
      the selected pane is such a pane; a tab with panes is always described by one of them. */
  lemma SelectionFollowsLayout(layout: Option<Layout>, panes: seq<RawPane>)
    ensures var (pane, found) := SelectPane(layout, panes);
            && (found <==> layout.Some? && exists p :: p in panes && NamesAsFocused(layout.value, p.id))
            && (found ==> NamesAsFocused(layout.value, pane.id))
            && (panes != [] ==> pane in panes)
  {
    if layout.Some? {
      FindPaneFinds(panes, layout.value.focusedPaneID);
      FocusedEntryFinds(layout.value.panes, panes);
    }
  }

  // ----- lookups

  function LastWorkspace(ws: seq<RawWorkspace>, id: string): Option<Workspace> {
    if ws == [] then None
    else
      var n := |ws| - 1;
      if ws[n].id == id then Some(NormalizeWorkspace(ws[n], n)) else LastWorkspace(ws[..n], id)
  }

  function LastLayout(layouts: seq<Layout>, id: TabID): Option<Layout> {
    if layouts == [] then None
    else
      var n := |layouts| - 1;
      if layouts[n].tabID == id then Some(layouts[n]) else LastLayout(layouts[..n], id)
  }

  function LastAgent(agents: seq<RawAgent>, id: string): Option<RawAgent> {
    if agents == [] then None
    else
      var n := |agents| - 1;
      if agents[n].paneID == id then Some(agents[n]) else LastAgent(agents[..n], id)
  }

  function PanesOf(panes: seq<RawPane>, id: TabID): seq<RawPane> {
    if panes == [] then []
    else
      var n := |panes| - 1;
      PanesOf(panes[..n], id) + (if panes[n].tabID == id then [panes[n]] else [])
  }

  /** How many of the tabs belong to the workspace. */
  function TabsIn(tabs: seq<RawTab>, workspaceID: string): nat {
    if tabs == [] then 0
    else
      var n := |tabs| - 1;
      TabsIn(tabs[..n], workspaceID) + (if tabs[n].workspaceID == workspaceID then 1 else 0)
  }

  function NormalizeWorkspace(raw: RawWorkspace, index: int): Workspace {
    Workspace(raw.id, index + 1, raw.number, raw.labelText, raw.detail)
  }

  function NormalizePane(raw: RawPane, focusedInTab: bool): Pane {
    Pane(raw.id, raw.cwd, raw.foregroundCwd, if raw.foregroundCwd != "" then raw.foregroundCwd else raw.cwd,
         focusedInTab, raw.detail)
  }

  function NormalizeAgent(agent: Option<RawAgent>, pane: RawPane): Agent {
    if agent == None then Agent(false, pane.agent, pane.agentStatus, "")
    else Agent(true, agent.value.kind, agent.value.status, agent.value.detail)
  }

  function NormalizePanes(panes: seq<RawPane>, selected: RawPane, found: bool): seq<Pane> {
    seq(|panes|, i requires 0 <= i < |panes| => NormalizePane(panes[i], found && panes[i].id == selected.id))
  }

  function FirstWithID(panes: seq<Pane>, id: string): Pane {
    if panes == [] then NO_PANE else if panes[0].id == id then panes[0] else FirstWithID(panes[1..], id)
  }

  /** The label the plugin did not write: what the server shows, unless that is what the
      plugin wrote last, and then the recorded source. */
  function SourceLabel(entry: Option<LabelHistory>, current: string): string {
    if entry.Some? && current == entry.value.rendered then entry.value.source else current
  }

  function Lookup(history: Tabs, id: TabID): Option<LabelHistory> {
    if id in history then Some(history[id]) else None
  }

  /** One tab as its context shows it. */
  function Describe(raw: RawTab, workspace: Workspace, tabPanes: seq<RawPane>, selected: RawPane, found: bool,
                    agent: Option<RawAgent>, entry: Option<LabelHistory>, index: nat, now: int): Context
  {
    var panes := NormalizePanes(tabPanes, selected, found);
    Context(
      workspace,
      Tab(raw.id, SourceLabel(entry, raw.labelText), raw.labelText,
          if entry.Some? then entry.value.rendered else "", index, index + 1, raw.number, raw.detail),
      FirstWithID(panes, selected.id), panes,
      NO_PROCESS, [], NO_PROCESS, NO_SHELL,
      NormalizeAgent(agent, selected),
      "default", now)
  }

  /** The context of one tab, given its position in the snapshot and its own history entry. */
  function ContextOf(s: Snapshot, i: nat, entry: Option<LabelHistory>, now: int): Context
    requires i < |s.tabs|
  {
    var raw := s.tabs[i];
    var tabPanes := PanesOf(s.panes, raw.id);
    var (selected, found) := SelectPane(LastLayout(s.layouts, raw.id), tabPanes);
    Describe(raw, GetOr(LastWorkspace(s.workspaces, raw.workspaceID), NO_WORKSPACE), tabPanes, selected, found,
             LastAgent(s.agents, selected.id), entry, TabsIn(s.tabs[..i], raw.workspaceID), now)
  }

  /** The contexts of the first `n` tabs. */
  function ContextsUpTo(s: Snapshot, history: Tabs, now: int, n: nat): (contexts: seq<Context>)
    requires n <= |s.tabs|
    ensures |contexts| == n
  {
    if n == 0 then []
    else ContextsUpTo(s, history, now, n - 1) + [ContextOf(s, n - 1, Lookup(history, s.tabs[n - 1].id), now)]
  }

  function Contexts(s: Snapshot, history: Tabs, now: int): (contexts: seq<Context>)
    ensures |contexts| == |s.tabs|
  {
    ContextsUpTo(s, history, now, |s.tabs|)
  }

  lemma {:induction false} ContextUpToAt(s: Snapshot, history: Tabs, now: int, n: nat, i: nat)
    requires i < n <= |s.tabs|
    ensures ContextsUpTo(s, history, now, n)[i] == ContextOf(s, i, Lookup(history, s.tabs[i].id), now)
  {
    if i < n - 1 {
      ContextUpToAt(s, history, now, n - 1, i);
    }
  }

  lemma ContextAt(s: Snapshot, history: Tabs, now: int, i: nat)
    requires i < |s.tabs|
    ensures Contexts(s, history, now)[i] == ContextOf(s, i, Lookup(history, s.tabs[i].id), now)
  {
    ContextUpToAt(s, history, now, |s.tabs|, i);
  }

  // ----- what the lookups find

  /** `PanesOf` is the filter: it takes lists apart, and keeps a pane of the tab alone. */
  lemma {:induction false} PanesOfConcat(a: seq<RawPane>, b: seq<RawPane>, id: TabID)
    ensures PanesOf(a + b, id) == PanesOf(a, id) + PanesOf(b, id)
  {
    if b == [] {
      assert a + b == a;
    } else {
      var n := |b| - 1;
      assert (a + b)[..|a + b| - 1] == a + b[..n];
      PanesOfConcat(a, b[..n], id);
    }
  }

  lemma PanesOfOne(p: RawPane, id: TabID)
    ensures PanesOf([p], id) == if p.tabID == id then [p] else []
  {
    assert [p][..0] == [];
  }

  /** It has the panes of the tab, each as often as the list has it, ... */
  lemma {:induction false} PanesOfIff(panes: seq<RawPane>, id: TabID, p: RawPane)
    ensures p in PanesOf(panes, id) <==> p in panes && p.tabID == id
    ensures multiset(PanesOf(panes, id))[p] == if p.tabID == id then multiset(panes)[p] else 0
  {
    if panes != [] {
      var n := |panes| - 1;
      PanesOfIff(panes[..n], id, p);
      assert panes == panes[..n] + [panes[n]];
    }
  }

  /** ... and in the order of the list. */
  lemma PanesOfKeepsOrder(panes: seq<RawPane>, id: TabID, i: nat, j: nat)
    requires i < j < |panes| && panes[i].tabID == panes[j].tabID == id
    ensures exists k, l :: 0 <= k < l < |PanesOf(panes, id)|
                           && PanesOf(panes, id)[k] == panes[i] && PanesOf(panes, id)[l] == panes[j]
  {
    var k, l := |PanesOf(panes[..i], id)|, |PanesOf(panes[..j], id)|;
    PaneComesAfter(panes, id, i);
    PaneComesAfter(panes, id, j);
    PaneComesAfter(panes[..j], id, i);
    assert panes[..j][..i] == panes[..i];
    assert k < l;
  }

  lemma PaneComesAfter(panes: seq<RawPane>, id: TabID, i: nat)
    requires i < |panes| && panes[i].tabID == id
    ensures |PanesOf(panes[..i], id)| < |PanesOf(panes, id)|
    ensures PanesOf(panes, id)[|PanesOf(panes[..i], id)|] == panes[i]
  {
    PanesOfConcat(panes[..i], [panes[i]], id);
    PanesOfOne(panes[i], id);
    PanesOfConcat(panes[..i] + [panes[i]], panes[i + 1..], id);
    assert panes == panes[..i] + [panes[i]] + panes[i + 1..];
  }

  /** The last workspace with the id. */
  predicate LastWithID(ws: seq<RawWorkspace>, id: string, n: int) {
    0 <= n < |ws| && ws[n].id == id && forall k | n < k < |ws| :: ws[k].id != id
  }

  /** The last workspace with an id, with its position as its number. */
  lemma {:induction false} LastWorkspaceIs(ws: seq<RawWorkspace>, id: string, n: nat)
    requires LastWithID(ws, id, n)
    ensures LastWorkspace(ws, id) == Some(Workspace(id, n + 1, ws[n].number, ws[n].labelText, ws[n].detail))
  {
    if n < |ws| - 1 {
      assert LastWithID(ws[..|ws| - 1], id, n);
      LastWorkspaceIs(ws[..|ws| - 1], id, n);
    }
  }

  lemma {:induction false} NoWorkspace(ws: seq<RawWorkspace>, id: string)
    requires forall k | 0 <= k < |ws| :: ws[k].id != id
    ensures LastWorkspace(ws, id) == None
  {
    if ws != [] {
      NoWorkspace(ws[..|ws| - 1], id);
    }
  }

  lemma {:induction false} LastLayoutIs(layouts: seq<Layout>, id: TabID, n: nat)
    requires n < |layouts| && layouts[n].tabID == id && forall k | n < k < |layouts| :: layouts[k].tabID != id
    ensures LastLayout(layouts, id) == Some(layouts[n])
  {
    if n < |layouts| - 1 {
      LastLayoutIs(layouts[..|layouts| - 1], id, n);
    }
  }

  lemma {:induction false} NoLayout(layouts: seq<Layout>, id: TabID)
    requires forall k | 0 <= k < |layouts| :: layouts[k].tabID != id
    ensures LastLayout(layouts, id) == None
  {
    if layouts != [] {
      NoLayout(layouts[..|layouts| - 1], id);
    }
  }

  /** The last agent with the pane's id. */
  predicate LastOfPane(agents: seq<RawAgent>, id: string, n: int) {
    0 <= n < |agents| && agents[n].paneID == id && forall k | n < k < |agents| :: agents[k].paneID != id
  }

  lemma {:induction false} LastAgentIs(agents: seq<RawAgent>, id: string, n: nat)
    requires LastOfPane(agents, id, n)
    ensures LastAgent(agents, id) == Some(agents[n])
  {
    if n < |agents| - 1 {
      assert LastOfPane(agents[..|agents| - 1], id, n);
      LastAgentIs(agents[..|agents| - 1], id, n);
    }
  }

  lemma {:induction false} NoAgent(agents: seq<RawAgent>, id: string)
    requires forall k | 0 <= k < |agents| :: agents[k].paneID != id
    ensures LastAgent(agents, id) == None
  {
    if agents != [] {
      NoAgent(agents[..|agents| - 1], id);
    }
  }

  // ----- what a context shows, field by field

  ghost predicate DepictsTab(raw: RawTab, history: Tabs, now: int, c: Context) {
    && c.tab.id == raw.id && c.tab.currentLabel == raw.labelText
    && c.tab.nativeNumber == raw.number && c.tab.number == c.tab.index + 1 && c.tab.detail == raw.detail
    && c.tab.renderedLabel == (if raw.id in history then history[raw.id].rendered else "")
    && c.tab.labelText == (if raw.id in history && raw.labelText == history[raw.id].rendered
                           then history[raw.id].source else raw.labelText)
    && c.process == NO_PROCESS && c.processes == [] && c.processByPGID == NO_PROCESS && c.shell == NO_SHELL
    && c.profile == "default" && c.now == now
  }

  /** The last workspace with the tab's workspace id. */
  ghost predicate DepictsWorkspace(ws: seq<RawWorkspace>, id: string, shown: Workspace) {
    && ((forall k | 0 <= k < |ws| :: ws[k].id != id) ==> shown == NO_WORKSPACE)
    && (forall n | LastWithID(ws, id, n) ::
          shown == Workspace(id, n + 1, ws[n].number, ws[n].labelText, ws[n].detail))
  }

  predicate DepictsPane(raw: RawPane, shown: Pane) {
    && shown.id == raw.id && shown.cwd == raw.cwd && shown.foregroundCwd == raw.foregroundCwd
    && shown.effectiveCwd == (if raw.foregroundCwd == "" then raw.cwd else raw.foregroundCwd)
    && shown.detail == raw.detail
  }

  /** The panes of the tab in order, and one of them, if there are any, to stand for the tab. */
  ghost predicate DepictsPanes(s: Snapshot, id: TabID, c: Context) {
    var own := PanesOf(s.panes, id);
    && |c.panes| == |own| && (forall k | 0 <= k < |own| :: DepictsPane(own[k], c.panes[k]))
    && (if own == [] then c.pane == NO_PANE else c.pane in c.panes)
    && (forall k | 0 <= k < |own| :: c.panes[k].focusedInTab ==> c.panes[k].id == c.pane.id)
  }

  /** The last layout of the tab. */
  predicate IsLayout(layouts: seq<Layout>, id: TabID, n: int) {
    0 <= n < |layouts| && layouts[n].tabID == id && forall k | n < k < |layouts| :: layouts[k].tabID != id
  }

  predicate Among(panes: seq<RawPane>, id: string) {
    exists p :: p in panes && p.id == id
  }

  /** The layout's first focused entry that is a pane of the tab. */
  predicate IsFocusedEntry(entries: seq<LayoutPane>, own: seq<RawPane>, m: int) {
    && 0 <= m < |entries| && entries[m].focused && Among(own, entries[m].paneID)
    && forall k | 0 <= k < m :: !(entries[k].focused && Among(own, entries[k].paneID))
  }

  /** The pane that stands for the tab is the one its layout names as focused, or else the one
      of the layout's first focused entry, if that is a pane of the tab; and else its first. */
  ghost predicate DepictsFocus(s: Snapshot, id: TabID, c: Context) {
    var own := PanesOf(s.panes, id);
    && (forall n | IsLayout(s.layouts, id, n) ::
          var layout := s.layouts[n];
          if layout.focusedPaneID != "" && Among(own, layout.focusedPaneID) then
            c.pane.id == layout.focusedPaneID && c.pane.focusedInTab
          else
            && (forall m | IsFocusedEntry(layout.panes, own, m) ::
                  c.pane.id == layout.panes[m].paneID && c.pane.focusedInTab)
            && ((forall m :: !IsFocusedEntry(layout.panes, own, m)) ==> StandsByDefault(own, c)))
    && ((forall n | 0 <= n < |s.layouts| :: s.layouts[n].tabID != id) ==> StandsByDefault(own, c))
  }

  predicate StandsByDefault(own: seq<RawPane>, c: Context) {
    own != [] ==> DepictsPane(own[0], c.pane) && c.pane.id == own[0].id && forall p | p in c.panes :: !p.focusedInTab
  }

  /** The last agent of the pane that stands for the tab, or else what that pane says. */
  ghost predicate DepictsAgent(s: Snapshot, id: TabID, c: Context) {
    && (forall n | LastOfPane(s.agents, c.pane.id, n) ::
          c.agent == Agent(true, s.agents[n].kind, s.agents[n].status, s.agents[n].detail))
    && ((forall n | 0 <= n < |s.agents| :: s.agents[n].paneID != c.pane.id) ==>
          if PanesOf(s.panes, id) == [] then c.agent == Agent(false, "", "", "")
          else exists p :: p in PanesOf(s.panes, id) && p.id == c.pane.id
                           && c.agent == Agent(false, p.agent, p.agentStatus, ""))
  }

  ghost predicate Depicts(s: Snapshot, i: nat, history: Tabs, now: int, c: Context)
    requires i < |s.tabs|
  {
    && DepictsTab(s.tabs[i], history, now, c)
    && DepictsWorkspace(s.workspaces, s.tabs[i].workspaceID, c.workspace)
    && DepictsPanes(s, s.tabs[i].id, c)
    && DepictsFocus(s, s.tabs[i].id, c)
    && DepictsAgent(s, s.tabs[i].id, c)
  }

  lemma {:induction false} FirstWithIDIs(raws: seq<RawPane>, shown: seq<Pane>, id: string)
    requires |raws| == |shown| && (forall k | 0 <= k < |raws| :: DepictsPane(raws[k], shown[k]))
    ensures FindPane(raws, id) == None ==> FirstWithID(shown, id) == NO_PANE
    ensures FindPane(raws, id).Some? ==>
              FirstWithID(shown, id) in shown && DepictsPane(FindPane(raws, id).value, FirstWithID(shown, id))
  {
    if raws != [] && raws[0].id != id {
      FirstWithIDIs(raws[1..], shown[1..], id);
    }
  }

  /** The pane selected is the first of the tab's panes with its id. */
  lemma SelectedIsFirst(layout: Option<Layout>, panes: seq<RawPane>)
    ensures panes != [] ==> FindPane(panes, SelectPane(layout, panes).0.id) == Some(SelectPane(layout, panes).0)
    ensures panes == [] ==> SelectPane(layout, panes) == (NO_RAW_PANE, false)
  {
    if layout.Some? {
      FindPaneFinds(panes, layout.value.focusedPaneID);
      FocusedEntryFinds(layout.value.panes, panes);
      FocusedEntryIsFirst(layout.value.panes, panes);
    }
  }

  lemma {:induction false} FindPaneIs(panes: seq<RawPane>, id: string, n: nat)
    requires n < |panes| && panes[n].id == id && forall k | 0 <= k < n :: panes[k].id != id
    ensures FindPane(panes, id) == Some(panes[n])
  {
    if n > 0 {
      FindPaneIs(panes[1..], id, n - 1);
    }
  }

  lemma {:induction false} FocusedEntryIsFirst(entries: seq<LayoutPane>, panes: seq<RawPane>)
    ensures FocusedEntry(entries, panes).Some? ==>
              FindPane(panes, FocusedEntry(entries, panes).value.id) == FocusedEntry(entries, panes)
  {
    if entries != [] {
      FindPaneFinds(panes, entries[0].paneID);
      FocusedEntryIsFirst(entries[1..], panes);
    }
  }

  lemma {:induction false} FocusedEntryIs(entries: seq<LayoutPane>, panes: seq<RawPane>, m: nat)
    requires IsFocusedEntry(entries, panes, m)
    ensures FocusedEntry(entries, panes) == FindPane(panes, entries[m].paneID)
    ensures FocusedEntry(entries, panes).Some? && FocusedEntry(entries, panes).value.id == entries[m].paneID
  {
    FindPaneFinds(panes, entries[0].paneID);
    FindPaneFinds(panes, entries[m].paneID);
    if m > 0 {
      FocusedEntryIs(entries[1..], panes, m - 1);
    }
  }

  lemma {:induction false} SomeFocusedEntry(entries: seq<LayoutPane>, panes: seq<RawPane>)
    ensures FocusedEntry(entries, panes).Some? ==> exists m :: IsFocusedEntry(entries, panes, m)
  {
    if entries != [] && FocusedEntry(entries, panes).Some? {
      FindPaneFinds(panes, entries[0].paneID);
      if entries[0].focused && Among(panes, entries[0].paneID) {
        assert IsFocusedEntry(entries, panes, 0);
      } else {
        SomeFocusedEntry(entries[1..], panes);
        var m :| IsFocusedEntry(entries[1..], panes, m);
        assert IsFocusedEntry(entries, panes, m + 1);
      }
    }
  }

  /** What `SelectPane` makes of a layout. */
  lemma SelectionIs(layout: Layout, own: seq<RawPane>)
    ensures var (pane, found) := SelectPane(Some(layout), own);
            if layout.focusedPaneID != "" && Among(own, layout.focusedPaneID) then
              pane.id == layout.focusedPaneID && found
            else
              && (forall m | IsFocusedEntry(layout.panes, own, m) :: pane.id == layout.panes[m].paneID && found)
              && ((forall m :: !IsFocusedEntry(layout.panes, own, m)) ==> !found && (own != [] ==> pane == own[0]))
  {
    FindPaneFinds(own, layout.focusedPaneID);
    forall m | IsFocusedEntry(layout.panes, own, m)
      ensures FocusedEntry(layout.panes, own).Some?
      ensures FocusedEntry(layout.panes, own).value.id == layout.panes[m].paneID
    {
      FocusedEntryIs(layout.panes, own, m);
    }
    SomeFocusedEntry(layout.panes, own);
  }

  lemma WorkspaceDepicted(s: Snapshot, id: string)
    ensures DepictsWorkspace(s.workspaces, id, GetOr(LastWorkspace(s.workspaces, id), NO_WORKSPACE))
  {
    var ws := s.workspaces;
    if forall k | 0 <= k < |ws| :: ws[k].id != id {
      NoWorkspace(ws, id);
    }
    forall n | LastWithID(ws, id, n)
      ensures LastWorkspace(ws, id) == Some(Workspace(id, n + 1, ws[n].number, ws[n].labelText, ws[n].detail))
    {
      LastWorkspaceIs(ws, id, n);
    }
  }

  /** The panes of a context, and the pane selected among them, as `NormalizePanes` shows them. */
  lemma PanesShown(own: seq<RawPane>, layout: Option<Layout>)
    ensures var (selected, found) := SelectPane(layout, own);
            var panes := NormalizePanes(own, selected, found);
            var pane := FirstWithID(panes, selected.id);
            && |panes| == |own| && (forall k | 0 <= k < |own| :: DepictsPane(own[k], panes[k]))
            && (forall k | 0 <= k < |own| :: panes[k].focusedInTab <==> found && panes[k].id == selected.id)
            && pane.id == selected.id
            && (if own == [] then pane == NO_PANE else pane in panes && selected in own && DepictsPane(selected, pane))
  {
    var (selected, found) := SelectPane(layout, own);
    var panes := NormalizePanes(own, selected, found);
    assert forall k | 0 <= k < |own| :: DepictsPane(own[k], panes[k]);
    FirstWithIDIs(own, panes, selected.id);
    SelectedIsFirst(layout, own);
    FindPaneFinds(own, selected.id);
  }

  lemma PanesDepicted(s: Snapshot, i: nat, entry: Option<LabelHistory>, now: int)
    requires i < |s.tabs|
    ensures DepictsPanes(s, s.tabs[i].id, ContextOf(s, i, entry, now))
  {
    PanesShown(PanesOf(s.panes, s.tabs[i].id), LastLayout(s.layouts, s.tabs[i].id));
  }

  lemma FocusDepicted(s: Snapshot, i: nat, entry: Option<LabelHistory>, now: int)
    requires i < |s.tabs|
    ensures DepictsFocus(s, s.tabs[i].id, ContextOf(s, i, entry, now))
  {
    var id := s.tabs[i].id;
    var own := PanesOf(s.panes, id);
    PanesShown(own, LastLayout(s.layouts, id));
    forall n | IsLayout(s.layouts, id, n) ensures LastLayout(s.layouts, id) == Some(s.layouts[n]) {
      LastLayoutIs(s.layouts, id, n);
      SelectionIs(s.layouts[n], own);
    }
    if LastLayout(s.layouts, id).Some? {
      SelectionIs(LastLayout(s.layouts, id).value, own);
    }
    if forall n | 0 <= n < |s.layouts| :: s.layouts[n].tabID != id {
      NoLayout(s.layouts, id);
    }
  }

  lemma AgentDepicted(s: Snapshot, i: nat, entry: Option<LabelHistory>, now: int)
    requires i < |s.tabs|
    ensures DepictsAgent(s, s.tabs[i].id, ContextOf(s, i, entry, now))
  {
    var id, c := s.tabs[i].id, ContextOf(s, i, entry, now);
    var own, layout := PanesOf(s.panes, id), LastLayout(s.layouts, id);
    PanesShown(own, layout);
    SelectedIsFirst(layout, own);
    forall n | LastOfPane(s.agents, c.pane.id, n)
      ensures c.agent == Agent(true, s.agents[n].kind, s.agents[n].status, s.agents[n].detail)
    {
      LastAgentIs(s.agents, c.pane.id, n);
    }
    if forall n | 0 <= n < |s.agents| :: s.agents[n].paneID != c.pane.id {
      NoAgent(s.agents, c.pane.id);
    }
  }

  lemma ContextDepicts(s: Snapshot, i: nat, history: Tabs, now: int)
    requires i < |s.tabs|
    ensures Depicts(s, i, history, now, ContextOf(s, i, Lookup(history, s.tabs[i].id), now))
  {
    var entry := Lookup(history, s.tabs[i].id);
    WorkspaceDepicted(s, s.tabs[i].workspaceID);
    PanesDepicted(s, i, entry, now);
    FocusDepicted(s, i, entry, now);
    AgentDepicted(s, i, entry, now);
  }

  // ----- the loops

  method IndexWorkspaces(ws: seq<RawWorkspace>) returns (m: map<string, Workspace>)
    ensures forall id :: (if id in m then Some(m[id]) else None) == LastWorkspace(ws, id)
  {
    m := map[];
    for n := 0 to |ws|
      invariant forall id :: (if id in m then Some(m[id]) else None) == LastWorkspace(ws[..n], id)
    {
      assert ws[..n + 1][..n] == ws[..n];
      m := m[ws[n].id := NormalizeWorkspace(ws[n], n)];
    }
    assert ws[..|ws|] == ws;
  }

  method IndexLayouts(layouts: seq<Layout>) returns (m: map<TabID, Layout>)
    ensures forall id :: (if id in m then Some(m[id]) else None) == LastLayout(layouts, id)
  {
    m := map[];
    for n := 0 to |layouts|
      invariant forall id :: (if id in m then Some(m[id]) else None) == LastLayout(layouts[..n], id)
    {
      assert layouts[..n + 1][..n] == layouts[..n];
      m := m[layouts[n].tabID := layouts[n]];
    }
    assert layouts[..|layouts|] == layouts;
  }

  method IndexAgents(agents: seq<RawAgent>) returns (m: map<string, RawAgent>)
    ensures forall id :: (if id in m then Some(m[id]) else None) == LastAgent(agents, id)
  {
    m := map[];
    for n := 0 to |agents|
      invariant forall id :: (if id in m then Some(m[id]) else None) == LastAgent(agents[..n], id)
    {
      assert agents[..n + 1][..n] == agents[..n];
      m := m[agents[n].paneID := agents[n]];
    }
    assert agents[..|agents|] == agents;
  }

  method GroupPanes(panes: seq<RawPane>) returns (m: map<TabID, seq<RawPane>>)
    ensures forall id :: (if id in m then m[id] else []) == PanesOf(panes, id)
  {
    m := map[];
    for n := 0 to |panes|
      invariant forall id :: (if id in m then m[id] else []) == PanesOf(panes[..n], id)
    {
      assert panes[..n + 1][..n] == panes[..n];
      var id := panes[n].tabID;
      m := m[id := (if id in m then m[id] else []) + [panes[n]]];
    }
    assert panes[..|panes|] == panes;
  }

  /** The lookup tables of one snapshot. */
  datatype Tables = Tables(
    workspaces: map<string, Workspace>, layouts: map<TabID, Layout>,
    agents: map<string, RawAgent>, panesByTab: map<TabID, seq<RawPane>>)

  ghost predicate TablesOf(t: Tables, s: Snapshot) {
    && (forall id :: (if id in t.workspaces then Some(t.workspaces[id]) else None) == LastWorkspace(s.workspaces, id))
    && (forall id :: (if id in t.layouts then Some(t.layouts[id]) else None) == LastLayout(s.layouts, id))
    && (forall id :: (if id in t.agents then Some(t.agents[id]) else None) == LastAgent(s.agents, id))
    && (forall id :: (if id in t.panesByTab then t.panesByTab[id] else []) == PanesOf(s.panes, id))
  }

  method IndexSnapshot(s: Snapshot) returns (t: Tables)
    ensures TablesOf(t, s)
  {
    var workspaces := IndexWorkspaces(s.workspaces);
    var layouts := IndexLayouts(s.layouts);
    var agents := IndexAgents(s.agents);
    var panesByTab := GroupPanes(s.panes);
    t := Tables(workspaces, layouts, agents, panesByTab);
  }

  method DescribeTab(s: Snapshot, t: Tables, i: nat, index: nat, history: Tabs, now: int) returns (context: Context)
    requires i < |s.tabs| && TablesOf(t, s) && index == TabsIn(s.tabs[..i], s.tabs[i].workspaceID)
    ensures context == ContextOf(s, i, Lookup(history, s.tabs[i].id), now)
  {
    var raw := s.tabs[i];
    var workspace := if raw.workspaceID in t.workspaces then t.workspaces[raw.workspaceID] else NO_WORKSPACE;
    assert workspace == GetOr(LastWorkspace(s.workspaces, raw.workspaceID), NO_WORKSPACE);
    var tabPanes := if raw.id in t.panesByTab then t.panesByTab[raw.id] else [];
    var layout := if raw.id in t.layouts then Some(t.layouts[raw.id]) else None;
    var (selected, found) := SelectPane(layout, tabPanes);
    var agent := if selected.id in t.agents then Some(t.agents[selected.id]) else None;
    assert tabPanes == PanesOf(s.panes, raw.id);
    context := Describe(raw, workspace, tabPanes, selected, found, agent, Lookup(history, raw.id), index, now);
  }

  /** The table counts the tabs seen of each workspace. */
  ghost predicate Positioned(positions: map<string, nat>, tabs: seq<RawTab>) {
    forall w :: (if w in positions then positions[w] else 0) == TabsIn(tabs, w)
  }

  lemma PositionedNext(positions: map<string, nat>, tabs: seq<RawTab>, i: nat, index: nat)
    requires i < |tabs| && Positioned(positions, tabs[..i])
    requires var w := tabs[i].workspaceID; index == if w in positions then positions[w] else 0
    ensures index == TabsIn(tabs[..i], tabs[i].workspaceID)
    ensures Positioned(positions[tabs[i].workspaceID := index + 1], tabs[..i + 1])
  {
    TabsInNext(tabs, i);
  }

  lemma ContextsDepict(s: Snapshot, history: Tabs, now: int)
    ensures forall i | 0 <= i < |s.tabs| :: Depicts(s, i, history, now, Contexts(s, history, now)[i])
  {
    forall i | 0 <= i < |s.tabs| ensures Depicts(s, i, history, now, Contexts(s, history, now)[i]) {
      ContextAt(s, history, now, i);
      ContextDepicts(s, i, history, now);
    }
  }

  method Build(s: Snapshot, history: Tabs, now: int) returns (contexts: seq<Context>)
    ensures contexts == Contexts(s, history, now)
    ensures |contexts| == |s.tabs| && forall i | 0 <= i < |s.tabs| :: Depicts(s, i, history, now, contexts[i])
  {
    var tables := IndexSnapshot(s);
    var positions: map<string, nat> := map[];
    contexts := [];
    for i := 0 to |s.tabs|
      invariant contexts == ContextsUpTo(s, history, now, i)
      invariant Positioned(positions, s.tabs[..i])
    {
      var workspaceID := s.tabs[i].workspaceID;
      var index := if workspaceID in positions then positions[workspaceID] else 0;
      PositionedNext(positions, s.tabs, i, index);
      positions := positions[workspaceID := index + 1];
      var context := DescribeTab(s, tables, i, index, history, now);
      contexts := contexts + [context];
    }
    ContextsDepict(s, history, now);
  }

  lemma TabsInNext(tabs: seq<RawTab>, i: nat)
    requires i < |tabs|
    ensures forall w :: TabsIn(tabs[..i + 1], w) == TabsIn(tabs[..i], w) + (if tabs[i].workspaceID == w then 1 else 0)
  {
    assert tabs[..i + 1][..i] == tabs[..i];
  }

  // ----- numbering

  /** The number a tab is shown with. */
  function NumberOf(s: Snapshot, i: nat): int
    requires i < |s.tabs|
  {
    ContextOf(s, i, None, 0).tab.number
  }

  lemma NumberIsCount(s: Snapshot, i: nat)
    requires i < |s.tabs|
    ensures NumberOf(s, i) == TabsIn(s.tabs[..i + 1], s.tabs[i].workspaceID)
  {
    assert s.tabs[..i + 1][..i] == s.tabs[..i];
  }

  lemma {:induction false} TabsInMonotone(tabs: seq<RawTab>, w: string, j: nat, k: nat)
    requires j <= k <= |tabs|
    ensures TabsIn(tabs[..j], w) <= TabsIn(tabs[..k], w)
    decreases k
  {
    if j < k {
      assert tabs[..k][..k - 1] == tabs[..k - 1];
      TabsInMonotone(tabs, w, j, k - 1);
    }
  }

  /** The position of the workspace's n-th tab. */
  lemma {:induction false} NthTab(tabs: seq<RawTab>, w: string, n: nat) returns (i: nat)
    requires 0 < n <= TabsIn(tabs, w)
    ensures i < |tabs| && tabs[i].workspaceID == w && TabsIn(tabs[..i + 1], w) == n
  {
    var m := |tabs| - 1;
    if n <= TabsIn(tabs[..m], w) {
      i := NthTab(tabs[..m], w, n);
      assert tabs[..m][..i + 1] == tabs[..i + 1];
    } else {
      i := m;
      assert tabs[..m + 1] == tabs;
    }
  }

  /** Within each workspace the numbers grow with the position, ... */
  lemma NumbersFollowOrder(s: Snapshot, i: nat, j: nat)
    requires i < j < |s.tabs| && s.tabs[i].workspaceID == s.tabs[j].workspaceID
    ensures 1 <= NumberOf(s, i) < NumberOf(s, j) <= TabsIn(s.tabs, s.tabs[i].workspaceID)
  {
    var w := s.tabs[i].workspaceID;
    NumberIsCount(s, i);
    NumberIsCount(s, j);
    assert s.tabs[..j + 1][..j] == s.tabs[..j];
    TabsInMonotone(s.tabs, w, i + 1, j);
    TabsInMonotone(s.tabs, w, j + 1, |s.tabs|);
    assert s.tabs[..|s.tabs|] == s.tabs;
  }

  /** ... and have no gaps: together they are 1, 2, ..., whatever numbers the server reports. */
  lemma NumbersHaveNoGaps(s: Snapshot, w: string, n: nat)
    requires 1 <= n <= TabsIn(s.tabs, w)
    ensures exists i :: HasNumber(s, i, w, n)
  {
    var i := NthTab(s.tabs, w, n);
    NumberIsCount(s, i);
    assert HasNumber(s, i, w, n);
  }

  predicate HasNumber(s: Snapshot, i: int, w: string, n: int) {
    0 <= i < |s.tabs| && s.tabs[i].workspaceID == w && NumberOf(s, i) == n
  }

  // ----- process data

  /** The process that leads the foreground group: the last record with its id. */
  function GroupLeader(processes: seq<Process>, group: Option<int>): Process {
    if processes == [] then NO_PROCESS
    else
      var last := processes[|processes| - 1];
      if group == Some(last.pid) then last else GroupLeader(processes[..|processes| - 1], group)
  }

  function WithProcess(context: Context, info: ProcessInfo): Context {
    context.(
      process := if info.processes == [] then NO_PROCESS else info.processes[0],
      processes := info.processes,
      processByPGID := GroupLeader(info.processes, info.foregroundGroup),
      shell := Shell(if info.shellPID.Some? then info.shellPID.value else 0, info.tty))
  }

  /** The last process whose PID is the foreground group's. */
  predicate LastOfGroup(processes: seq<Process>, group: Option<int>, n: int) {
    && 0 <= n < |processes| && group == Some(processes[n].pid)
    && forall k | n < k < |processes| :: group != Some(processes[k].pid)
  }

  lemma {:induction false} GroupLeaderIs(processes: seq<Process>, group: Option<int>, n: nat)
    requires LastOfGroup(processes, group, n)
    ensures GroupLeader(processes, group) == processes[n]
  {
    var last := |processes| - 1;
    if n < last {
      assert LastOfGroup(processes[..last], group, n);
      GroupLeaderIs(processes[..last], group, n);
    }
  }

  lemma {:induction false} NoGroupLeader(processes: seq<Process>, group: Option<int>)
    requires forall n | 0 <= n < |processes| :: group != Some(processes[n].pid)
    ensures GroupLeader(processes, group) == NO_PROCESS
  {
    if processes != [] {
      NoGroupLeader(processes[..|processes| - 1], group);
    }
  }

  /** Replaces every process field of the context: a reused one keeps nothing of an earlier
      pane's process. */
  method AttachProcess(context: Context, info: ProcessInfo) returns (attached: Context)
    ensures attached == WithProcess(context, info)
    ensures forall earlier :: attached == WithProcess(WithProcess(context, earlier), info)
    ensures attached.processes == info.processes
    ensures attached.process == if info.processes == [] then NO_PROCESS else info.processes[0]
    ensures forall n | LastOfGroup(info.processes, info.foregroundGroup, n) ::
              attached.processByPGID == info.processes[n]
    ensures (forall n | 0 <= n < |info.processes| :: info.foregroundGroup != Some(info.processes[n].pid)) ==>
              attached.processByPGID == NO_PROCESS
    ensures attached.shell.pid == GetOr(info.shellPID, 0) && attached.shell.tty == info.tty
    ensures attached == context.(process := attached.process, processes := attached.processes,
                                 processByPGID := attached.processByPGID, shell := attached.shell)
  {
    attached := context.(process := NO_PROCESS, processByPGID := NO_PROCESS, shell := NO_SHELL, processes := []);
    for i := 0 to |info.processes|
      invariant attached == context.(
                  process := NO_PROCESS, shell := NO_SHELL, processes := info.processes[..i],
                  processByPGID := GroupLeader(info.processes[..i], info.foregroundGroup))
    {
      var process := info.processes[i];
      assert info.processes[..i + 1][..i] == info.processes[..i];
      assert info.processes[..i + 1] == info.processes[..i] + [process];
      attached := attached.(processes := attached.processes + [process]);
      if info.foregroundGroup == Some(process.pid) {
        attached := attached.(processByPGID := process);
      }
    }
    assert info.processes[..|info.processes|] == info.processes;
    if |attached.processes| > 0 {
      attached := attached.(process := attached.processes[0]);
    }
    if info.shellPID.Some? {
      attached := attached.(shell := attached.shell.(pid := info.shellPID.value));
    }
    attached := attached.(shell := attached.shell.(tty := info.tty));
    forall n | LastOfGroup(info.processes, info.foregroundGroup, n)
      ensures GroupLeader(info.processes, info.foregroundGroup) == info.processes[n]
    {
      GroupLeaderIs(info.processes, info.foregroundGroup, n);
    }
    if forall n | 0 <= n < |info.processes| :: info.foregroundGroup != Some(info.processes[n].pid) {
      NoGroupLeader(info.processes, info.foregroundGroup);
    }
  }
}
