/** The template context of one tab and the persisted label history.

    `detail` fields stand for the remaining fields of an entity, which are only copied. */
module Model {

  type TabID = string

  datatype LabelHistory = LabelHistory(source: string, rendered: string)

  type Tabs = map<TabID, LabelHistory>

  datatype Workspace = Workspace(id: string, number: int, nativeNumber: int, labelText: string, detail: string)

  datatype Tab = Tab(
    id: TabID, labelText: string, currentLabel: string, renderedLabel: string,
    index: int, number: int, nativeNumber: int, detail: string)

  datatype Pane = Pane(
    id: string, cwd: string, foregroundCwd: string, effectiveCwd: string, focusedInTab: bool, detail: string)

  datatype Process = Process(pid: int, name: string, detail: string)

  datatype Shell = Shell(pid: int, tty: string)

  datatype Agent = Agent(active: bool, kind: string, status: string, detail: string)

  datatype Context = Context(
    workspace: Workspace, tab: Tab, pane: Pane, panes: seq<Pane>,
    process: Process, processes: seq<Process>, processByPGID: Process, shell: Shell,
    agent: Agent, profile: string, now: int)

  const NO_WORKSPACE := Workspace("", 0, 0, "", "")
  const NO_PANE := Pane("", "", "", "", false, "")
  const NO_PROCESS := Process(0, "", "")
  const NO_SHELL := Shell(0, "")
}
