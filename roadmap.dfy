/**
 * The 90-day roadmap: an accordion of phases with at most one open, and a
 * drawer that shows one task's implementation guide under three tabs
 * (console steps, Terraform, AWS CLI).
 */
module Roadmap {
  import opened Wrappers

  /** A task's implementation guide; each of the three parts may be absent. */
  datatype Task = Task(
    title: string,
    description: string,
    console: Option<seq<string>>,
    terraform: Option<string>,
    cli: Option<string>)

  datatype DrawerTab = ConsoleTab | TerraformTab | CliTab

  // ---------------------------------------------------------------------
  // The accordion

  /** The header's click handler: collapse the phase if it is the open one, otherwise open it alone. */
  function Toggle(expandedPhase: Option<nat>, id: nat): (r: Option<nat>)
    ensures r == Some(id) <==> expandedPhase != Some(id)
    ensures r != Some(id) ==> r == None
  {
    if expandedPhase == Some(id) then None else Some(id)
  }

  /** `expandedPhase === phase.id`, which decides both the header's style and whether the weeks render. */
  predicate Expanded(expandedPhase: Option<nat>, id: nat) {
    expandedPhase == Some(id)
  }

  /** At most one phase is expanded, whatever the state. */
  lemma AtMostOneExpanded(expandedPhase: Option<nat>, p: nat, q: nat)
    ensures Expanded(expandedPhase, p) && Expanded(expandedPhase, q) ==> p == q
  {
  }

  /**
   * Two clicks on the same header restore the state exactly when that phase
   * was open or none was; if another phase was open, they leave all closed.
   */
  lemma ToggleTwice(expandedPhase: Option<nat>, id: nat)
    ensures Toggle(Toggle(expandedPhase, id), id) == expandedPhase <==> expandedPhase == None || expandedPhase == Some(id)
    ensures Toggle(Toggle(expandedPhase, id), id) == None || Toggle(Toggle(expandedPhase, id), id) == expandedPhase
  {
  }

  /** After a click on a header, that phase is the only one that can be expanded. */
  lemma ClickedPhaseOnly(expandedPhase: Option<nat>, id: nat, other: nat)
    requires other != id
    ensures !Expanded(Toggle(expandedPhase, id), other)
  {
  }

  // ---------------------------------------------------------------------
  // The drawer's content

  /** One rendered console step: its badge number, its text, and whether a connector follows it. */
  datatype ConsoleStep = ConsoleStep(number: nat, text: string, connector: bool)

  /** The console walkthrough as rendered: numbered `idx + 1`, with a connector below every step but the last. */
  function NumberedSteps(steps: seq<string>): (r: seq<ConsoleStep>)
    ensures |r| == |steps|
    ensures forall i :: 0 <= i < |r| ==> r[i].text == steps[i]
  {
    seq(|steps|, idx requires 0 <= idx < |steps| => ConsoleStep(idx + 1, steps[idx], idx != |steps| - 1))
  }

  /** The numbers count 1, 2, … up the list, and exactly the last step lacks a connector. */
  lemma StepNumbering(steps: seq<string>)
    ensures forall i :: 0 <= i < |steps| ==> NumberedSteps(steps)[i].number == i + 1
    ensures forall i, j :: 0 <= i < j < |steps| ==> NumberedSteps(steps)[i].number < NumberedSteps(steps)[j].number
    ensures forall i :: 0 <= i < |steps| ==> (!NumberedSteps(steps)[i].connector <==> i == |steps| - 1)
  {
  }

  /** What the tab area renders. */
  datatype Content =
    | ConsoleWalkthrough(steps: seq<ConsoleStep>)
    | TerraformSnippet(code: string)
    | CliSnippet(command: string)
    | EmptyState(tool: string)

  /** The tab area: nothing for a console tab without console steps, EmptyState for a missing snippet. */
  function TabContent(task: Task, activeTab: DrawerTab): (r: seq<Content>)
    ensures |r| <= 1
  {
    match activeTab
    case ConsoleTab =>
      if task.console.Some? then [ConsoleWalkthrough(NumberedSteps(task.console.value))] else []
    case TerraformTab =>
      if task.terraform.Some? then [TerraformSnippet(task.terraform.value)] else [EmptyState("Terraform")]
    case CliTab =>
      if task.cli.Some? then [CliSnippet(task.cli.value)] else [EmptyState("CLI")]
  }

  /** The Terraform and CLI tabs show the task's snippet iff it has one, and EmptyState otherwise. */
  lemma SnippetOrEmptyState(task: Task)
    ensures task.terraform.Some? ==> TabContent(task, TerraformTab) == [TerraformSnippet(task.terraform.value)]
    ensures TabContent(task, TerraformTab) == [EmptyState("Terraform")] <==> task.terraform.None?
    ensures task.cli.Some? ==> TabContent(task, CliTab) == [CliSnippet(task.cli.value)]
    ensures TabContent(task, CliTab) == [EmptyState("CLI")] <==> task.cli.None?
  {
  }

  /** The console tab shows the steps iff the task has them, numbered and in order; it never shows EmptyState. */
  lemma ConsoleStepsOnlyIfPresent(task: Task)
    ensures TabContent(task, ConsoleTab) != [] <==> task.console.Some?
    ensures task.console.Some? ==>
      TabContent(task, ConsoleTab)[0].steps == NumberedSteps(task.console.value)
    ensures forall c :: c in TabContent(task, ConsoleTab) ==> !c.EmptyState?
  {
  }

  // ---------------------------------------------------------------------
  // The page state

  /** Where a click in the open drawer lands: the dimmed backdrop, the X button, or the panel itself. */
  datatype DrawerClick = Backdrop | CloseButton | Panel

  class RoadmapPage {
    var expandedPhase: Option<nat>
    var selectedTask: Option<Task>
    var activeTab: DrawerTab

    /** The first phase open, no task selected, the console tab. */
    constructor ()
      ensures expandedPhase == Some(0) && selectedTask == None && activeTab == ConsoleTab
    {
      expandedPhase := Some(0);
      selectedTask := None;
      activeTab := ConsoleTab;
    }

    method ClickPhase(id: nat)
      modifies this
      ensures expandedPhase == Toggle(old(expandedPhase), id)
      ensures selectedTask == old(selectedTask) && activeTab == old(activeTab)
    {
      expandedPhase := if expandedPhase == Some(id) then None else Some(id);
    }

    /** A task button opens the drawer on that task; the tab stays as it was. */
    method SelectTask(task: Task)
      modifies this
      ensures selectedTask == Some(task)
      ensures expandedPhase == old(expandedPhase) && activeTab == old(activeTab)
    {
      selectedTask := Some(task);
    }

    method SelectTab(tab: DrawerTab)
      modifies this
      ensures activeTab == tab
      ensures expandedPhase == old(expandedPhase) && selectedTask == old(selectedTask)
    {
      activeTab := tab;
    }

    /** The backdrop and the X close the drawer; a click on the panel stops propagating and changes nothing. */
    method ClickDrawer(at: DrawerClick)
      modifies this
      ensures at == Panel ==> selectedTask == old(selectedTask)
      ensures at != Panel ==> selectedTask == None
      ensures expandedPhase == old(expandedPhase) && activeTab == old(activeTab)
    {
      if at != Panel {
        selectedTask := None;
      }
    }

    /** The drawer's tab area, when a task is selected. */
    function Drawer(): (r: Option<seq<Content>>)
      reads this
      ensures r.Some? <==> selectedTask.Some?
    {
      if selectedTask.None? then None else Some(TabContent(selectedTask.value, activeTab))
    }
  }

  /** Reopening the drawer on another task shows that task under the tab chosen before. */
  method SwitchTask(page: RoadmapPage, first: Task, second: Task, tab: DrawerTab)
    modifies page
    ensures page.Drawer() == Some(TabContent(second, tab))
  {
    page.SelectTask(first);
    page.SelectTab(tab);
    page.ClickDrawer(Backdrop);
    page.SelectTask(second);
  }
}
