/**
 * The automation page: three tabs (the CI/CD pipeline, the AMI factory and
 * the auto-remediation console), the pipeline's stage lookup, and the
 * remediation run, a guarded start followed by three timer callbacks.
 */
module Automation {
  import opened Wrappers

  // ---------------------------------------------------------------------
  // Tabs

  datatype Tab = Remediation | Cicd | Ami

  /** The tab shown first. */
  const InitialTab: Tab := Cicd

  datatype SubView = CicdPipeline | AmiFactory | RemediationConsole

  /** The three `activeTab === … && <…/>` children of the content area that render. */
  function SubViews(activeTab: Tab): (r: seq<SubView>)
    ensures |r| == 1
  {
    (if activeTab == Cicd then [CicdPipeline] else [])
    + (if activeTab == Ami then [AmiFactory] else [])
    + (if activeTab == Remediation then [RemediationConsole] else [])
  }

  /** Exactly one sub-view renders, the one the tab names; the page opens on the pipeline. */
  lemma ExactlyOneSubView(activeTab: Tab)
    ensures |SubViews(activeTab)| == 1
    ensures SubViews(activeTab)[0] == match activeTab
                                      case Cicd => CicdPipeline
                                      case Ami => AmiFactory
                                      case Remediation => RemediationConsole
    ensures SubViews(InitialTab) == [CicdPipeline]
  {
  }

  // ---------------------------------------------------------------------
  // The CI/CD pipeline and its configuration viewer

  /** A pipeline stage, without its icon, tools and configuration text. */
  datatype Stage = Stage(id: string, name: string, desc: string)

  const Stages: seq<Stage> := [
    Stage("source", "Source", "Prevent secrets from ever entering git history."),
    Stage("build", "Build & SAST", "Static Analysis (SAST) and Dependency Scanning (SCA)."),
    Stage("iac", "IaC Scan", "Scan Terraform/CloudFormation for misconfigurations."),
    Stage("container", "Container Scan", "Scan Docker images for OS vulnerabilities."),
    Stage("deploy", "Deploy & DAST", "Dynamic Analysis (DAST) against staging environment.")
  ]

  /** `stages.find(s => s.id === id)`: the first stage with that id. */
  function Find(stages: seq<Stage>, id: string): (r: Option<Stage>)
    ensures r.Some? ==> r.value in stages && r.value.id == id
    ensures r.None? <==> forall s :: s in stages ==> s.id != id
    ensures r.Some? ==> exists i :: 0 <= i < |stages| && stages[i] == r.value && forall j :: 0 <= j < i ==> stages[j].id != id
  {
    if stages == [] then None
    else if stages[0].id == id then Some(stages[0])
    else Find(stages[1..], id)
  }

  /** No two entries share an id. */
  predicate DistinctIds(stages: seq<Stage>) {
    forall i, j :: 0 <= i < j < |stages| ==> stages[i].id != stages[j].id
  }

  /** With distinct ids, looking up an entry's id finds that entry. */
  lemma {:induction false} FindById(stages: seq<Stage>, i: nat)
    requires DistinctIds(stages) && i < |stages|
    ensures Find(stages, stages[i].id) == Some(stages[i])
  {
    if i > 0 {
      assert stages[0].id != stages[i].id;
      assert DistinctIds(stages[1..]) by {
        forall a, b | 0 <= a < b < |stages| - 1
          ensures stages[1..][a].id != stages[1..][b].id
        {
          assert stages[1..][a] == stages[a + 1] && stages[1..][b] == stages[b + 1];
        }
      }
      FindById(stages[1..], i - 1);
      assert stages[1..][i - 1] == stages[i];
    }
  }

  lemma StageIdsDistinct()
    ensures |Stages| == 5
    ensures DistinctIds(Stages)
  {
    // The ids start with distinct letters.
    forall i, j | 0 <= i < j < 5 ensures Stages[i].id != Stages[j].id {
      assert Stages[i].id[0] != Stages[j].id[0];
    }
  }

  /** The configuration viewer: hidden until a stage is clicked, then that stage's entry. */
  function ConfigViewer(selectedStage: Option<string>): Option<Stage> {
    if selectedStage.None? then None else Find(Stages, selectedStage.value)
  }

  /** A click on the i-th stage button shows the i-th stage's description; nothing is shown before any click. */
  lemma ClickedStageIsShown(i: nat)
    requires i < |Stages|
    ensures ConfigViewer(Some(Stages[i].id)) == Some(Stages[i])
    ensures ConfigViewer(None) == None
  {
    StageIdsDistinct();
    FindById(Stages, i);
  }

  // ---------------------------------------------------------------------
  // The remediation run

  datatype Status = Idle | Detected | Remediating | Resolved

  /** The three callbacks `runSimulation` schedules, in the order they fire. */
  datatype Callback = ToRemediating | ToResolved | ToIdle

  /** Each callback's delay after the start, in milliseconds. */
  function Delay(c: Callback): nat {
    match c
    case ToRemediating => 2500
    case ToResolved => 5500
    case ToIdle => 9000
  }

  const Schedule: seq<Callback> := [ToRemediating, ToResolved, ToIdle]

  /** The status after the first `fired` callbacks of a run have run. */
  function StatusAfter(fired: nat): Status
    requires fired <= 3
  {
    match fired
    case 0 => Detected
    case 1 => Remediating
    case 2 => Resolved
    case _ => Idle
  }

  /** The run as a timeline: the status `elapsed` milliseconds after a start. */
  function StatusAt(elapsed: nat): (r: Status)
    ensures r == Idle <==> elapsed >= 9000
  {
    if elapsed < 2500 then Detected
    else if elapsed < 5500 then Remediating
    else if elapsed < 9000 then Resolved
    else Idle
  }

  /** The trigger flag on the same timeline: set by the start, cleared by the 9000 ms callback. */
  function TriggerAt(elapsed: nat): (r: bool)
    ensures r <==> StatusAt(elapsed) != Idle
  {
    elapsed < 9000
  }

  /** `RemediationConsole`'s state. */
  class Console {
    var trigger: bool
    var status: Status
    var showCode: bool
    /** The callbacks of the current run that have not fired yet. */
    var pending: seq<Callback>

    /** Idle with nothing pending, or inside a run after its first `3 - |pending|` callbacks. */
    ghost predicate Valid()
      reads this
    {
      |pending| <= 3
      && pending == Schedule[3 - |pending|..]
      && status == StatusAfter(3 - |pending|)
      && trigger == (pending != [])
    }

    constructor ()
      ensures Valid()
      ensures status == Idle && !trigger && !showCode
    {
      trigger := false;
      status := Idle;
      showCode := false;
      pending := [];
    }

    /** The breach button: ignored unless idle (it is also disabled then); otherwise starts a run. */
    method RunSimulation()
      requires Valid()
      modifies this
      ensures Valid()
      ensures old(status) != Idle ==> status == old(status) && trigger == old(trigger) && pending == old(pending)
      ensures old(status) == Idle ==> status == Detected && trigger && pending == Schedule
      ensures showCode == old(showCode)
    {
      if status != Idle {
        return;
      }
      trigger := true;
      status := Detected;
      pending := Schedule;
    }

    /** The earliest pending callback runs. */
    method TimerFires()
      requires Valid()
      modifies this
      ensures Valid()
      ensures old(pending) == [] ==> status == old(status) && trigger == old(trigger) && pending == []
      ensures old(pending) != [] ==> pending == old(pending)[1..]
      ensures showCode == old(showCode)
    {
      if pending == [] {
        return;
      }
      var c := pending[0];
      // The head is the next callback of the schedule, and the rest is the schedule's tail.
      assert c == Schedule[3 - |pending|] && pending[1..] == Schedule[3 - |pending| + 1..];
      pending := pending[1..];
      match c
      case ToRemediating =>
        status := Remediating;
      case ToResolved =>
        status := Resolved;
      case ToIdle =>
        status := Idle;
        trigger := false;
    }

    /** The code toggle flips the view and touches nothing of the run. */
    method ToggleCode()
      modifies this
      ensures showCode == !old(showCode)
      ensures status == old(status) && trigger == old(trigger) && pending == old(pending)
    {
      showCode := !showCode;
    }
  }

  /** Start from idle and let every callback due within `t` ms fire: the state is the timeline's at `t`. */
  method RunFor(c: Console, t: nat)
    requires c.Valid() && c.status == Idle
    modifies c
    ensures c.Valid()
    ensures c.status == StatusAt(t) && c.trigger == TriggerAt(t)
    ensures c.showCode == old(c.showCode)
  {
    c.RunSimulation();
    while c.pending != [] && Delay(c.pending[0]) <= t
      invariant c.Valid()
      invariant c.showCode == old(c.showCode)
      invariant forall j :: 0 <= j < 3 - |c.pending| ==> Delay(Schedule[j]) <= t
      decreases |c.pending|
    {
      c.TimerFires();
    }
    // The callback the loop stopped at is due after `t`, and so are those behind it.
    ghost var k := 3 - |c.pending|;
    if k < 3 {
      assert c.pending[0] == Schedule[k];
      assert Delay(Schedule[k]) > t;
    }
    if k > 0 {
      assert Delay(Schedule[k - 1]) <= t;
    }
  }

  /** The breach button's caption, on a button disabled unless idle. */
  function BreachButtonLabel(status: Status): string {
    if status == Idle then "Simulate Breach" else "Running..."
  }

  /** Over a run, the button reads "Running..." until the reset at 9000 ms, exactly while a click is ignored. */
  lemma BreachButtonOverTime(t: nat)
    ensures BreachButtonLabel(StatusAt(t)) == "Running..." <==> t < 9000
    ensures BreachButtonLabel(StatusAt(t)) == "Simulate Breach" <==> StatusAt(t) == Idle
  {
  }

  // The three boxes of the visual pipeline.
  predicate DetectionHighlighted(status: Status) { status == Detected }
  predicate RoutingHighlighted(status: Status) { status == Remediating }
  predicate RemediationHighlighted(status: Status) { status == Resolved || status == Remediating }

  /** Over a run, detection is lit for the first 2500 ms, routing from 2500 to 5500 ms, remediation from 2500 to 9000 ms. */
  lemma HighlightsOverTime(t: nat)
    ensures DetectionHighlighted(StatusAt(t)) <==> t < 2500
    ensures RoutingHighlighted(StatusAt(t)) <==> 2500 <= t < 5500
    ensures RemediationHighlighted(StatusAt(t)) <==> 2500 <= t < 9000
  {
  }

  // The lines of `remediation.log`.
  const WatchdogLine: string := "$ systemctl start security-watchdog"
  const MonitoringLine: string := "Monitoring for compliance events..."
  const AlertLine: string := "[ALERT] Resource 'doc-share-bucket' is NON_COMPLIANT."
  const AlertDetailLine: string := "Details: Public Read ACL found."
  const EventLine: string := "[EVENT] EventBridge matched rule. Invoking Lambda..."
  const LambdaLine: string := "[LAMBDA] Applying BlockPublicAccess..."
  const SuccessLine: string := "[SUCCESS] Bucket secured. Incident closed."
  const SuccessDetailLine: string := "Time to remediate: 2.3 seconds."

  /** The log view's lines for a status. */
  function LogLines(status: Status): (r: seq<string>)
    ensures |r| >= 2 && r[..2] == [WatchdogLine, MonitoringLine]
  {
    [WatchdogLine, MonitoringLine]
    + (if status != Idle then [AlertLine, AlertDetailLine] else [])
    + (if status == Remediating || status == Resolved then [EventLine] else [])
    + (if status == Remediating || status == Resolved then [LambdaLine] else [])
    + (if status == Resolved then [SuccessLine, SuccessDetailLine] else [])
  }

  /** The right-hand pane: the two snippets, or the log. */
  datatype Pane = CodePane | LogPane(lines: seq<string>)

  function ConsolePane(showCode: bool, status: Status): (r: Pane)
    ensures r.CodePane? <==> showCode
  {
    if showCode then CodePane else LogPane(LogLines(status))
  }

  /** Which lines are in the log, status by status. */
  lemma LogLinesByStatus(status: Status)
    ensures AlertLine in LogLines(status) <==> status != Idle
    ensures EventLine in LogLines(status) <==> status == Remediating || status == Resolved
    ensures LambdaLine in LogLines(status) <==> status == Remediating || status == Resolved
    ensures SuccessLine in LogLines(status) <==> status == Resolved
  {
  }

  /** The log only grows while a run is in progress: an earlier log is a prefix of a later one. */
  lemma LogIsCumulative(t1: nat, t2: nat)
    requires t1 <= t2 < 9000
    ensures LogLines(StatusAt(t1)) <= LogLines(StatusAt(t2))
  {
  }
}
