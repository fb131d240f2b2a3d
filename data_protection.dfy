/**
 * The data-protection page: the Secrets Manager rotation panel, which walks
 * through three steps on fixed timers and returns to step 0, and the Macie
 * discovery job, which scans a four-file bucket and reports the one
 * sensitive file.
 */
module DataProtection {
  import opened Wrappers

  // ---------------------------------------------------------------------
  // Secret rotation

  /** The three callbacks `rotateSecret` schedules, in the order they fire. */
  datatype Callback = ToUpdating | ToTesting | ToSynced

  /** Each callback's delay after the click, in milliseconds. */
  function Delay(c: Callback): nat {
    match c
    case ToUpdating => 1500
    case ToTesting => 3000
    case ToSynced => 4500
  }

  const Schedule: seq<Callback> := [ToUpdating, ToTesting, ToSynced]

  /** The step after the first `fired` callbacks of a rotation have run. */
  function StepAfter(fired: nat): nat
    requires fired <= 3
  {
    if fired == 3 then 0 else fired + 1
  }

  /** The rotation as a timeline: the step `elapsed` milliseconds after the click. */
  function StepAt(elapsed: nat): (r: nat)
    ensures r <= 3
    ensures r == 0 <==> elapsed >= 4500
  {
    if elapsed < 1500 then 1
    else if elapsed < 3000 then 2
    else if elapsed < 4500 then 3
    else 0
  }

  /** The rotation panel's state. */
  class RotationPanel {
    var rotationStep: nat
    /** The callbacks of the current rotation that have not fired yet. */
    var pending: seq<Callback>

    /** Synced with nothing pending, or inside a rotation after its first `3 - |pending|` callbacks. */
    ghost predicate Valid()
      reads this
    {
      |pending| <= 3
      && pending == Schedule[3 - |pending|..]
      && rotationStep == StepAfter(3 - |pending|)
    }

    constructor ()
      ensures Valid() && rotationStep == 0
    {
      rotationStep := 0;
      pending := [];
    }

    /**
     * The "Simulate Rotation" button. `rotateSecret` itself has no guard; the
     * button, its only caller, is disabled unless the step is 0.
     */
    method ClickRotate()
      requires Valid()
      modifies this
      ensures Valid()
      ensures old(rotationStep) != 0 ==> rotationStep == old(rotationStep) && pending == old(pending)
      ensures old(rotationStep) == 0 ==> rotationStep == 1 && pending == Schedule
    {
      if rotationStep != 0 {
        return;
      }
      rotationStep := 1;
      pending := Schedule;
    }

    /** The earliest pending callback runs. */
    method TimerFires()
      requires Valid()
      modifies this
      ensures Valid()
      ensures old(pending) == [] ==> rotationStep == old(rotationStep) && pending == []
      ensures old(pending) != [] ==> pending == old(pending)[1..]
    {
      if pending == [] {
        return;
      }
      var c := pending[0];
      // The head is the next callback of the schedule, and the rest is the schedule's tail.
      assert c == Schedule[3 - |pending|] && pending[1..] == Schedule[3 - |pending| + 1..];
      pending := pending[1..];
      match c
      case ToUpdating =>
        rotationStep := 2;
      case ToTesting =>
        rotationStep := 3;
      case ToSynced =>
        rotationStep := 0;
    }
  }

  /** Click from step 0 and let every callback due within `t` ms fire: the step is the timeline's at `t`. */
  method RotateFor(p: RotationPanel, t: nat)
    requires p.Valid() && p.rotationStep == 0
    modifies p
    ensures p.Valid()
    ensures p.rotationStep == StepAt(t)
  {
    p.ClickRotate();
    while p.pending != [] && Delay(p.pending[0]) <= t
      invariant p.Valid()
      invariant forall j :: 0 <= j < 3 - |p.pending| ==> Delay(Schedule[j]) <= t
      decreases |p.pending|
    {
      p.TimerFires();
    }
    // The callback the loop stopped at is due after `t`.
    ghost var k := 3 - |p.pending|;
    if k < 3 {
      assert p.pending[0] == Schedule[k];
      assert Delay(Schedule[k]) > t;
    }
    if k > 0 {
      assert Delay(Schedule[k - 1]) <= t;
    }
  }

  predicate RotateDisabled(rotationStep: nat) { rotationStep != 0 }

  const SyncedLabel: string := "Status: Synced (Ver 1)"
  const CreatingLabel: string := "Lambda Creating Ver 2..."
  const UpdatingLabel: string := "Updating DB Password..."
  const TestingLabel: string := "Testing Connection..."

  /** The status line: each of the four `rotationStep === k && …` that holds. */
  function RotationLabels(rotationStep: nat): (r: seq<string>)
    ensures |r| <= 1
  {
    (if rotationStep == 0 then [SyncedLabel] else [])
    + (if rotationStep == 1 then [CreatingLabel] else [])
    + (if rotationStep == 2 then [UpdatingLabel] else [])
    + (if rotationStep == 3 then [TestingLabel] else [])
  }

  /** Every step a rotation passes through shows exactly one label, and the button is enabled only when synced. */
  lemma OneLabelPerStep(t: nat)
    ensures |RotationLabels(StepAt(t))| == 1
    ensures RotationLabels(StepAt(t)) == [SyncedLabel] <==> !RotateDisabled(StepAt(t))
    ensures RotationLabels(StepAt(t)) == [SyncedLabel] <==> t >= 4500
    ensures StepAt(t) <= 3 && RotationLabels(StepAt(t)) == [[SyncedLabel, CreatingLabel, UpdatingLabel, TestingLabel][StepAt(t)]]
    ensures t < 1500 ==> RotationLabels(StepAt(t)) == [CreatingLabel]
    ensures 1500 <= t < 3000 ==> RotationLabels(StepAt(t)) == [UpdatingLabel]
    ensures 3000 <= t < 4500 ==> RotationLabels(StepAt(t)) == [TestingLabel]
  {
    // The four labels start with distinct letters.
    var step := StepAt(t);
    if step != 0 {
      assert RotationLabels(step)[0][0] != SyncedLabel[0];
    }
  }

  // ---------------------------------------------------------------------
  // The Macie discovery job

  datatype ScanState = Idle | Scanning | Alert

  /** `MacieSimulation`'s state. */
  class MacieScan {
    var scanState: ScanState
    /** The 2500 ms callbacks not yet run; each sets the state to 'alert'. */
    var pending: nat

    /** Idle has nothing pending; a scan in progress has its callback pending. */
    ghost predicate Valid()
      reads this
    {
      (scanState == Idle ==> pending == 0) && (scanState == Scanning ==> pending > 0)
    }

    constructor ()
      ensures Valid() && scanState == Idle && pending == 0
    {
      scanState := Idle;
      pending := 0;
    }

    /** `startScan`, which has no guard of its own: scanning, and one more callback. */
    method StartScan()
      requires Valid()
      modifies this
      ensures Valid()
      ensures scanState == Scanning && pending == old(pending) + 1
    {
      scanState := Scanning;
      pending := pending + 1;
    }

    /** The scan button, disabled unless idle. */
    method ClickScan()
      requires Valid()
      modifies this
      ensures Valid()
      ensures !ScanDisabled(old(scanState)) ==> scanState == Scanning && pending == 1
      ensures ScanDisabled(old(scanState)) ==> scanState == old(scanState) && pending == old(pending)
    {
      if scanState != Idle {
        return;
      }
      StartScan();
    }

    /** A pending callback runs and sets 'alert'. */
    method TimerFires()
      requires Valid()
      modifies this
      ensures Valid()
      ensures old(pending) > 0 ==> scanState == Alert && pending == old(pending) - 1
      ensures old(pending) == 0 ==> scanState == old(scanState) && pending == 0
    {
      if pending == 0 {
        return;
      }
      scanState := Alert;
      pending := pending - 1;
    }
  }

  /** Through the button, 'alert' is terminal: neither the button nor a timer leaves it. */
  method AlertIsTerminal(m: MacieScan, clickFirst: bool)
    requires m.Valid() && m.scanState == Alert
    modifies m
    ensures m.Valid() && m.scanState == Alert
  {
    if clickFirst {
      m.ClickScan();
    }
    m.TimerFires();
    m.ClickScan();
  }

  /** One click and the job's callback: idle, scanning, then alert with nothing left pending. */
  method RunDiscoveryJob(m: MacieScan)
    requires m.Valid() && m.scanState == Idle
    modifies m
    ensures m.Valid() && m.scanState == Alert && m.pending == 0
  {
    m.ClickScan();
    assert m.scanState == Scanning;
    m.TimerFires();
  }

  predicate ScanDisabled(s: ScanState) { s != Idle }

  function ScanButtonLabel(s: ScanState): string {
    match s
    case Idle => "Run Data Discovery Job"
    case Scanning => "Scanning..."
    case Alert => "Scan Complete"
  }

  /** The caption tells the three states apart, and the button is disabled exactly off its idle caption. */
  lemma ScanButtonViews(s: ScanState)
    ensures ScanDisabled(s) <==> ScanButtonLabel(s) != "Run Data Discovery Job"
    ensures forall other: ScanState :: other != s ==> ScanButtonLabel(other) != ScanButtonLabel(s)
  {
  }

  /** A file in the bucket and whether it holds sensitive data. */
  datatype BucketFile = BucketFile(name: string, sensitive: bool)

  const Bucket: seq<BucketFile> := [
    BucketFile("image_01.jpg", false),
    BucketFile("invoice.pdf", false),
    BucketFile("customers.csv", true),
    BucketFile("notes.txt", false)
  ]

  /** `FileIcon`'s highlight: a sensitive file while the scan runs. */
  predicate Highlighted(f: BucketFile, s: ScanState) {
    s == Scanning && f.sensitive
  }

  /** Of the four files, only customers.csv is highlighted, and only while scanning. */
  lemma OnlyCustomersCsvHighlighted(i: nat, s: ScanState)
    requires i < |Bucket|
    ensures Highlighted(Bucket[i], s) <==> Bucket[i].name == "customers.csv" && s == Scanning
  {
    assert Bucket[i].name == "customers.csv" <==> i == 2 by {
      if i != 2 {
        assert Bucket[i].name[0] != 'c' || |Bucket[i].name| != 13;
      }
    }
  }

  /** The entries of the findings panel. */
  datatype FindingsEntry = NoRecentJobs | Analyzing | SensitiveDataFound(objectName: string)

  function FindingsPanel(s: ScanState): seq<FindingsEntry> {
    (if s == Idle then [NoRecentJobs] else [])
    + (if s == Scanning then [Analyzing] else [])
    + (if s == Alert then [SensitiveDataFound("customers.csv")] else [])
  }

  /** The panel holds exactly one entry; a finding, naming customers.csv, appears exactly in 'alert'. */
  lemma FindingsPanelByState(s: ScanState)
    ensures |FindingsPanel(s)| == 1
    ensures FindingsPanel(s)[0] == NoRecentJobs <==> s == Idle
    ensures FindingsPanel(s)[0] == Analyzing <==> s == Scanning
    ensures FindingsPanel(s)[0].SensitiveDataFound? <==> s == Alert
    ensures s == Alert ==> FindingsPanel(s)[0].objectName == Bucket[2].name && Bucket[2].sensitive
  {
  }
}
