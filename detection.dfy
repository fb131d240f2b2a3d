/**
 * The GuardDuty threat-hunter simulation: an attack button starts a run that
 * walks the detection pipeline through stages 1, 2 and 3 on fixed timers and
 * then resets; the pipeline elements and the agent log follow the stage.
 */
module Detection {
  import opened Wrappers

  datatype AttackType = Ssh | Crypto

  /** The three callbacks `startAttack` schedules, in the order they fire. */
  datatype Callback = ToEngine | ToFinding | Reset

  /** Each callback's delay after the start, in milliseconds. */
  function Delay(c: Callback): nat {
    match c
    case ToEngine => 2000
    case ToFinding => 4000
    case Reset => 7000
  }

  const Schedule: seq<Callback> := [ToEngine, ToFinding, Reset]

  /** The stage after the first `fired` callbacks of a run have run. */
  function StageAfter(fired: nat): nat
    requires fired <= 3
  {
    if fired == 3 then 0 else fired + 1
  }

  /** The run as a timeline: the stage `elapsed` milliseconds after a start. */
  function StageAt(elapsed: nat): (r: nat)
    ensures r <= 3
    ensures r == 0 <==> elapsed >= 7000
  {
    if elapsed < 2000 then 1
    else if elapsed < 4000 then 2
    else if elapsed < 7000 then 3
    else 0
  }

  /** The attack type on the same timeline: the chosen one until the reset. */
  function AttackAt(chosen: AttackType, elapsed: nat): (r: Option<AttackType>)
    ensures r.Some? <==> StageAt(elapsed) != 0
    ensures r.Some? ==> r.value == chosen
  {
    if elapsed < 7000 then Some(chosen) else None
  }

  /** `GuardDutySimulation`'s state. */
  class Simulation {
    var attackType: Option<AttackType>
    var stage: nat
    /** The callbacks of the current run that have not fired yet. */
    var pending: seq<Callback>

    /** Idle with no attack and nothing pending, or inside a run after its first `3 - |pending|` callbacks. */
    ghost predicate Valid()
      reads this
    {
      |pending| <= 3
      && pending == Schedule[3 - |pending|..]
      && stage == StageAfter(3 - |pending|)
      && (attackType.Some? <==> pending != [])
    }

    constructor ()
      ensures Valid()
      ensures stage == 0 && attackType == None
    {
      attackType := None;
      stage := 0;
      pending := [];
    }

    /** An attack button: ignored unless the stage is 0 (both buttons are also disabled then). */
    method StartAttack(t: AttackType)
      requires Valid()
      modifies this
      ensures Valid()
      ensures ButtonsDisabled(old(stage)) ==> stage == old(stage) && attackType == old(attackType) && pending == old(pending)
      ensures !ButtonsDisabled(old(stage)) ==> stage == 1 && attackType == Some(t) && pending == Schedule
    {
      if stage != 0 {
        return;
      }
      attackType := Some(t);
      stage := 1;
      pending := Schedule;
    }

    /** The earliest pending callback runs; the last one also forgets the attack type. */
    method TimerFires()
      requires Valid()
      modifies this
      ensures Valid()
      ensures old(pending) == [] ==> stage == old(stage) && attackType == old(attackType) && pending == []
      ensures old(pending) != [] ==> pending == old(pending)[1..]
      ensures pending != [] ==> attackType == old(attackType)
    {
      if pending == [] {
        return;
      }
      var c := pending[0];
      // The head is the next callback of the schedule, and the rest is the schedule's tail.
      assert c == Schedule[3 - |pending|] && pending[1..] == Schedule[3 - |pending| + 1..];
      pending := pending[1..];
      match c
      case ToEngine =>
        stage := 2;
      case ToFinding =>
        stage := 3;
      case Reset =>
        stage := 0;
        attackType := None;
    }
  }

  /** Start an attack from idle and let every callback due within `t` ms fire: the state is the timeline's at `t`. */
  method RunFor(s: Simulation, chosen: AttackType, t: nat)
    requires s.Valid() && s.stage == 0
    modifies s
    ensures s.Valid()
    ensures s.stage == StageAt(t) && s.attackType == AttackAt(chosen, t)
  {
    s.StartAttack(chosen);
    while s.pending != [] && Delay(s.pending[0]) <= t
      invariant s.Valid()
      invariant forall j :: 0 <= j < 3 - |s.pending| ==> Delay(Schedule[j]) <= t
      invariant s.pending != [] ==> s.attackType == Some(chosen)
      decreases |s.pending|
    {
      s.TimerFires();
    }
    // The callback the loop stopped at is due after `t`.
    ghost var k := 3 - |s.pending|;
    if k < 3 {
      assert s.pending[0] == Schedule[k];
      assert Delay(Schedule[k]) > t;
    }
    if k > 0 {
      assert Delay(Schedule[k - 1]) <= t;
    }
  }

  /** Both attack buttons are disabled while a run is in progress. */
  predicate ButtonsDisabled(stage: nat) { stage != 0 }

  /** The spinner on an attack button shows while that attack is the current one. */
  predicate Spinning(attackType: Option<AttackType>, button: AttackType) {
    attackType == Some(button)
  }

  /**
   * Over a run started with `chosen`: both buttons are disabled until the
   * reset at 7000 ms, and only the chosen button spins, for exactly as long.
   */
  lemma AttackButtonsOverTime(chosen: AttackType, t: nat, button: AttackType)
    ensures ButtonsDisabled(StageAt(t)) <==> t < 7000
    ensures Spinning(AttackAt(chosen, t), button) <==> t < 7000 && button == chosen
    ensures Spinning(AttackAt(chosen, t), button) ==> ButtonsDisabled(StageAt(t))
  {
  }

  /** The pipeline elements, each lit from its own stage on. */
  datatype Element = AttackerIp | FlowLogs | Engine | Finding

  function Threshold(e: Element): nat {
    match e
    case AttackerIp => 1
    case FlowLogs => 1
    case Engine => 2
    case Finding => 3
  }

  predicate Lit(stage: nat, e: Element) { stage >= Threshold(e) }

  /** Over a run, the attacker and the flow logs are lit from the start, the engine from 2000 ms, the finding from 4000 ms, all until 7000 ms. */
  lemma LitOverTime(e: Element, t: nat)
    ensures Lit(StageAt(t), e) <==> t < 7000 && t >= (match e
                                                      case AttackerIp => 0
                                                      case FlowLogs => 0
                                                      case Engine => 2000
                                                      case Finding => 4000)
  {
  }

  // The agent log's lines.
  const InfoLine: string := "[INFO] Ingesting Flow Logs from eni-12345abcd..."
  const SshWarnLine: string := "[WARN] Traffic volume spike on port 22 from 192.168.1.100"
  const CryptoWarnLine: string := "[WARN] DNS query to known mining pool 'pool.mine.xmr'"
  const SshFinding: string := "UnauthorizedAccess:EC2/SSHBruteForce"
  const CryptoFinding: string := "CryptoCurrency:EC2/BitcoinTool.B"

  /** The finding the CRITICAL line names: the SSH one for 'ssh', the mining one otherwise. */
  function FindingName(attackType: Option<AttackType>): string {
    if attackType == Some(Ssh) then SshFinding else CryptoFinding
  }

  function CriticalLine(attackType: Option<AttackType>): string {
    "[CRITICAL] Finding Generated: " + FindingName(attackType)
  }

  /** The agent log below its header. */
  function LogLines(stage: nat, attackType: Option<AttackType>): seq<string> {
    (if stage >= 1 then [InfoLine] else [])
    + (if stage >= 2 && attackType == Some(Ssh) then [SshWarnLine] else [])
    + (if stage >= 2 && attackType == Some(Crypto) then [CryptoWarnLine] else [])
    + (if stage >= 3 then [CriticalLine(attackType)] else [])
  }

  /** The warning line of an attack type. */
  function WarnLine(t: AttackType): string {
    if t == Ssh then SshWarnLine else CryptoWarnLine
  }

  /** During a run, the log is INFO, then the type's own WARN from stage 2, then CRITICAL naming the type's finding at stage 3; nothing after the reset. */
  lemma LogOverTime(chosen: AttackType, t: nat)
    ensures LogLines(StageAt(t), AttackAt(chosen, t)) ==
      if t < 2000 then [InfoLine]
      else if t < 4000 then [InfoLine, WarnLine(chosen)]
      else if t < 7000 then [InfoLine, WarnLine(chosen), CriticalLine(Some(chosen))]
      else []
  {
  }

  /** The log only grows while a run is in progress. */
  lemma LogIsCumulative(chosen: AttackType, t1: nat, t2: nat)
    requires t1 <= t2 < 7000
    ensures LogLines(StageAt(t1), AttackAt(chosen, t1)) <= LogLines(StageAt(t2), AttackAt(chosen, t2))
  {
    LogOverTime(chosen, t1);
    LogOverTime(chosen, t2);
  }

  /** The CRITICAL line names the SSH finding exactly for an SSH attack. */
  lemma FindingMatchesAttack(t: AttackType)
    ensures FindingName(Some(t)) == SshFinding <==> t == Ssh
  {
    assert SshFinding[0] != CryptoFinding[0];
  }
}
