/**
 * The catalogue's micro-labs with state of their own. A `setTimeout` the
 * lab schedules is a queued callback (all of one lab's timers share a delay,
 * so they fire in the order they were set); a `setInterval` is a running
 * interval whose ticks the caller delivers.
 */
module ServiceLabs {
  import opened Wrappers
  import opened Text

  // ---------------------------------------------------------------- KMS

  const PlainText: string := "Secret123"
  const CipherText: string := "AQICAHi... (Ciphertext)"

  /** The encrypt/decrypt button's caption. */
  function KmsButtonLabel(isEncrypted: bool): (r: string)
    ensures r == "Decrypt Data" <==> isEncrypted
  {
    if isEncrypted then "Decrypt Data" else "Encrypt Data"
  }

  class KmsLab {
    var text: string
    var isEncrypted: bool

    /** The shown text is the ciphertext placeholder exactly when the data is encrypted. */
    ghost predicate Valid()
      reads this
    {
      text == if isEncrypted then CipherText else PlainText
    }

    constructor ()
      ensures Valid() && !isEncrypted && text == PlainText
    {
      text := PlainText;
      isEncrypted := false;
    }

    /** `toggle`. */
    method Toggle()
      requires Valid()
      modifies this
      ensures Valid() && isEncrypted == !old(isEncrypted)
    {
      if isEncrypted {
        text := PlainText;
        isEncrypted := false;
      } else {
        text := CipherText;
        isEncrypted := true;
      }
    }
  }

  /** A consistent lab is encrypted exactly when it shows the ciphertext. */
  lemma EncryptedIffCiphertext(lab: KmsLab)
    requires lab.Valid()
    ensures lab.isEncrypted <==> lab.text == CipherText
  {
    assert PlainText[0] != CipherText[0];
  }

  /** Two toggles restore the plaintext and the flag. */
  method ToggleTwice(lab: KmsLab)
    requires lab.Valid()
    modifies lab
    ensures lab.Valid() && lab.text == old(lab.text) && lab.isEncrypted == old(lab.isEncrypted)
  {
    lab.Toggle();
    lab.Toggle();
  }

  // ---------------------------------------------------------------- WAF

  datatype Verdict = Blocked | Allowed

  /** What a request meets, given whether the block rule was on. */
  function VerdictFor(ruleActive: bool): (r: Verdict)
    ensures r == Blocked <==> ruleActive
  {
    if ruleActive then Blocked else Allowed
  }

  function WafBanner(v: Verdict): string {
    match v
    case Blocked => "403 FORBIDDEN (Blocked by WAF)"
    case Allowed => "200 OK (Allowed)"
  }

  /** The banner a request resolves to reads 403 exactly when the rule was on at the click, and 200 otherwise. */
  lemma WafBannerShowsVerdict(ruleActive: bool)
    ensures WafBanner(VerdictFor(ruleActive)) == "403 FORBIDDEN (Blocked by WAF)" <==> ruleActive
    ensures WafBanner(VerdictFor(ruleActive)) == "200 OK (Allowed)" <==> !ruleActive
  {
  }

  class WafLab {
    var ruleActive: bool
    var status: Option<Verdict>
    /** The rule state each pending 600 ms callback captured, oldest first. */
    var pending: seq<bool>

    constructor ()
      ensures !ruleActive && status == None && pending == []
    {
      ruleActive := false;
      status := None;
      pending := [];
    }

    /** The rule switch. */
    method ToggleRule()
      modifies this
      ensures ruleActive == !old(ruleActive) && status == old(status) && pending == old(pending)
    {
      ruleActive := !ruleActive;
    }

    /** `sendRequest`: clear the status and schedule the evaluation with the rule as it is now. */
    method SendRequest()
      modifies this
      ensures status == None && pending == old(pending) + [old(ruleActive)] && ruleActive == old(ruleActive)
    {
      status := None;
      pending := pending + [ruleActive];
    }

    /** The oldest pending callback runs: the verdict uses the rule captured at click time. */
    method TimerFires()
      modifies this
      ensures old(pending) == [] ==> status == old(status) && pending == []
      ensures old(pending) != [] ==> status == Some(VerdictFor(old(pending)[0])) && pending == old(pending)[1..]
      ensures ruleActive == old(ruleActive)
    {
      if pending == [] {
        return;
      }
      status := Some(VerdictFor(pending[0]));
      pending := pending[1..];
    }
  }

  /** Turning the rule on after clicking does not change the verdict of the request already sent. */
  method RequestThenToggle(lab: WafLab)
    requires lab.pending == []
    modifies lab
    ensures lab.status == Some(VerdictFor(old(lab.ruleActive))) && lab.ruleActive == !old(lab.ruleActive)
  {
    lab.SendRequest();
    lab.ToggleRule();
    lab.TimerFires();
  }

  // ---------------------------------------------------------------- Secrets Manager

  /** The part of a rotated password that names its version: `Pass_v<version>_`. */
  function PasswordPrefix(version: nat): string {
    "Pass_v" + NatToString(version) + "_"
  }

  /** The rotate button's caption. */
  function RotateButtonLabel(rotating: bool): (r: string)
    ensures r == "Rotating Secret..." <==> rotating
  {
    if rotating then "Rotating Secret..." else "Rotate Secret Now"
  }

  class SecretsLab {
    var version: nat
    var password: string
    var rotating: bool
    /** The `version` each pending 1500 ms callback captured, oldest first. */
    var pending: seq<nat>

    /**
     * Through the button, at most one rotation is pending, exactly while
     * rotating, and it captured the current version; the shown password
     * names the shown version.
     */
    ghost predicate Valid()
      reads this
    {
      && |pending| <= 1
      && (rotating <==> pending != [])
      && (pending != [] ==> pending[0] == version)
      && PasswordPrefix(version) <= password
    }

    constructor ()
      ensures Valid() && version == 1 && password == "Pass_v1_abc" && !rotating
    {
      version := 1;
      password := "Pass_v1_abc";
      rotating := false;
      pending := [];
      assert NatToString(1) == "1";
    }

    /** `rotate`, which itself has no guard. */
    method Rotate()
      modifies this
      ensures rotating && pending == old(pending) + [old(version)]
      ensures version == old(version) && password == old(password)
    {
      rotating := true;
      pending := pending + [version];
    }

    /** The button, disabled while rotating. */
    method ClickRotate()
      requires Valid()
      modifies this
      ensures Valid()
      ensures old(rotating) ==> version == old(version) && password == old(password) && pending == old(pending)
      ensures !old(rotating) ==> rotating && pending == [version] && version == old(version) && password == old(password)
    {
      if rotating {
        return;
      }
      Rotate();
    }

    /**
     * The oldest pending rotation completes: the version goes up by one
     * through the state updater, while the password is built from the
     * version the callback captured; `suffix` is the random part.
     */
    method RotationCompletes(suffix: string)
      modifies this
      ensures old(Valid()) ==> Valid()
      ensures old(pending) == [] ==> version == old(version) && password == old(password) && pending == [] && rotating == old(rotating)
      ensures old(pending) != [] ==>
        && version == old(version) + 1
        && password == PasswordPrefix(old(pending)[0] + 1) + suffix
        && pending == old(pending)[1..]
        && !rotating
    {
      if pending == [] {
        return;
      }
      version := version + 1;
      password := PasswordPrefix(pending[0] + 1) + suffix;
      rotating := false;
      pending := pending[1..];
    }
  }

  /** Through the button, a completed rotation bumps the version by exactly one and the password names it. */
  method RotateThroughButton(lab: SecretsLab, suffix: string)
    requires lab.Valid() && !lab.rotating
    modifies lab
    ensures lab.Valid() && !lab.rotating
    ensures lab.version == old(lab.version) + 1 && lab.password == PasswordPrefix(lab.version) + suffix
  {
    lab.ClickRotate();
    lab.RotationCompletes(suffix);
  }

  // ---------------------------------------------------------------- Macie

  /** One interval callback's updater: 5 more percent, or hold at 100 (and clear). */
  function NextProgress(p: nat): nat {
    if p >= 100 then 100 else p + 5
  }

  /** The progress after `ticks` ticks of a single interval started from 0. */
  function ProgressAfter(ticks: nat): nat {
    if ticks == 0 then 0 else NextProgress(ProgressAfter(ticks - 1))
  }

  /** The progress is 5 per tick, capped at 100: always a multiple of 5 within [0, 100], never decreasing. */
  lemma {:induction false} ProgressAfterValue(ticks: nat)
    ensures ProgressAfter(ticks) == if 5 * ticks <= 100 then 5 * ticks else 100
    ensures ProgressAfter(ticks) % 5 == 0 && ProgressAfter(ticks) <= 100
  {
    if ticks > 0 {
      ProgressAfterValue(ticks - 1);
    }
  }

  /** Progress never decreases from one tick to a later one. */
  lemma ProgressMonotone(a: nat, b: nat)
    requires a <= b
    ensures ProgressAfter(a) <= ProgressAfter(b)
  {
    ProgressAfterValue(a);
    ProgressAfterValue(b);
  }

  /** The scan button's caption. */
  function MacieButtonLabel(progress: nat): string {
    if progress == 100 then "Scan Complete" else if progress > 0 then "Scanning..." else "Start PII Discovery Job"
  }

  /** The results (14 credit cards, 42 SSNs) show only once the scan is complete. */
  predicate MacieResultsShown(progress: nat) {
    progress == 100
  }

  /**
   * Over a scan: the button offers the job only before the first tick, reads
   * "Scan Complete" and shows the results from the 20th tick on, and reads
   * "Scanning..." in between.
   */
  lemma MacieViewsOverTicks(ticks: nat)
    ensures MacieButtonLabel(ProgressAfter(ticks)) == "Start PII Discovery Job" <==> ticks == 0
    ensures MacieButtonLabel(ProgressAfter(ticks)) == "Scan Complete" <==> ticks >= 20
    ensures MacieResultsShown(ProgressAfter(ticks)) <==> ticks >= 20
    ensures 0 < ticks < 20 ==> MacieButtonLabel(ProgressAfter(ticks)) == "Scanning..."
  {
    ProgressAfterValue(ticks);
  }

  class MacieLab {
    var progress: nat
    /** The 100 ms intervals still running. */
    var intervals: nat

    ghost predicate Valid()
      reads this
    {
      progress <= 100 && progress % 5 == 0
    }

    constructor ()
      ensures Valid() && progress == 0 && intervals == 0
    {
      progress := 0;
      intervals := 0;
    }

    /** `scan`: ignored once progress has started; otherwise starts an interval. */
    method Scan()
      modifies this
      ensures progress == old(progress)
      ensures old(progress) > 0 ==> intervals == old(intervals)
      ensures old(progress) == 0 ==> intervals == old(intervals) + 1
    {
      if progress > 0 {
        return;
      }
      intervals := intervals + 1;
    }

    /** One running interval's callback. */
    method Tick()
      requires Valid()
      modifies this
      ensures Valid() && progress >= old(progress)
      ensures old(intervals) == 0 ==> progress == old(progress) && intervals == 0
      ensures old(intervals) > 0 ==>
        progress == NextProgress(old(progress))
        && intervals == if old(progress) >= 100 then old(intervals) - 1 else old(intervals)
    {
      if intervals == 0 {
        return;
      }
      if progress >= 100 {
        intervals := intervals - 1;
        progress := 100;
      } else {
        progress := progress + 5;
      }
    }
  }

  /** A scan from a fresh lab, followed by `ticks` ticks: the interval is cleared on the 21st. */
  method RunMacieScan(lab: MacieLab, ticks: nat)
    requires lab.Valid() && lab.progress == 0 && lab.intervals == 0
    modifies lab
    ensures lab.Valid() && lab.progress == ProgressAfter(ticks)
    ensures lab.intervals == if ticks > 20 then 0 else 1
  {
    lab.Scan();
    var i := 0;
    while i < ticks
      invariant 0 <= i <= ticks
      invariant lab.Valid() && lab.progress == ProgressAfter(i)
      invariant lab.intervals == if i > 20 then 0 else 1
    {
      ProgressAfterValue(i);
      lab.Tick();
      i := i + 1;
    }
  }

  // ---------------------------------------------------------------- Security Hub

  const TargetScore: nat := 78

  /** The score after `ticks` ticks of one assessment: 2 per tick until the interval stops at 78. */
  function ScoreAfter(ticks: nat): nat {
    if ticks == 0 then 0
    else if ScoreAfter(ticks - 1) >= TargetScore then ScoreAfter(ticks - 1)
    else ScoreAfter(ticks - 1) + 2
  }

  lemma {:induction false} ScoreAfterValue(ticks: nat)
    ensures ScoreAfter(ticks) == if 2 * ticks <= TargetScore then 2 * ticks else TargetScore
  {
    if ticks > 0 {
      ScoreAfterValue(ticks - 1);
    }
  }

  /** The ring's colour: green above 70, amber otherwise. */
  predicate RingGreen(score: nat) {
    score > 70
  }

  /** The ring turns green on the 36th tick and stays green; the score settles at exactly 78 on the 39th. */
  lemma RingGreenAfter(ticks: nat)
    ensures RingGreen(ScoreAfter(ticks)) <==> ticks >= 36
    ensures ScoreAfter(ticks) == TargetScore <==> ticks >= 39
  {
    ScoreAfterValue(ticks);
  }

  class SecurityHubLab {
    var score: nat
    /** The local `s` of each running 50 ms interval. */
    var counters: seq<nat>

    ghost predicate Valid()
      reads this
    {
      && score <= TargetScore && score % 2 == 0
      && (forall i :: 0 <= i < |counters| ==> counters[i] < TargetScore && counters[i] % 2 == 0)
    }

    constructor ()
      ensures Valid() && score == 0 && counters == []
    {
      score := 0;
      counters := [];
    }

    /** `check`, which has no guard of its own: a new interval with `s = 0`. */
    method Check()
      requires Valid()
      modifies this
      ensures Valid() && score == old(score) && counters == old(counters) + [0]
    {
      counters := counters + [0];
    }

    /** The assessment button, disabled once the score is above 0. */
    method ClickCheck()
      requires Valid()
      modifies this
      ensures Valid() && score == old(score)
      ensures old(score) > 0 ==> counters == old(counters)
      ensures old(score) == 0 ==> counters == old(counters) + [0]
    {
      if score > 0 {
        return;
      }
      Check();
    }

    /** Interval `i` ticks: `s += 2`, show it, and stop once it reaches 78. */
    method Tick(i: nat)
      requires Valid()
      modifies this
      ensures Valid()
      ensures i >= old(|counters|) ==> score == old(score) && counters == old(counters)
      ensures i < old(|counters|) ==>
        && score == old(counters)[i] + 2
        && counters == if score >= TargetScore then old(counters)[..i] + old(counters)[i + 1..]
                       else old(counters)[i := score]
    {
      if i >= |counters| {
        return;
      }
      var s := counters[i] + 2;
      score := s;
      if s >= TargetScore {
        counters := counters[..i] + counters[i + 1..];
      } else {
        counters := counters[i := s];
      }
    }
  }

  /** One assessment from a fresh lab: after `ticks` ticks the score is `ScoreAfter(ticks)`. */
  method RunAssessment(lab: SecurityHubLab, ticks: nat)
    requires lab.Valid() && lab.score == 0 && lab.counters == []
    modifies lab
    ensures lab.Valid() && lab.score == ScoreAfter(ticks)
    ensures lab.counters == if ticks >= 39 then [] else [ScoreAfter(ticks)]
  {
    lab.ClickCheck();
    for k := 0 to ticks
      invariant lab.Valid() && lab.score == ScoreAfter(k)
      invariant lab.counters == if k >= 39 then [] else [ScoreAfter(k)]
    {
      ScoreAfterValue(k);
      ScoreAfterValue(k + 1);
      lab.Tick(0);
    }
  }

  // ---------------------------------------------------------------- Cognito

  /** The caption under the three dots. */
  function CognitoCaption(step: nat): Option<string> {
    if step == 0 then Some("User enters Credentials")
    else if step == 1 then Some("Cognito Issues JWT Token")
    else if step == 2 then Some("Exchanged for AWS STS Credentials")
    else None
  }

  datatype DotColour = Slate | Blue | GreenDot

  /** The three dots' class conditions: `step >= 0` and `step >= 1` colour blue, `step >= 2` colours green. */
  function DotColourAt(step: nat, k: nat): DotColour {
    if k == 0 then (if step >= 0 then Blue else Slate)
    else if k == 1 then (if step >= 1 then Blue else Slate)
    else if k == 2 then (if step >= 2 then GreenDot else Slate)
    else Slate
  }

  function LoginButtonLabel(step: nat): string {
    if step == 0 then "Login User" else "Authenticating..."
  }

  class CognitoLab {
    var step: nat
    /** The 1500 ms callbacks not yet run. */
    var pending: nat

    /** Through the button: idle, waiting for the token exchange, or done. */
    ghost predicate Valid()
      reads this
    {
      (step == 0 && pending == 0) || (step == 1 && pending == 1) || (step == 2 && pending == 0)
    }

    constructor ()
      ensures Valid() && step == 0
    {
      step := 0;
      pending := 0;
    }

    /** The login button, disabled once the step is above 0. */
    method ClickLogin()
      requires Valid()
      modifies this
      ensures Valid()
      ensures old(step) > 0 ==> step == old(step) && pending == old(pending)
      ensures old(step) == 0 ==> step == 1
    {
      if step > 0 {
        return;
      }
      step := 1;
      pending := pending + 1;
    }

    method TimerFires()
      requires Valid()
      modifies this
      ensures Valid()
      ensures old(pending) > 0 ==> step == 2
      ensures old(pending) == 0 ==> step == old(step)
    {
      if pending == 0 {
        return;
      }
      step := 2;
      pending := pending - 1;
    }
  }

  /**
   * Each reachable step shows one caption of its own; the dots coloured are
   * exactly the first `step + 1`, the first is always blue, and green appears
   * only on the third dot, exactly at the last step.
   */
  lemma CognitoViews(step: nat)
    requires step <= 2
    ensures CognitoCaption(step).Some?
    ensures forall other: nat :: other <= 2 && other != step ==> CognitoCaption(other) != CognitoCaption(step)
    ensures forall k: nat :: k <= 2 ==> (DotColourAt(step, k) != Slate <==> k <= step)
    ensures DotColourAt(step, 0) == Blue
    ensures forall k: nat :: DotColourAt(step, k) == GreenDot <==> k == 2 && step == 2
    ensures LoginButtonLabel(step) == "Login User" <==> step == 0
  {
  }

  // ---------------------------------------------------------------- Network Firewall

  datatype Packet = Waiting | PacketAllowed | PacketDropped

  function PacketCaption(p: Packet): string {
    match p
    case Waiting => "Waiting for traffic..."
    case PacketAllowed => "ALLOWED: google.com"
    case PacketDropped => "DROPPED: malware.site"
  }

  /** The three captions differ, so the caption shows which state the packet is in. */
  lemma PacketCaptionsDistinct(p: Packet, q: Packet)
    ensures PacketCaption(p) == PacketCaption(q) <==> p == q
  {
  }

  class NetworkFirewallLab {
    var packet: Packet
    /** Whether each pending 500 ms callback was for a malicious request, oldest first. */
    var pending: seq<bool>

    constructor ()
      ensures packet == Waiting && pending == []
    {
      packet := Waiting;
      pending := [];
    }

    /** `send(malicious)`: back to waiting, and schedule the outcome. */
    method Send(malicious: bool)
      modifies this
      ensures packet == Waiting && pending == old(pending) + [malicious]
      ensures PacketCaption(packet) == "Waiting for traffic..."
    {
      packet := Waiting;
      pending := pending + [malicious];
    }

    method TimerFires()
      modifies this
      ensures old(pending) == [] ==> packet == old(packet) && pending == []
      ensures old(pending) != [] ==>
        packet == (if old(pending)[0] then PacketDropped else PacketAllowed) && pending == old(pending)[1..]
      ensures old(pending) != [] ==>
        PacketCaption(packet) == if old(pending)[0] then "DROPPED: malware.site" else "ALLOWED: google.com"
    {
      if pending == [] {
        return;
      }
      packet := if pending[0] then PacketDropped else PacketAllowed;
      pending := pending[1..];
    }
  }
}
