/**
 * The introduction page: the shared-responsibility model, which moves items
 * between the customer's side and AWS's side as the service model changes,
 * and the five security pillars with their key-services line.
 */
module Introduction {
  /** `modelType`: IaaS (EC2), PaaS (RDS) or serverless (Lambda). */
  datatype ServiceModel = Ec2 | Rds | Lambda

  // The labels of the responsibility items.
  const CustomerData: string := "Customer Data"
  const IamAccess: string := "IAM & Access"
  const ClientEncryption: string := "Client Encryption"
  const OsPatching: string := "OS Patching"
  const FirewallConfig: string := "Firewall Config"
  const NetworkTraffic: string := "Network Traffic"
  const DatabaseSchema: string := "Database Schema"
  const PhysicalHardware: string := "Physical Hardware"
  const RegionsAzs: string := "Regions & AZs"
  const EdgeLocations: string := "Edge Locations"
  const OsKernel: string := "OS & Kernel"
  const RuntimeEnvironment: string := "Runtime Environment"
  const ServerManagement: string := "Server Management"

  /** The items of the customer zone, in display order. */
  function CustomerItems(m: ServiceModel): (r: seq<string>)
    ensures |r| >= 3 && r[..3] == [CustomerData, IamAccess, ClientEncryption]
  {
    [CustomerData, IamAccess, ClientEncryption]
    + (if m == Ec2 then [OsPatching, FirewallConfig, NetworkTraffic] else [])
    + (if m == Rds then [DatabaseSchema] else [])
  }

  /** The items of the AWS zone, in display order. */
  function AwsItems(m: ServiceModel): (r: seq<string>)
    ensures |r| >= 3 && r[..3] == [PhysicalHardware, RegionsAzs, EdgeLocations]
  {
    [PhysicalHardware, RegionsAzs, EdgeLocations]
    + (if m != Ec2 then [OsKernel] else [])
    + (if m == Lambda then [RuntimeEnvironment, ServerManagement] else [])
  }

  /** Data, access and client-side encryption stay with the customer under every model. */
  lemma CustomerAlwaysOwns(m: ServiceModel)
    ensures CustomerData in CustomerItems(m)
    ensures IamAccess in CustomerItems(m)
    ensures ClientEncryption in CustomerItems(m)
  {
    assert CustomerItems(m)[0] == CustomerData;
    assert CustomerItems(m)[1] == IamAccess;
    assert CustomerItems(m)[2] == ClientEncryption;
  }

  /** The physical layer stays with AWS under every model. */
  lemma AwsAlwaysOwns(m: ServiceModel)
    ensures PhysicalHardware in AwsItems(m)
    ensures RegionsAzs in AwsItems(m)
    ensures EdgeLocations in AwsItems(m)
  {
    assert AwsItems(m)[0] == PhysicalHardware;
    assert AwsItems(m)[1] == RegionsAzs;
    assert AwsItems(m)[2] == EdgeLocations;
  }

  /** The operating system and the network are the customer's exactly under EC2; the schema exactly under RDS. */
  lemma CustomerModelItems(m: ServiceModel)
    ensures OsPatching in CustomerItems(m) <==> m == Ec2
    ensures FirewallConfig in CustomerItems(m) <==> m == Ec2
    ensures NetworkTraffic in CustomerItems(m) <==> m == Ec2
    ensures DatabaseSchema in CustomerItems(m) <==> m == Rds
  {
  }

  /** The kernel is AWS's unless the model is EC2; runtime and servers are AWS's exactly under Lambda. */
  lemma AwsModelItems(m: ServiceModel)
    ensures OsKernel in AwsItems(m) <==> m != Ec2
    ensures RuntimeEnvironment in AwsItems(m) <==> m == Lambda
    ensures ServerManagement in AwsItems(m) <==> m == Lambda
  {
  }

  /** Responsibility shifts to AWS as the model moves from EC2 through RDS to Lambda; no label is on both sides. */
  lemma ItemCounts(m: ServiceModel)
    ensures |CustomerItems(m)| == (match m case Ec2 => 6 case Rds => 4 case Lambda => 3)
    ensures |AwsItems(m)| == (match m case Ec2 => 3 case Rds => 4 case Lambda => 6)
    ensures forall x :: x in CustomerItems(m) ==> x !in AwsItems(m)
  {
  }

  /** The five pillars, by title; `activePillar` indexes this list. */
  const PillarTitles: seq<string> :=
    ["Identity (IAM)", "Detective Controls", "Infrastructure", "Data Protection", "Incident Response"]

  const IdentityServices: string := "IAM, IAM Identity Center, STS, Organizations, Directory Service"
  const DetectiveServices: string := "CloudTrail, Config, GuardDuty, Security Hub, Inspector, Macie"
  const InfrastructureServices: string := "VPC, Security Groups, NACLs, WAF, Shield, Firewall Manager"
  const DataServices: string := "KMS, CloudHSM, Certificate Manager (ACM), Secrets Manager"
  const ResponseServices: string := "EventBridge, Lambda, Step Functions, Detective, Elastic Disaster Recovery"

  /** The key-services lines, one guarded by each pillar index. */
  const KeyServiceLines: seq<string> :=
    [IdentityServices, DetectiveServices, InfrastructureServices, DataServices, ResponseServices]

  /** The lines the key-services box renders: each of the five `activePillar === k && …` that holds. */
  function KeyServices(activePillar: nat): (r: seq<string>)
    ensures |r| <= 1
    ensures r != [] ==> r[0] in KeyServiceLines
  {
    (if activePillar == 0 then [IdentityServices] else [])
    + (if activePillar == 1 then [DetectiveServices] else [])
    + (if activePillar == 2 then [InfrastructureServices] else [])
    + (if activePillar == 3 then [DataServices] else [])
    + (if activePillar == 4 then [ResponseServices] else [])
  }

  /** The page's selection state. */
  datatype View = View(modelType: ServiceModel, activePillar: nat)

  /** Both selectors start at the first entry. */
  function InitialView(): (v: View)
    ensures v.modelType == Ec2 && v.activePillar == 0
  {
    View(Ec2, 0)
  }

  /** A model button sets `modelType` and leaves the pillar alone. */
  function SelectModel(v: View, m: ServiceModel): (r: View)
    ensures r.modelType == m && r.activePillar == v.activePillar
  {
    v.(modelType := m)
  }

  /** A pillar tab sets `activePillar` to its index in the pillar list. */
  function SelectPillar(v: View, idx: nat): (r: View)
    requires idx < |PillarTitles|
    ensures r.activePillar == idx && r.modelType == v.modelType
  {
    v.(activePillar := idx)
  }

  /** Each pillar index in 0..4 selects exactly one line, the one in its own position; no other index selects any. */
  lemma ExactlyOneKeyServicesLine(activePillar: nat)
    ensures activePillar < |PillarTitles| ==> KeyServices(activePillar) == [KeyServiceLines[activePillar]]
    ensures activePillar >= |PillarTitles| ==> KeyServices(activePillar) == []
  {
  }

  /** The five lines are distinct, so the line shown determines the pillar. */
  lemma KeyServicesDetermineThePillar(p: nat, q: nat)
    requires p < |PillarTitles| && q < |PillarTitles|
    ensures KeyServices(p) == KeyServices(q) ==> p == q
  {
    ExactlyOneKeyServicesLine(p);
    ExactlyOneKeyServicesLine(q);
    if KeyServices(p) == KeyServices(q) {
      // The lines start with distinct letters.
      assert KeyServiceLines[p][0] == KeyServiceLines[q][0];
    }
  }
}
