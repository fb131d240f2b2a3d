/**
 * The service catalogue: twelve security services, the search box and
 * category buttons that filter them, and the dispatch from a service id to
 * its micro-lab.
 */
module Services {
  import opened Text

  datatype Category = Identity | Infrastructure | Detection | Data | Compliance

  /** The category as the catalogue and the category buttons spell it. */
  function CategoryName(c: Category): string {
    match c
    case Identity => "Identity"
    case Infrastructure => "Infrastructure"
    case Detection => "Detection"
    case Data => "Data"
    case Compliance => "Compliance"
  }

  /** The category buttons, in display order; "All" selects every category. */
  const CategoryButtons: seq<string> := ["All", "Identity", "Infrastructure", "Detection", "Data", "Compliance"]

  /** The buttons are "All" followed by each category's name exactly once. */
  lemma CategoryButtonsCoverCategories()
    ensures |CategoryButtons| == 6 && CategoryButtons[0] == "All"
    ensures forall c: Category :: CategoryName(c) in CategoryButtons[1..]
    ensures forall i, j :: 0 <= i < j < |CategoryButtons| ==> CategoryButtons[i] != CategoryButtons[j]
  {
  }

  /** ServiceDef, without the icon and the lab's display texts. */
  datatype ServiceDef = ServiceDef(id: string, name: string, category: Category, desc: string)

  // The descriptions, which the search box also matches.
  const IamDesc: string := "Identity and Access Management. The control plane for AWS. It manages Who (Authentication) can do What (Authorization) on Which resources."
  const CognitoDesc: string := "Customer Identity & Access Management (CIAM). Handles sign-up, sign-in, and federation for your web/mobile apps."
  const KmsDesc: string := "Key Management Service. Creates and controls the cryptographic keys used to encrypt your data across AWS."
  const SecretsDesc: string := "Securely encrypts, stores, and rotates credentials for databases and other services."
  const WafDesc: string := "Web Application Firewall. Protects against common web exploits like SQL Injection and Cross-Site Scripting (XSS)."
  const ShieldDesc: string := "Managed DDoS protection. Standard is free; Advanced offers cost protection and 24/7 support team access."
  const GuardDutyDesc: string := "Intelligent threat detection service that continuously monitors for malicious activity and unauthorized behavior."
  const InspectorDesc: string := "Automated vulnerability management service that continually scans AWS workloads for software vulnerabilities (CVEs)."
  const MacieDesc: string := "Data security service that uses machine learning to discover and protect sensitive data (PII) in AWS S3."
  const HubDesc: string := "Cloud security posture management (CSPM) service that performs security best practice checks and aggregates alerts."
  const NetworkFirewallDesc: string := "Managed stateful network firewall and intrusion detection/prevention service (IDS/IPS) for your VPC."
  const ArtifactDesc: string := "Central resource for compliance-related information. Provides access to AWS's security and compliance reports."

  function Catalogue(): seq<ServiceDef> {
    [ ServiceDef("iam", "IAM", Identity, IamDesc),
      ServiceDef("cognito", "Amazon Cognito", Identity, CognitoDesc),
      ServiceDef("kms", "AWS KMS", Data, KmsDesc),
      ServiceDef("secrets", "Secrets Manager", Data, SecretsDesc),
      ServiceDef("waf", "AWS WAF", Infrastructure, WafDesc),
      ServiceDef("shield", "AWS Shield", Infrastructure, ShieldDesc),
      ServiceDef("guardduty", "GuardDuty", Detection, GuardDutyDesc),
      ServiceDef("inspector", "Amazon Inspector", Detection, InspectorDesc),
      ServiceDef("macie", "Amazon Macie", Data, MacieDesc),
      ServiceDef("hub", "Security Hub", Compliance, HubDesc),
      ServiceDef("netfw", "Network Firewall", Infrastructure, NetworkFirewallDesc),
      ServiceDef("artifact", "AWS Artifact", Compliance, ArtifactDesc)
    ]
  }

  /** The ids of the services, in order. */
  function Ids(services: seq<ServiceDef>): seq<string> {
    seq(|services|, i requires 0 <= i < |services| => services[i].id)
  }

  /** The ids of the twelve catalogue entries, in catalogue order. */
  const CatalogueIdList: seq<string> :=
    ["iam", "cognito", "kms", "secrets", "waf", "shield", "guardduty", "inspector", "macie", "hub", "netfw", "artifact"]

  /** The catalogue has twelve entries with these ids, in this order. */
  lemma CatalogueIds()
    ensures Ids(Catalogue()) == CatalogueIdList
  {
    var c := Catalogue();
    forall i | 0 <= i < 12 ensures c[i].id == CatalogueIdList[i] {
    }
  }

  /** The search box matches the name or the description, ignoring case; the category must be selected. */
  predicate Matches(s: ServiceDef, filter: string, selectedCategory: string) {
    (Includes(Lower(s.name), Lower(filter)) || Includes(Lower(s.desc), Lower(filter)))
    && (selectedCategory == "All" || CategoryName(s.category) == selectedCategory)
  }

  /** `a` is `b` with some entries dropped and the rest in their original order. */
  predicate Subsequence<T(==)>(a: seq<T>, b: seq<T>)
    decreases |b|
  {
    a == [] || (b != [] && ((a[0] == b[0] && Subsequence(a[1..], b[1..])) || Subsequence(a, b[1..])))
  }

  /** `filteredServices`: the services that match, in catalogue order. */
  function Filtered(services: seq<ServiceDef>, filter: string, selectedCategory: string): (r: seq<ServiceDef>)
    ensures forall s :: s in r <==> s in services && Matches(s, filter, selectedCategory)
    ensures Subsequence(r, services)
    ensures forall s :: multiset(r)[s] == if Matches(s, filter, selectedCategory) then multiset(services)[s] else 0
  {
    assert services == [] || services == [services[0]] + services[1..];
    if services == [] then []
    else if Matches(services[0], filter, selectedCategory) then
      [services[0]] + Filtered(services[1..], filter, selectedCategory)
    else Filtered(services[1..], filter, selectedCategory)
  }

  /** When every service matches, nothing is dropped. */
  lemma {:induction false} FilteredKeepsAllMatching(services: seq<ServiceDef>, filter: string, selectedCategory: string)
    requires forall i :: 0 <= i < |services| ==> Matches(services[i], filter, selectedCategory)
    ensures Filtered(services, filter, selectedCategory) == services
  {
    if services != [] {
      FilteredKeepsAllMatching(services[1..], filter, selectedCategory);
    }
  }

  /** The initial view (empty search, "All") shows the whole twelve-entry catalogue. */
  lemma InitialViewShowsCatalogue()
    ensures Filtered(Catalogue(), "", "All") == Catalogue()
    ensures |Filtered(Catalogue(), "", "All")| == 12
  {
    forall i | 0 <= i < |Catalogue()|
      ensures Matches(Catalogue()[i], "", "All")
    {
      IncludesEmpty(Lower(Catalogue()[i].name));
    }
    FilteredKeepsAllMatching(Catalogue(), "", "All");
  }

  /** A category button with an empty search shows exactly that category's services, in order. */
  lemma {:induction false} CategoryOnly(services: seq<ServiceDef>, c: Category)
    ensures forall s :: s in Filtered(services, "", CategoryName(c)) <==> s in services && s.category == c
    ensures Subsequence(Filtered(services, "", CategoryName(c)), services)
  {
    forall s | s in services
      ensures Matches(s, "", CategoryName(c)) <==> s.category == c
    {
      IncludesEmpty(Lower(s.name));
      CategoryNameInjective(s.category, c);
    }
  }

  lemma CategoryNameInjective(a: Category, b: Category)
    ensures CategoryName(a) == CategoryName(b) <==> a == b
  {
  }

  /** The micro-lab components. */
  datatype Lab =
    | IamLab | KmsLab | WafLab | SecretsLab | GuardDutyLab | InspectorLab | MacieLab
    | ShieldLab | CognitoLab | SecurityHubLab | NetworkFirewallLab | ArtifactLab
    | UnderConstruction

  /** `LabController`: the switch on the service id. */
  function LabFor(serviceId: string): Lab {
    if serviceId == "iam" then IamLab
    else if serviceId == "kms" then KmsLab
    else if serviceId == "waf" then WafLab
    else if serviceId == "secrets" then SecretsLab
    else if serviceId == "guardduty" then GuardDutyLab
    else if serviceId == "inspector" then InspectorLab
    else if serviceId == "macie" then MacieLab
    else if serviceId == "shield" then ShieldLab
    else if serviceId == "cognito" then CognitoLab
    else if serviceId == "hub" then SecurityHubLab
    else if serviceId == "netfw" then NetworkFirewallLab
    else if serviceId == "artifact" then ArtifactLab
    else UnderConstruction
  }

  /** The service id each lab is dispatched from. */
  function LabId(lab: Lab): string {
    match lab
    case IamLab => "iam"
    case KmsLab => "kms"
    case WafLab => "waf"
    case SecretsLab => "secrets"
    case GuardDutyLab => "guardduty"
    case InspectorLab => "inspector"
    case MacieLab => "macie"
    case ShieldLab => "shield"
    case CognitoLab => "cognito"
    case SecurityHubLab => "hub"
    case NetworkFirewallLab => "netfw"
    case ArtifactLab => "artifact"
    case UnderConstruction => ""
  }

  /** No two ids share a lab: a dedicated lab determines the id that selected it. */
  lemma DispatchInjective(serviceId: string)
    ensures LabFor(serviceId) != UnderConstruction ==> LabId(LabFor(serviceId)) == serviceId
  {
  }

  /** Each catalogued id is dispatched to a dedicated lab. */
  lemma CataloguedIdsHaveLabs(serviceId: string)
    requires serviceId in CatalogueIdList
    ensures LabFor(serviceId) != UnderConstruction
  {
  }

  /** Only an id outside the catalogue reaches the "Lab Under Construction" default. */
  lemma UnderConstructionIffUncatalogued(serviceId: string)
    ensures LabFor(serviceId) == UnderConstruction <==> serviceId !in CatalogueIdList
  {
    if serviceId in CatalogueIdList {
      CataloguedIdsHaveLabs(serviceId);
    }
  }
}
