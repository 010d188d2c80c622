/** From orphan ARNs to Terraform addresses, for import before a teardown: the two tables, the plan for one
    ARN, and the plan for all with collisions resolved. */
module Adoption {
  import opened Options
  import opened Arns

  // ---------------------------------------------------------------- addresses

  datatype Component = Network | Alb | Api | Web | Worker | Rds | EcsCluster | Observability | Eks | Queue | Results

  datatype Kind =
    | Vpc | InternetGateway | RouteTable | SecurityGroup | DefaultSecurityGroup | ClusterEcs | ServiceEcs
    | LoadBalancer | TargetGroup | DbInstance | DbSubnetGroup | LogGroup | Secret
    | Role | RolePolicyAttachment | RolePolicy | ClusterEks | NodeGroup | OidcProvider | QueueSqs

  datatype Name =
    | This | PublicTable | AlbGroup | RdsGroup | App | WebGroup | Db | Task | Execution
    | Cluster | Node | ApiRole | WorkerRole | Controller
    | Items | DeadLetter | ExecutionManaged | ApiReadDbSecret | ApiPublishItems | WorkerReadDbSecret | WorkerConsumeItems
    | WorkerNodePolicy | CniPolicy | RegistryReadOnly

  /** `module.m.kind.name`, or a resource of the environment itself. */
  datatype Address = In(m: Component, kind: Kind, name: Name) | Root(kind: Kind, name: Name)

  // ---------------------------------------------------------------- rules

  datatype NameFrom = FromTail | FromElb | FromEcsService | FromLogGroup | FromNodeGroup | FromTag

  datatype ImportAs = ByTail | ByArn | ByNodeGroup | ByUrl

  /** What distinguishes the resources of one kind in their names. */
  datatype Key =
    | AlbSgKey | ApiSgKey | WebSgKey | WorkerSgKey | RdsSgKey | DefaultSgRevokedKey | ApiKey | WebKey
    | WorkerKey | ApiEcsTaskKey | ApiEcsExecutionKey | WebEcsTaskKey | WebEcsExecutionKey | WorkerEcsTaskKey
    | WorkerEcsExecutionKey | EksClusterKey | EksNodeKey | ApiIrsaKey | WorkerIrsaKey | AlbControllerKey
    | ItemsKey | ItemsDlqKey | ResultsKey | ResultsDlqKey | TgKey | VpcKey | IgwKey | PublicRtKey | ClusterKey
    | AlbKey | DbKey | DbSubnetGroupKey | AppKey | DbCredentialsKey | EksKey | NodesKey

  function TextOf(key: Key): string {
    match key
    case AlbSgKey => "alb-sg"
    case ApiSgKey => "api-sg"
    case WebSgKey => "web-sg"
    case WorkerSgKey => "worker-sg"
    case RdsSgKey => "rds-sg"
    case DefaultSgRevokedKey => "default-sg-revoked"
    case ApiKey => "api"
    case WebKey => "web"
    case WorkerKey => "worker"
    case ApiEcsTaskKey => "api-ecs-task"
    case ApiEcsExecutionKey => "api-ecs-execution"
    case WebEcsTaskKey => "web-ecs-task"
    case WebEcsExecutionKey => "web-ecs-execution"
    case WorkerEcsTaskKey => "worker-ecs-task"
    case WorkerEcsExecutionKey => "worker-ecs-execution"
    case EksClusterKey => "eks-cluster"
    case EksNodeKey => "eks-node"
    case ApiIrsaKey => "api-irsa"
    case WorkerIrsaKey => "worker-irsa"
    case AlbControllerKey => "alb-controller"
    case ItemsKey => "items"
    case ItemsDlqKey => "items-dlq"
    case ResultsKey => "results"
    case ResultsDlqKey => "results-dlq"
    case TgKey => "tg"
    case VpcKey => "vpc"
    case IgwKey => "igw"
    case PublicRtKey => "public-rt"
    case ClusterKey => "cluster"
    case AlbKey => "alb"
    case DbKey => "db"
    case DbSubnetGroupKey => "db-subnet-group"
    case AppKey => "app"
    case DbCredentialsKey => "db-credentials"
    case EksKey => "eks"
    case NodesKey => "nodes"
  }

  datatype Rule = Rule(addresses: seq<(Key, Address)>, importAs: ImportAs, nameFrom: NameFrom)

  function SecurityGroups(): seq<(Key, Address)> {
    [(AlbSgKey, In(Alb, SecurityGroup, AlbGroup)), (ApiSgKey, In(Api, SecurityGroup, This)),
     (WebSgKey, In(Web, SecurityGroup, This)),
    (WorkerSgKey, In(Worker, SecurityGroup, This)), (RdsSgKey, In(Rds, SecurityGroup, RdsGroup)),
    (DefaultSgRevokedKey, In(Network, DefaultSecurityGroup, This))]
  }

  function Services(): seq<(Key, Address)> {
    [(ApiKey, In(Api, ServiceEcs, This)), (WebKey, In(Web, ServiceEcs, This)),
     (WorkerKey, In(Worker, ServiceEcs, This))]
  }

  function Roles(): seq<(Key, Address)> {
    [(ApiEcsTaskKey, In(Api, Role, Task)), (ApiEcsExecutionKey, In(Api, Role, Execution)),
    (WebEcsTaskKey, In(Web, Role, Task)), (WebEcsExecutionKey, In(Web, Role, Execution)),
    (WorkerEcsTaskKey, In(Worker, Role, Task)), (WorkerEcsExecutionKey, In(Worker, Role, Execution)),
    (EksClusterKey, In(Eks, Role, Cluster)), (EksNodeKey, In(Eks, Role, Node)),
    (ApiIrsaKey, In(Eks, Role, ApiRole)), (WorkerIrsaKey, In(Eks, Role, WorkerRole)), (AlbControllerKey, In(Eks, Role, Controller))]
  }

  function Queues(): seq<(Key, Address)> {
    [(ItemsKey, In(Queue, QueueSqs, Items)), (ItemsDlqKey, In(Queue, QueueSqs, DeadLetter)),
    (ResultsKey, In(Results, QueueSqs, Items)), (ResultsDlqKey, In(Results, QueueSqs, DeadLetter))]
  }

  datatype RuleKind =
    | IamRole | Ec2Vpc | Ec2Gateway | Ec2RouteTable | Ec2SecurityGroup | EcsClusterRule | EcsServiceRule
    | ElbLoadBalancer | ElbTargetGroup
    | RdsDb | RdsSubnetGroup | LogsLogGroup | SecretsSecret | EksClusterRule | EksNodeGroup | IamOidcProvider | SqsQueue

  /** The keys of `RULES`. */
  function TypeText(kind: RuleKind): string {
    match kind
    case IamRole => "iam:role"
    case Ec2Vpc => "ec2:vpc"
    case Ec2Gateway => "ec2:internet-gateway"
    case Ec2RouteTable => "ec2:route-table"
    case Ec2SecurityGroup => "ec2:security-group"
    case EcsClusterRule => "ecs:cluster"
    case EcsServiceRule => "ecs:service"
    case ElbLoadBalancer => "elasticloadbalancing:loadbalancer"
    case ElbTargetGroup => "elasticloadbalancing:targetgroup"
    case RdsDb => "rds:db"
    case RdsSubnetGroup => "rds:subgrp"
    case LogsLogGroup => "logs:log-group"
    case SecretsSecret => "secretsmanager:secret"
    case EksClusterRule => "eks:cluster"
    case EksNodeGroup => "eks:nodegroup"
    case IamOidcProvider => "iam:oidc-provider"
    case SqsQueue => "sqs:queue"
  }

  function RuleKindOf(text: string): Option<RuleKind> {
    if text == TypeText(IamRole) then Some(IamRole)
    else if text == TypeText(Ec2Vpc) then Some(Ec2Vpc)
    else if text == TypeText(Ec2Gateway) then Some(Ec2Gateway)
    else if text == TypeText(Ec2RouteTable) then Some(Ec2RouteTable)
    else if text == TypeText(Ec2SecurityGroup) then Some(Ec2SecurityGroup)
    else if text == TypeText(EcsClusterRule) then Some(EcsClusterRule)
    else if text == TypeText(EcsServiceRule) then Some(EcsServiceRule)
    else if text == TypeText(ElbLoadBalancer) then Some(ElbLoadBalancer)
    else if text == TypeText(ElbTargetGroup) then Some(ElbTargetGroup)
    else if text == TypeText(RdsDb) then Some(RdsDb)
    else if text == TypeText(RdsSubnetGroup) then Some(RdsSubnetGroup)
    else if text == TypeText(LogsLogGroup) then Some(LogsLogGroup)
    else if text == TypeText(SecretsSecret) then Some(SecretsSecret)
    else if text == TypeText(EksClusterRule) then Some(EksClusterRule)
    else if text == TypeText(EksNodeGroup) then Some(EksNodeGroup)
    else if text == TypeText(IamOidcProvider) then Some(IamOidcProvider)
    else if text == TypeText(SqsQueue) then Some(SqsQueue)
    else None
  }

  function Only(key: Key, address: Address): seq<(Key, Address)> { [(key, address)] }

  function TargetGroups(): seq<(Key, Address)> {
    [(TgKey, In(Alb, TargetGroup, App)), (WebKey, In(Alb, TargetGroup, WebGroup))]
  }

  /** The values of `RULES`. */
  function RuleOf(kind: RuleKind): Rule {
    match kind
    case IamRole => Rule(Roles(), ByTail, FromTail)
    case Ec2Vpc => Rule(Only(VpcKey, In(Network, Vpc, This)), ByTail, FromTag)
    case Ec2Gateway => Rule(Only(IgwKey, In(Network, InternetGateway, This)), ByTail, FromTag)
    case Ec2RouteTable => Rule(Only(PublicRtKey, In(Network, RouteTable, PublicTable)), ByTail, FromTag)
    case Ec2SecurityGroup => Rule(SecurityGroups(), ByTail, FromTag)
    case EcsClusterRule => Rule(Only(ClusterKey, In(EcsCluster, ClusterEcs, This)), ByTail, FromTail)
    case EcsServiceRule => Rule(Services(), ByTail, FromEcsService)
    case ElbLoadBalancer => Rule(Only(AlbKey, In(Alb, LoadBalancer, This)), ByArn, FromElb)
    case ElbTargetGroup => Rule(TargetGroups(), ByArn, FromElb)
    case RdsDb => Rule(Only(DbKey, In(Rds, DbInstance, This)), ByTail, FromTail)
    case RdsSubnetGroup => Rule(Only(DbSubnetGroupKey, In(Rds, DbSubnetGroup, This)), ByTail, FromTail)
    case LogsLogGroup => Rule(Only(AppKey, In(Observability, LogGroup, App)), ByTail, FromLogGroup)
    case SecretsSecret => Rule(Only(DbCredentialsKey, In(Rds, Secret, Db)), ByArn, FromTag)
    case EksClusterRule => Rule(Only(EksKey, In(Eks, ClusterEks, This)), ByTail, FromTail)
    case EksNodeGroup => Rule(Only(NodesKey, In(Eks, NodeGroup, This)), ByNodeGroup, FromNodeGroup)
    case IamOidcProvider => Rule(Only(EksKey, In(Eks, OidcProvider, This)), ByArn, FromTag)
    case SqsQueue => Rule(Queues(), ByUrl, FromTail)
  }

  function Lookup(addresses: seq<(Key, Address)>, discriminator: string): (r: Option<Address>)
    ensures r.Some? ==> exists k ::
                          0 <= k < |addresses| && addresses[k].1 == r.value && TextOf(addresses[k].0) == discriminator
  {
    if addresses == [] then None
    else if TextOf(addresses[0].0) == discriminator then Some(addresses[0].1)
    else Lookup(addresses[1..], discriminator)
  }

  // ---------------------------------------------------------------- names

  function RStrip(s: string, c: char): string {
    if s != "" && s[|s| - 1] == c then RStrip(s[..|s| - 1], c) else s
  }

  /** The resource's name as its kind spells it; none where the code raises. */
  function NameOf(from: NameFrom, arn: Arn, tag: string): Option<string> {
    var parts := Split(arn.tail, '/', |arn.tail|);
    match from
    case FromTag => Some(tag)
    case FromTail => Some(arn.tail)
    case FromElb => if parts[0] != "app" then Some(parts[0]) else if |parts| > 1 then Some(parts[1]) else None
    case FromEcsService => Some(parts[|parts| - 1])
    case FromLogGroup => Some(AfterLast(RStrip(arn.tail, '/'), '/'))
    case FromNodeGroup => Some(if |parts| > 1 then parts[1] else "")
  }

  /** How Terraform imports it. */
  function ImportId(how: ImportAs, arn: Arn): string {
    match how
    case ByTail => arn.tail
    case ByArn => arn.raw
    case ByNodeGroup =>
      var parts := Split(arn.tail, '/', |arn.tail|);
      if |parts| > 1 then parts[0] + ":" + parts[1] else ""
    case ByUrl =>
      var parts := Split(arn.raw, ':', |arn.raw|);
      if |parts| > 4 then "https://sqs." + parts[3] + ".amazonaws.com/" + parts[4] + "/" + arn.tail else ""
  }

  /** `discriminator`: what is left after the environment's prefix. */
  function Discriminator(name: string, prefix: string): string {
    var head := prefix + "-";
    if head <= name then name[|head|..] else name
  }

  // ---------------------------------------------------------------- one orphan

  datatype Reason = Indexed | NoRule | NoNameTag | UnknownName(name: string) | Duplicate(address: Address)

  datatype Verdict = Adopt(address: Address, importId: string) | Unadoptable(reason: Reason) | Raises

  /** `plan_one`; a missing Name tag is the empty string. */
  function PlanOne(raw: string, tag: string, prefix: string): Verdict {
    var arn := Parse(raw);
    var kind := arn.service + ":" + arn.kind;
    if kind == "ec2:subnet" then Unadoptable(Indexed)
    else
      var known := RuleKindOf(kind);
      if known.None? then Unadoptable(NoRule)
      else
        var rule := RuleOf(known.value);
        if rule.nameFrom == FromTag && tag == "" then Unadoptable(NoNameTag)
        else
          var name := NameOf(rule.nameFrom, arn, tag);
          if name.None? then Raises
          else
            var address := Lookup(rule.addresses, Discriminator(name.value, prefix));
            if address.None? then Unadoptable(UnknownName(name.value))
            else Adopt(address.value, ImportId(rule.importAs, arn))
  }

  /** A load balancer or a target group whose resource name is nothing but `app`: the name is looked
      for in a second part that is not there. */
  predicate Unnamable(raw: string) {
    var arn := Parse(raw);
    var kind := arn.service + ":" + arn.kind;
    (kind == "elasticloadbalancing:loadbalancer" || kind == "elasticloadbalancing:targetgroup") && arn.tail == "app"
  }

  lemma NamesFail(from: NameFrom, arn: Arn, tag: string)
    ensures NameOf(from, arn, tag).None? <==> from == FromElb && arn.tail == "app"
  {
    var parts := Split(arn.tail, '/', |arn.tail|);
    if arn.tail == "app" { SplitNone(arn.tail, '/', 3); }
    if |parts| == 1 { SplitWhole(arn.tail, '/', |arn.tail|); }
  }

  lemma ElbRules(kind: RuleKind)
    ensures RuleOf(kind).nameFrom == FromElb <==> kind == ElbLoadBalancer || kind == ElbTargetGroup
  {
    hide Only, Roles, SecurityGroups, Services, Queues, TargetGroups;
  }

  lemma ElbKinds(kind: string)
    ensures RuleKindOf(kind) == Some(ElbLoadBalancer) <==> kind == "elasticloadbalancing:loadbalancer"
    ensures RuleKindOf(kind) == Some(ElbTargetGroup) <==> kind == "elasticloadbalancing:targetgroup"
  {
    var balancer, group := "elasticloadbalancing:loadbalancer", "elasticloadbalancing:targetgroup";
    assert |balancer| == 33 && |group| == 32;
  }

  lemma OnlyBalancersAreElb(kind: string)
    ensures RuleKindOf(kind).Some? && RuleOf(RuleKindOf(kind).value).nameFrom == FromElb <==>
            kind == "elasticloadbalancing:loadbalancer" || kind == "elasticloadbalancing:targetgroup"
  {
    hide RuleOf, RuleKindOf;
    ElbKinds(kind);
    if RuleKindOf(kind).Some? { ElbRules(RuleKindOf(kind).value); }
  }

  /** Planning one orphan raises exactly on those. */
  lemma RaisesExactly(raw: string, tag: string, prefix: string)
    ensures PlanOne(raw, tag, prefix) == Raises <==> Unnamable(raw)
  {
    hide Lookup, Discriminator, ImportId, RuleOf, RuleKindOf, NameOf, Parse;
    var arn := Parse(raw);
    var kind := arn.service + ":" + arn.kind;
    OnlyBalancersAreElb(kind);
    assert kind == "ec2:subnet" ==> !Unnamable(raw);
    if RuleKindOf(kind).Some? { NamesFail(RuleOf(RuleKindOf(kind).value).nameFrom, arn, tag); }
  }

  /** One that does, and one that ends the same way and does not. */
  lemma AnUnnamableBalancer(region: string, account: string)
    requires ':' !in region && ':' !in account
    ensures Unnamable(Written("aws", "elasticloadbalancing", region, account, "loadbalancer" + ['/'] + "app"))
    ensures !Unnamable(Written("aws", "elasticloadbalancing", region, account, "loadbalancer" + ['/'] + "x/app"))
  {
    hide Written, Parse;
    ParseReadsBack("aws", "elasticloadbalancing", region, account, "loadbalancer", '/', "app");
    ParseReadsBack("aws", "elasticloadbalancing", region, account, "loadbalancer", '/', "x/app");
    assert "elasticloadbalancing" + ":" + "loadbalancer" == "elasticloadbalancing:loadbalancer";
    assert |"x/app"| != |"app"|;
  }

  // ---------------------------------------------------------------- the plan

  function TagOf(tags: map<string, string>, arn: string): string {
    if arn in tags then tags[arn] else ""
  }

  function VerdictsOf(arns: seq<string>, tags: map<string, string>, prefix: string): (r: seq<Verdict>)
    ensures |r| == |arns| && forall k | 0 <= k < |r| :: r[k] == PlanOne(arns[k], TagOf(tags, arns[k]), prefix)
  {
    seq(|arns|, k requires 0 <= k < |arns| => PlanOne(arns[k], TagOf(tags, arns[k]), prefix))
  }

  predicate Claims(vs: seq<Verdict>, k: int, address: Address) {
    0 <= k < |vs| && vs[k].Adopt? && vs[k].address == address
  }

  predicate Contested(vs: seq<Verdict>, address: Address) {
    exists j, k :: 0 <= j < k < |vs| && Claims(vs, j, address) && Claims(vs, k, address)
  }

  /** What becomes of one verdict once all are known: an address claimed twice goes to neither. */
  function Settled(vs: seq<Verdict>, k: nat): Verdict
    requires k < |vs|
  {
    if vs[k].Adopt? && Contested(vs, vs[k].address) then Unadoptable(Duplicate(vs[k].address)) else vs[k]
  }

  function AllSettled(vs: seq<Verdict>): (r: seq<Verdict>)
    ensures |r| == |vs| && forall k | 0 <= k < |r| :: r[k] == Settled(vs, k)
  {
    seq(|vs|, k requires 0 <= k < |vs| => Settled(vs, k))
  }

  datatype Import = Import(arn: string, address: Address, importId: string, dependentOf: Option<Address>)

  function Parents(arns: seq<string>, vs: seq<Verdict>): seq<Import>
    requires |arns| == |vs|
  {
    if vs == [] then []
    else
      var n := |vs| - 1;
      Parents(arns[..n], vs[..n]) + if vs[n].Adopt? then [Import(arns[n], vs[n].address, vs[n].importId, None)] else []
  }

  function Left(arns: seq<string>, vs: seq<Verdict>): seq<(string, Reason)>
    requires |arns| == |vs|
  {
    if vs == [] then []
    else
      var n := |vs| - 1;
      Left(arns[..n], vs[..n]) + if vs[n].Unadoptable? then [(arns[n], vs[n].reason)] else []
  }

  // ---------------------------------------------------------------- dependents

  datatype AwsPolicy = EcsTaskExecution | EksClusterPolicy | EksWorkerNode | EksCni | RegistryRead

  function PolicyArn(p: AwsPolicy): string {
    "arn:aws:iam::aws:policy/" +
    match p
    case EcsTaskExecution => "service-role/AmazonECSTaskExecutionRolePolicy"
    case EksClusterPolicy => "AmazonEKSClusterPolicy"
    case EksWorkerNode => "AmazonEKSWorkerNodePolicy"
    case EksCni => "AmazonEKS_CNI_Policy"
    case RegistryRead => "AmazonEC2ContainerRegistryReadOnly"
  }

  datatype InlinePolicy = ReadDbForApi | PublishItems | ReadDbForWorker | ConsumeItems | AlbController

  function SuffixOf(p: InlinePolicy): string {
    match p
    case ReadDbForApi => "api-read-db-secret"
    case PublishItems => "api-publish-items"
    case ReadDbForWorker => "worker-read-db-secret"
    case ConsumeItems => "worker-consume-items"
    case AlbController => "alb-controller"
  }

  datatype Policy = ManagedPolicy(policy: AwsPolicy) | Inline(suffix: InlinePolicy)

  /** `DEPENDENTS`: the policies that must come with a role. */
  function DependentsOf(parent: Address): seq<(Address, Policy)> {
    if !parent.In? || parent.kind != Role then []
    else match (parent.m, parent.name)
      case (Api, Execution) => [(In(Api, RolePolicyAttachment, ExecutionManaged), ManagedPolicy(EcsTaskExecution)),
                                (Root(RolePolicy, ApiReadDbSecret), Inline(ReadDbForApi))]
      case (Web, Execution) => [(In(Web, RolePolicyAttachment, ExecutionManaged), ManagedPolicy(EcsTaskExecution))]
      case (Api, Task) => [(Root(RolePolicy, ApiPublishItems), Inline(PublishItems))]
      case (Worker, Execution) => [(In(Worker, RolePolicyAttachment, ExecutionManaged), ManagedPolicy(EcsTaskExecution)),
                                   (Root(RolePolicy, WorkerReadDbSecret), Inline(ReadDbForWorker))]
      case (Worker, Task) => [(Root(RolePolicy, WorkerConsumeItems), Inline(ConsumeItems))]
      case (Eks, Cluster) => [(In(Eks, RolePolicyAttachment, Cluster), ManagedPolicy(EksClusterPolicy))]
      case (Eks, Node) => [(In(Eks, RolePolicyAttachment, WorkerNodePolicy), ManagedPolicy(EksWorkerNode)),
                           (In(Eks, RolePolicyAttachment, CniPolicy), ManagedPolicy(EksCni)),
                           (In(Eks, RolePolicyAttachment, RegistryReadOnly), ManagedPolicy(RegistryRead))]
      case (Eks, ApiRole) => [(In(Eks, RolePolicy, ApiPublishItems), Inline(PublishItems))]
      case (Eks, WorkerRole) => [(In(Eks, RolePolicy, WorkerConsumeItems), Inline(ConsumeItems))]
      case (Eks, Controller) => [(In(Eks, RolePolicy, Controller), Inline(AlbController))]
      case _ => []
  }

  function PolicyImportId(p: Policy, prefix: string, role: string): string {
    match p
    case ManagedPolicy(p) => role + "/" + PolicyArn(p)
    case Inline(suffix) => role + ":" + prefix + "-" + SuffixOf(suffix)
  }

  /** `dependents_of`. */
  function Accompanying(a: Import, prefix: string): (r: seq<Import>)
    ensures |r| == |DependentsOf(a.address)|
    ensures forall k | 0 <= k < |r| ::
              var (address, policy) := DependentsOf(a.address)[k];
              r[k] == Import(a.arn, address, PolicyImportId(policy, prefix, a.importId), Some(a.address))
  {
    var ds := DependentsOf(a.address);
    seq(|ds|, k requires 0 <= k < |ds| => Import(a.arn, ds[k].0, PolicyImportId(ds[k].1, prefix, a.importId), Some(a.address)))
  }

  function AllAccompanying(parents: seq<Import>, prefix: string): seq<Import> {
    if parents == [] then []
    else AllAccompanying(parents[..|parents| - 1], prefix) + Accompanying(parents[|parents| - 1], prefix)
  }

  // ---------------------------------------------------------------- no address twice

  predicate IsPolicy(a: Address) { a.kind == RolePolicy || a.kind == RolePolicyAttachment }

  predicate NamesNoPolicy(addresses: seq<(Key, Address)>) {
    forall k | 0 <= k < |addresses| :: !IsPolicy(addresses[k].1)
  }

  lemma TablesNameNoPolicy()
    ensures NamesNoPolicy(Roles()) && NamesNoPolicy(SecurityGroups()) && NamesNoPolicy(Services())
    ensures NamesNoPolicy(Queues())
    ensures NamesNoPolicy(TargetGroups())
  {
  }

  lemma OnlyNamesNoPolicy(key: Key, address: Address)
    ensures NamesNoPolicy(Only(key, address)) <==> !IsPolicy(address)
  {
    if NamesNoPolicy(Only(key, address)) { assert Only(key, address)[0].1 == address; }
  }

  lemma RulesNameNoPolicy(kind: RuleKind)
    ensures NamesNoPolicy(RuleOf(kind).addresses)
  {
    hide Roles, SecurityGroups, Services, Queues, TargetGroups, Only, NamesNoPolicy;
    TablesNameNoPolicy();
    match kind
    case Ec2Vpc => OnlyNamesNoPolicy(VpcKey, In(Network, Vpc, This));
    case Ec2Gateway => OnlyNamesNoPolicy(IgwKey, In(Network, InternetGateway, This));
    case Ec2RouteTable => OnlyNamesNoPolicy(PublicRtKey, In(Network, RouteTable, PublicTable));
    case EcsClusterRule => OnlyNamesNoPolicy(ClusterKey, In(EcsCluster, ClusterEcs, This));
    case ElbLoadBalancer => OnlyNamesNoPolicy(AlbKey, In(Alb, LoadBalancer, This));
    case RdsDb => OnlyNamesNoPolicy(DbKey, In(Rds, DbInstance, This));
    case RdsSubnetGroup => OnlyNamesNoPolicy(DbSubnetGroupKey, In(Rds, DbSubnetGroup, This));
    case LogsLogGroup => OnlyNamesNoPolicy(AppKey, In(Observability, LogGroup, App));
    case SecretsSecret => OnlyNamesNoPolicy(DbCredentialsKey, In(Rds, Secret, Db));
    case EksClusterRule => OnlyNamesNoPolicy(EksKey, In(Eks, ClusterEks, This));
    case EksNodeGroup => OnlyNamesNoPolicy(NodesKey, In(Eks, NodeGroup, This));
    case IamOidcProvider => OnlyNamesNoPolicy(EksKey, In(Eks, OidcProvider, This));
    case _ =>
  }

  /** The role a policy hangs off. */
  function RoleOf(d: Address): Address {
    match d
    case Root(_, ApiReadDbSecret) => In(Api, Role, Execution)
    case Root(_, ApiPublishItems) => In(Api, Role, Task)
    case Root(_, WorkerReadDbSecret) => In(Worker, Role, Execution)
    case Root(_, _) => In(Worker, Role, Task)
    case In(Eks, RolePolicyAttachment, Cluster) => In(Eks, Role, Cluster)
    case In(Eks, RolePolicyAttachment, _) => In(Eks, Role, Node)
    case In(Eks, RolePolicy, ApiPublishItems) => In(Eks, Role, ApiRole)
    case In(Eks, RolePolicy, WorkerConsumeItems) => In(Eks, Role, WorkerRole)
    case In(Eks, _, _) => In(Eks, Role, Controller)
    case In(m, _, _) => In(m, Role, Execution)
  }

  lemma DependentsAreOwn(parent: Address)
    ensures forall k | 0 <= k < |DependentsOf(parent)| ::
              IsPolicy(DependentsOf(parent)[k].0) && RoleOf(DependentsOf(parent)[k].0) == parent
    ensures forall j, k | 0 <= j < k < |DependentsOf(parent)| :: DependentsOf(parent)[j].0 != DependentsOf(parent)[k].0
  {
  }

  predicate NoAddressTwice(adopted: seq<Import>) {
    forall j, k | 0 <= j < k < |adopted| :: adopted[j].address != adopted[k].address
  }
}
