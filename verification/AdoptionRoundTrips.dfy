/** What an orphan of each kind is planned to: its ARN, written as AWS spells that kind, comes back as the
    address of its key, under the id Terraform imports that kind by. */
module AdoptionRoundTrips {
  import opened Options
  import opened Arns
  import opened Adoption
  import opened AdoptionTheorems

  // ---------------------------------------------------------------- names in paths

  lemma OnePartMore(s: string, c: char, limit: nat)
    requires limit > 0 && IndexOf(s, c) < |s|
    ensures var rest := Split(s[IndexOf(s, c) + 1..], c, limit - 1);
            var parts := Split(s, c, limit);
            parts[|parts| - 1] == rest[|rest| - 1]
  {
  }

  /** The last of the parts is the text after the last separator. */
  lemma {:induction false} LastPart(s: string, c: char, limit: nat)
    requires limit >= |s|
    ensures var parts := Split(s, c, limit); parts[|parts| - 1] == AfterLast(s, c)
    decreases |s|
  {
    hide Split, AfterLast;
    var i := IndexOf(s, c);
    if i == |s| {
      assert s[..i] == s;
      AfterLastNone(s, c);
      SplitNone(s, c, limit);
    } else {
      OnePartMore(s, c, limit);
      LastPart(s[i + 1..], c, limit - 1);
      AfterLastSkips(s[..i], c, s[i + 1..]);
      assert s == s[..i] + [c] + s[i + 1..];
    }
  }

  function Times(c: char, n: nat): string {
    if n == 0 then "" else Times(c, n - 1) + [c]
  }

  /** `rstrip`: the characters at the end are taken off, and no other. */
  lemma {:induction false} StripsTheEnd(s: string, c: char, n: nat)
    requires s != "" ==> s[|s| - 1] != c
    ensures RStrip(s + Times(c, n), c) == s
  {
    if n == 0 {
      assert s + Times(c, n) == s;
    } else {
      var all := s + Times(c, n);
      assert all[|all| - 1] == c && all[..|all| - 1] == s + Times(c, n - 1);
      StripsTheEnd(s, c, n - 1);
    }
  }

  // ---------------------------------------------------------------- keys

  /** Length, first and second letter. */
  function Mark(key: Key): (nat, char, char) {
    match key
    case AlbSgKey => (6, 'a', 'l')
    case ApiSgKey => (6, 'a', 'p')
    case WebSgKey => (6, 'w', 'e')
    case WorkerSgKey => (9, 'w', 'o')
    case RdsSgKey => (6, 'r', 'd')
    case DefaultSgRevokedKey => (18, 'd', 'e')
    case ApiKey => (3, 'a', 'p')
    case WebKey => (3, 'w', 'e')
    case WorkerKey => (6, 'w', 'o')
    case ItemsKey => (5, 'i', 't')
    case ItemsDlqKey => (9, 'i', 't')
    case ResultsKey => (7, 'r', 'e')
    case ResultsDlqKey => (11, 'r', 'e')
    case TgKey => (2, 't', 'g')
    case _ => (0, ' ', ' ')
  }

  lemma TextIsMarked(key: Key)
    ensures Mark(key).0 > 0 ==>
              |TextOf(key)| == Mark(key).0 && TextOf(key)[0] == Mark(key).1 && TextOf(key)[1] == Mark(key).2
  {
  }

  predicate Marked(addresses: seq<(Key, Address)>) {
    && (forall k | 0 <= k < |addresses| :: Mark(addresses[k].0).0 > 0)
    && (forall j, k | 0 <= j < k < |addresses| :: Mark(addresses[j].0) != Mark(addresses[k].0))
  }

  lemma GroupsAreMarked()
    ensures Marked(SecurityGroups())
  {
    assert |SecurityGroups()| == 6;
  }

  lemma ServiceMarks()
    ensures |Services()| == 3 && |TargetGroups()| == 2
    ensures Mark(Services()[0].0).0 == 3 && Mark(Services()[1].0) == (3, 'w', 'e') && Mark(Services()[2].0).0 == 6
    ensures Mark(Services()[0].0).1 == 'a' && Mark(TargetGroups()[0].0).0 == 2 && Mark(TargetGroups()[1].0).0 == 3
  {
  }

  lemma ServicesAreMarked()
    ensures Marked(Services()) && Marked(TargetGroups())
  {
    hide Services, TargetGroups, Mark;
    ServiceMarks();
  }

  lemma QueueMarks()
    ensures |Queues()| == 4
    ensures Mark(Queues()[0].0).0 == 5 && Mark(Queues()[1].0).0 == 9
    ensures Mark(Queues()[2].0).0 == 7 && Mark(Queues()[3].0).0 == 11
  {
  }

  lemma QueuesAreMarked()
    ensures Marked(Queues())
  {
    hide Queues, Mark;
    QueueMarks();
  }

  lemma MarkedAreDistinct(addresses: seq<(Key, Address)>)
    requires Marked(addresses)
    ensures DistinctKeys(addresses)
  {
    hide TextOf, Mark;
    forall j, k | 0 <= j < k < |addresses| ensures TextOf(addresses[j].0) != TextOf(addresses[k].0) {
      TextIsMarked(addresses[j].0);
      TextIsMarked(addresses[k].0);
    }
  }

  /** No kind uses a key twice. */
  lemma KeysAreDistinct(kind: RuleKind)
    ensures DistinctKeys(RuleOf(kind).addresses)
  {
    hide TextOf, Roles, SecurityGroups, Services, Queues, TargetGroups, DistinctKeys, Marked;
    GroupsAreMarked();
    ServicesAreMarked();
    QueuesAreMarked();
    match kind
    case IamRole => RoleKeysAreDistinct();
    case Ec2SecurityGroup => MarkedAreDistinct(SecurityGroups());
    case EcsServiceRule => MarkedAreDistinct(Services());
    case ElbTargetGroup => MarkedAreDistinct(TargetGroups());
    case SqsQueue => MarkedAreDistinct(Queues());
    case _ => OnlyIsDistinct(RuleOf(kind).addresses);
  }

  lemma OnlyIsDistinct(addresses: seq<(Key, Address)>)
    requires |addresses| == 1
    ensures DistinctKeys(addresses)
  {
  }

  /** The keys that are looked for in a path have no separator. */
  lemma KeysArePlain()
    ensures '/' !in TextOf(ApiKey) && '/' !in TextOf(WebKey) && '/' !in TextOf(WorkerKey)
    ensures '/' !in TextOf(AlbKey) && '/' !in TextOf(TgKey) && '/' !in TextOf(NodesKey) && '/' !in TextOf(AppKey)
  {
  }

  // ---------------------------------------------------------------- kinds

  /** How AWS writes each kind: its service, its resource type, and what stands between the type and the name. */
  function SpellingOf(kind: RuleKind): (string, string, char) {
    match kind
    case IamRole => ("iam", "role", '/')
    case Ec2Vpc => ("ec2", "vpc", '/')
    case Ec2Gateway => ("ec2", "internet-gateway", '/')
    case Ec2RouteTable => ("ec2", "route-table", '/')
    case Ec2SecurityGroup => ("ec2", "security-group", '/')
    case EcsClusterRule => ("ecs", "cluster", '/')
    case EcsServiceRule => ("ecs", "service", '/')
    case ElbLoadBalancer => ("elasticloadbalancing", "loadbalancer", '/')
    case ElbTargetGroup => ("elasticloadbalancing", "targetgroup", '/')
    case RdsDb => ("rds", "db", ':')
    case RdsSubnetGroup => ("rds", "subgrp", ':')
    case LogsLogGroup => ("logs", "log-group", ':')
    case SecretsSecret => ("secretsmanager", "secret", ':')
    case EksClusterRule => ("eks", "cluster", '/')
    case EksNodeGroup => ("eks", "nodegroup", '/')
    case IamOidcProvider => ("iam", "oidc-provider", '/')
    case SqsQueue => ("sqs", "queue", ':')
  }

  function KindText(kind: RuleKind): string {
    SpellingOf(kind).0 + ":" + SpellingOf(kind).1
  }

  lemma ReadsEc2()
    ensures RuleKindOf("ec2:vpc") == Some(Ec2Vpc) && RuleKindOf("ec2:internet-gateway") == Some(Ec2Gateway)
    ensures RuleKindOf("ec2:route-table") == Some(Ec2RouteTable)
    ensures RuleKindOf("ec2:security-group") == Some(Ec2SecurityGroup)
  {
  }

  lemma ReadsEcs()
    ensures RuleKindOf("ecs:cluster") == Some(EcsClusterRule) && RuleKindOf("ecs:service") == Some(EcsServiceRule)
  {
  }

  lemma ReadsElb()
    ensures RuleKindOf("elasticloadbalancing:loadbalancer") == Some(ElbLoadBalancer)
    ensures RuleKindOf("elasticloadbalancing:targetgroup") == Some(ElbTargetGroup)
  {
  }

  lemma ReadsRds()
    ensures RuleKindOf("rds:db") == Some(RdsDb) && RuleKindOf("rds:subgrp") == Some(RdsSubnetGroup)
    ensures RuleKindOf("logs:log-group") == Some(LogsLogGroup)
  {
  }

  lemma ReadsIam()
    ensures RuleKindOf("iam:role") == Some(IamRole) && RuleKindOf("iam:oidc-provider") == Some(IamOidcProvider)
    ensures RuleKindOf("secretsmanager:secret") == Some(SecretsSecret)
  {
  }

  lemma ReadsEks()
    ensures RuleKindOf("eks:cluster") == Some(EksClusterRule) && RuleKindOf("eks:nodegroup") == Some(EksNodeGroup)
    ensures RuleKindOf("sqs:queue") == Some(SqsQueue)
  {
  }

  lemma TextReads(kind: RuleKind)
    ensures RuleKindOf(TypeText(kind)) == Some(kind)
  {
    hide RuleKindOf;
    ReadsEc2();
    ReadsEcs();
    ReadsElb();
    ReadsRds();
    ReadsIam();
    ReadsEks();
  }

  lemma TypedEc2()
    ensures "ec2" + ":" + "vpc" == "ec2:vpc" && "ec2" + ":" + "internet-gateway" == "ec2:internet-gateway"
    ensures "ec2" + ":" + "route-table" == "ec2:route-table" && "ec2" + ":" + "security-group" == "ec2:security-group"
  {
  }

  lemma TypedEcs()
    ensures "ecs" + ":" + "cluster" == "ecs:cluster" && "ecs" + ":" + "service" == "ecs:service"
    ensures "eks" + ":" + "cluster" == "eks:cluster" && "eks" + ":" + "nodegroup" == "eks:nodegroup"
    ensures "sqs" + ":" + "queue" == "sqs:queue"
  {
  }

  lemma TypedElb()
    ensures "elasticloadbalancing" + ":" + "loadbalancer" == "elasticloadbalancing:loadbalancer"
    ensures "elasticloadbalancing" + ":" + "targetgroup" == "elasticloadbalancing:targetgroup"
  {
  }

  lemma TypedOthers()
    ensures "rds" + ":" + "db" == "rds:db" && "rds" + ":" + "subgrp" == "rds:subgrp"
    ensures "logs" + ":" + "log-group" == "logs:log-group" && "iam" + ":" + "role" == "iam:role"
    ensures "secretsmanager" + ":" + "secret" == "secretsmanager:secret"
    ensures "iam" + ":" + "oidc-provider" == "iam:oidc-provider"
  {
  }

  lemma KindIsTyped(kind: RuleKind)
    ensures KindText(kind) == TypeText(kind)
  {
    TypedEc2();
    TypedEcs();
    TypedElb();
    TypedOthers();
  }

  /** Each kind is found by the text AWS spells it with. */
  lemma KindComesBack(kind: RuleKind)
    ensures RuleKindOf(KindText(kind)) == Some(kind) && KindText(kind) != "ec2:subnet"
  {
    hide RuleKindOf, TypeText, KindText;
    TextReads(kind);
    KindIsTyped(kind);
    SubnetHasNoRule();
  }

  lemma SubnetHasNoRule()
    ensures RuleKindOf("ec2:subnet") == None
  {
  }

  lemma ServicesArePlain(kind: RuleKind)
    ensures ':' !in SpellingOf(kind).0
  {
  }

  lemma ResourcesHaveNoColon(kind: RuleKind)
    ensures ':' !in SpellingOf(kind).1
  {
  }

  lemma ResourcesHaveNoSlash(kind: RuleKind)
    ensures '/' !in SpellingOf(kind).1 && (SpellingOf(kind).2 == ':' || SpellingOf(kind).2 == '/')
  {
  }

  // ---------------------------------------------------------------- one orphan

  /** Where an ARN is from: its partition, its region and its account. */
  datatype Place = Place(partition: string, region: string, account: string)

  predicate Proper(at: Place) {
    ':' !in at.partition && ':' !in at.region && ':' !in at.account
  }

  /** The ARN of a resource of this kind, other than a queue. */
  function WrittenAs(kind: RuleKind, at: Place, name: string): string {
    var (service, resource, separator) := SpellingOf(kind);
    Written(at.partition, service, at.region, at.account, resource + [separator] + name)
  }

  lemma WrittenReads(kind: RuleKind, at: Place, name: string)
    requires Proper(at) && kind != SqsQueue
    ensures Parse(WrittenAs(kind, at, name)) ==
            Arn(SpellingOf(kind).0, SpellingOf(kind).1, name, WrittenAs(kind, at, name))
  {
    hide SpellingOf, Written, Parse;
    var (service, resource, separator) := SpellingOf(kind);
    ServicesArePlain(kind);
    ResourcesHaveNoColon(kind);
    ResourcesHaveNoSlash(kind);
    NotAQueue(kind);
    ParseReadsBack(at.partition, service, at.region, at.account, resource, separator, name);
  }

  lemma NotAQueue(kind: RuleKind)
    ensures SpellingOf(kind).0 == "sqs" <==> kind == SqsQueue
  {
  }

  /** An orphan of this kind whose name is its key's, behind the environment's prefix or as it is, goes to the key's
      address. */
  lemma PlannedByKey(kind: RuleKind, raw: string, tag: string, prefix: string, k: nat, name: string)
    requires k < |RuleOf(kind).addresses|
    requires Parse(raw).service + ":" + Parse(raw).kind == KindText(kind)
    requires RuleOf(kind).nameFrom == FromTag ==> tag != ""
    requires NameOf(RuleOf(kind).nameFrom, Parse(raw), tag) == Some(name)
    requires Discriminator(name, prefix) == TextOf(RuleOf(kind).addresses[k].0)
    ensures PlanOne(raw, tag, prefix) ==
            Adopt(RuleOf(kind).addresses[k].1, ImportId(RuleOf(kind).importAs, Parse(raw)))
  {
    hide RuleOf, RuleKindOf, Parse, NameOf, ImportId, Discriminator, Lookup, KindText, TextOf;
    KindComesBack(kind);
    KeysAreDistinct(kind);
    LookupFinds(RuleOf(kind).addresses, k);
  }

  /** Roles, ECS clusters, databases, subnet groups and EKS clusters: the ARN ends in the name, and the name is the
      import id. */
  lemma NamedComesBack(kind: RuleKind, k: nat, at: Place, prefix: string, tag: string)
    requires kind in {IamRole, EcsClusterRule, RdsDb, RdsSubnetGroup, EksClusterRule}
    requires Proper(at) && k < |RuleOf(kind).addresses|
    ensures var (key, address) := RuleOf(kind).addresses[k];
            var name := prefix + "-" + TextOf(key);
            PlanOne(WrittenAs(kind, at, name), tag, prefix) == Adopt(address, name)
  {
    hide TextOf, Roles, Only, Parse, WrittenAs, SpellingOf, Discriminator;
    var key := RuleOf(kind).addresses[k].0;
    var name := RoleName(prefix, key);
    WrittenReads(kind, at, name);
    DiscriminatorReads(prefix, key);
    PlannedByKey(kind, WrittenAs(kind, at, name), tag, prefix, k, name);
  }

  /** The kinds of EC2: the id says nothing, the Name tag names, and the id imports. */
  lemma TaggedComesBack(kind: RuleKind, k: nat, at: Place, prefix: string, id: string)
    requires kind in {Ec2Vpc, Ec2Gateway, Ec2RouteTable, Ec2SecurityGroup}
    requires Proper(at) && k < |RuleOf(kind).addresses|
    ensures var (key, address) := RuleOf(kind).addresses[k];
            PlanOne(WrittenAs(kind, at, id), prefix + "-" + TextOf(key), prefix) == Adopt(address, id)
  {
    hide TextOf, SecurityGroups, Only, Parse, WrittenAs, SpellingOf, Discriminator;
    var key := RuleOf(kind).addresses[k].0;
    var tag := RoleName(prefix, key);
    WrittenReads(kind, at, id);
    DiscriminatorReads(prefix, key);
    PlannedByKey(kind, WrittenAs(kind, at, id), tag, prefix, k, tag);
  }

  /** Secrets and OIDC providers: the Name tag names, and the whole ARN imports. */
  lemma TaggedArnComesBack(kind: RuleKind, at: Place, prefix: string, id: string)
    requires kind in {SecretsSecret, IamOidcProvider} && Proper(at)
    ensures var (key, address) := if kind == SecretsSecret then (DbCredentialsKey, In(Rds, Secret, Db))
                                  else (EksKey, In(Eks, OidcProvider, This));
            var raw := WrittenAs(kind, at, id);
            PlanOne(raw, prefix + "-" + TextOf(key), prefix) == Adopt(address, raw)
  {
    hide TextOf, Parse, WrittenAs, SpellingOf, Discriminator;
    var key := RuleOf(kind).addresses[0].0;
    var tag := RoleName(prefix, key);
    WrittenReads(kind, at, id);
    DiscriminatorReads(prefix, key);
    PlannedByKey(kind, WrittenAs(kind, at, id), tag, prefix, 0, tag);
  }

  lemma NameHasNoSlash(prefix: string, key: Key)
    requires '/' !in prefix && '/' !in TextOf(key)
    ensures '/' !in RoleName(prefix, key)
  {
    hide TextOf;
  }

  /** A service of ECS, under any cluster: named by its last part, imported by cluster and service. */
  lemma ServiceComesBack(k: nat, at: Place, cluster: string, prefix: string, tag: string)
    requires Proper(at) && '/' !in prefix && k < |Services()|
    ensures var (key, address) := Services()[k];
            var path := cluster + ['/'] + (prefix + "-" + TextOf(key));
            PlanOne(WrittenAs(EcsServiceRule, at, path), tag, prefix) == Adopt(address, path)
  {
    hide Services, TextOf;
    var service := RoleName(prefix, Services()[k].0);
    AnyServiceComesBack(k, at, cluster, cluster + ['/'] + service, prefix, tag);
  }

  /** The same in the short form, under none. */
  lemma BareServiceComesBack(k: nat, at: Place, prefix: string, tag: string)
    requires Proper(at) && '/' !in prefix && k < |Services()|
    ensures var (key, address) := Services()[k];
            var service := prefix + "-" + TextOf(key);
            PlanOne(WrittenAs(EcsServiceRule, at, service), tag, prefix) == Adopt(address, service)
  {
    hide Services, TextOf;
    AnyServiceComesBack(k, at, "", RoleName(prefix, Services()[k].0), prefix, tag);
  }

  lemma AnyServiceComesBack(k: nat, at: Place, cluster: string, path: string, prefix: string, tag: string)
    requires Proper(at) && '/' !in prefix && k < |Services()|
    requires var service := RoleName(prefix, Services()[k].0); path == service || path == cluster + ['/'] + service
    ensures PlanOne(WrittenAs(EcsServiceRule, at, path), tag, prefix) == Adopt(Services()[k].1, path)
  {
    ServicesAre(k);
    KeysArePlain();
    hide TextOf, Services, Parse, WrittenAs, SpellingOf, Discriminator, NameOf;
    var key := Services()[k].0;
    var service := RoleName(prefix, key);
    NameHasNoSlash(prefix, key);
    DiscriminatorReads(prefix, key);
    WrittenReads(EcsServiceRule, at, path);
    ServiceIsNamed(Parse(WrittenAs(EcsServiceRule, at, path)), cluster, service, tag);
    PlannedByKey(EcsServiceRule, WrittenAs(EcsServiceRule, at, path), tag, prefix, k, service);
  }

  lemma ServiceIsNamed(arn: Arn, cluster: string, service: string, tag: string)
    requires (arn.tail == cluster + ['/'] + service || arn.tail == service) && '/' !in service
    ensures NameOf(FromEcsService, arn, tag) == Some(service)
  {
    hide AfterLast, Split;
    AfterLastNone(service, '/');
    AfterLastSkips(cluster, '/', service);
    LastPart(arn.tail, '/', |arn.tail|);
  }

  lemma ServicesAre(k: nat)
    requires k < |Services()|
    ensures Services()[k].0 in {ApiKey, WebKey, WorkerKey}
  {
  }

  /** The parts of a path whose first two hold no separator. */
  lemma PathParts(first: string, second: string, rest: string)
    requires '/' !in first && '/' !in second
    ensures var path := first + ['/'] + (second + ['/'] + rest);
            var parts := Split(path, '/', |path|);
            |parts| > 2 && parts[0] == first && parts[1] == second
  {
    hide Split;
    var path := first + ['/'] + (second + ['/'] + rest);
    SplitOnce(first, '/', second + ['/'] + rest, |path|);
    SplitOnce(second, '/', rest, |path| - 1);
  }

  /** The load balancer: `app/<name>/<hash>`, imported by its ARN. */
  lemma BalancerComesBack(at: Place, prefix: string, hash: string, tag: string)
    requires Proper(at) && '/' !in prefix
    ensures var raw := WrittenAs(ElbLoadBalancer, at, "app" + ['/'] + (prefix + "-" + TextOf(AlbKey) + ['/'] + hash));
            PlanOne(raw, tag, prefix) == Adopt(In(Alb, LoadBalancer, This), raw)
  {
    KeysArePlain();
    hide TextOf, Parse, WrittenAs, SpellingOf, Discriminator, Split;
    var name := RoleName(prefix, AlbKey);
    NameHasNoSlash(prefix, AlbKey);
    DiscriminatorReads(prefix, AlbKey);
    PathParts("app", name, hash);
    var tail := "app" + ['/'] + (name + ['/'] + hash);
    WrittenReads(ElbLoadBalancer, at, tail);
    PlannedByKey(ElbLoadBalancer, WrittenAs(ElbLoadBalancer, at, tail), tag, prefix, 0, name);
  }

  lemma NotApp(prefix: string, key: Key)
    ensures RoleName(prefix, key) != "app"
  {
    hide TextOf;
    assert RoleName(prefix, key)[|prefix|] == '-';
    assert forall c | c in "app" :: c != '-';
  }

  /** A target group: `<name>/<hash>`, imported by its ARN. */
  lemma GroupComesBack(k: nat, at: Place, prefix: string, hash: string, tag: string)
    requires Proper(at) && '/' !in prefix && k < |TargetGroups()|
    ensures var (key, address) := TargetGroups()[k];
            var raw := WrittenAs(ElbTargetGroup, at, prefix + "-" + TextOf(key) + ['/'] + hash);
            PlanOne(raw, tag, prefix) == Adopt(address, raw)
  {
    TargetGroupsAre(k);
    KeysArePlain();
    hide TextOf, TargetGroups, Parse, WrittenAs, SpellingOf, Discriminator, NameOf;
    var key := TargetGroups()[k].0;
    var name := RoleName(prefix, key);
    NameHasNoSlash(prefix, key);
    NotApp(prefix, key);
    DiscriminatorReads(prefix, key);
    var tail := name + ['/'] + hash;
    WrittenReads(ElbTargetGroup, at, tail);
    GroupIsNamed(Parse(WrittenAs(ElbTargetGroup, at, tail)), name, hash, tag);
    PlannedByKey(ElbTargetGroup, WrittenAs(ElbTargetGroup, at, tail), tag, prefix, k, name);
  }

  lemma GroupIsNamed(arn: Arn, name: string, hash: string, tag: string)
    requires arn.tail == name + ['/'] + hash && '/' !in name && name != "app"
    ensures NameOf(FromElb, arn, tag) == Some(name)
  {
    SplitOnce(name, '/', hash, |arn.tail|);
    hide Split;
  }

  lemma TargetGroupsAre(k: nat)
    requires k < |TargetGroups()|
    ensures TargetGroups()[k].0 in {TgKey, WebKey}
  {
  }

  /** The node group: `<cluster>/<name>/<uuid>`, imported as `<cluster>:<name>`. */
  lemma NodeGroupComesBack(at: Place, cluster: string, prefix: string, uuid: string, tag: string)
    requires Proper(at) && '/' !in prefix && '/' !in cluster
    ensures var name := prefix + "-" + TextOf(NodesKey);
            PlanOne(WrittenAs(EksNodeGroup, at, cluster + ['/'] + (name + ['/'] + uuid)), tag, prefix) ==
            Adopt(In(Eks, NodeGroup, This), cluster + ":" + name)
  {
    KeysArePlain();
    hide TextOf, Parse, WrittenAs, SpellingOf, Discriminator, Split;
    var name := RoleName(prefix, NodesKey);
    NameHasNoSlash(prefix, NodesKey);
    DiscriminatorReads(prefix, NodesKey);
    PathParts(cluster, name, uuid);
    var tail := cluster + ['/'] + (name + ['/'] + uuid);
    WrittenReads(EksNodeGroup, at, tail);
    PlannedByKey(EksNodeGroup, WrittenAs(EksNodeGroup, at, tail), tag, prefix, 0, name);
  }

  /** The log group: a path that ends in `app`, behind any folders and before any slashes; the whole path imports. */
  lemma LogGroupComesBack(at: Place, folders: string, slashes: nat, prefix: string, tag: string)
    requires Proper(at)
    ensures var path := folders + ['/'] + "app" + Times('/', slashes);
            PlanOne(WrittenAs(LogsLogGroup, at, path), tag, prefix) == Adopt(In(Observability, LogGroup, App), path)
  {
    AppIsItself(prefix);
    hide TextOf, Parse, WrittenAs, SpellingOf, Discriminator, NameOf, Times;
    var path := folders + ['/'] + "app" + Times('/', slashes);
    WrittenReads(LogsLogGroup, at, path);
    LogGroupIsNamed(Parse(WrittenAs(LogsLogGroup, at, path)), folders, slashes, tag);
    PlannedByKey(LogsLogGroup, WrittenAs(LogsLogGroup, at, path), tag, prefix, 0, "app");
  }

  lemma LogGroupIsNamed(arn: Arn, folders: string, slashes: nat, tag: string)
    requires arn.tail == folders + ['/'] + "app" + Times('/', slashes)
    ensures NameOf(FromLogGroup, arn, tag) == Some("app")
  {
    hide Split, AfterLast, RStrip, Times;
    var bare := folders + ['/'] + "app";
    assert bare[|bare| - 1] == 'p';
    StripsTheEnd(bare, '/', slashes);
    AfterLastSkips(folders, '/', "app");
    AfterLastNone("app", '/');
  }

  lemma AppIsItself(prefix: string)
    ensures Discriminator("app", prefix) == TextOf(AppKey)
  {
    var head := prefix + "-";
    assert head[|prefix|] == '-';
    assert forall k | 0 <= k < 3 :: "app"[k] != '-';
  }

  /** A queue's ARN is read as its name alone. */
  lemma QueueReads(at: Place, name: string)
    requires Proper(at)
    ensures var raw := Written(at.partition, "sqs", at.region, at.account, name);
            Parse(raw) == Arn("sqs", "queue", name, raw)
  {
    FieldsOf(at.partition, "sqs", at.region, at.account, name);
    hide Split, Written;
  }

  /** However far a written ARN is split, its region and account are the fourth and fifth parts. */
  lemma FifthPart(at: Place, service: string, resource: string, limit: nat)
    requires Proper(at) && ':' !in service && limit >= 5
    ensures var parts := Split(Written(at.partition, service, at.region, at.account, resource), ':', limit);
            |parts| > 4 && parts[3] == at.region && parts[4] == at.account
  {
    hide Split;
    var afterRegion := at.account + [':'] + resource;
    var afterService := at.region + [':'] + afterRegion;
    var afterPartition := service + [':'] + afterService;
    SplitOnce("arn", ':', at.partition + [':'] + afterPartition, limit);
    SplitOnce(at.partition, ':', afterPartition, limit - 1);
    SplitOnce(service, ':', afterService, limit - 2);
    SplitOnce(at.region, ':', afterRegion, limit - 3);
    SplitOnce(at.account, ':', resource, limit - 4);
  }

  /** A queue: its ARN is the bare name, and its URL imports it. */
  lemma QueueComesBack(k: nat, at: Place, prefix: string, tag: string)
    requires Proper(at) && k < |Queues()|
    ensures var (key, address) := Queues()[k];
            var name := prefix + "-" + TextOf(key);
            PlanOne(Written(at.partition, "sqs", at.region, at.account, name), tag, prefix) ==
            Adopt(address, "https://sqs." + at.region + ".amazonaws.com/" + at.account + "/" + name)
  {
    SqsText();
    hide TextOf, Queues, Parse, Written, KindText, Discriminator, Split;
    var key := Queues()[k].0;
    var name := RoleName(prefix, key);
    var raw := Written(at.partition, "sqs", at.region, at.account, name);
    DiscriminatorReads(prefix, key);
    QueueReads(at, name);
    LongEnough(at, name);
    FifthPart(at, "sqs", name, |raw|);
    PlannedByKey(SqsQueue, raw, tag, prefix, k, name);
  }

  lemma SqsText()
    ensures "sqs" + ":" + "queue" == KindText(SqsQueue)
  {
  }

  lemma LongEnough(at: Place, name: string)
    ensures |Written(at.partition, "sqs", at.region, at.account, name)| >= 5
  {
  }

  // ---------------------------------------------------------------- what is left, and why

  lemma TextIsRead(text: string)
    requires RuleKindOf(text).Some?
    ensures TypeText(RuleKindOf(text).value) == text
  {
    hide TypeText;
  }

  /** The kinds whose ARN has no usable name. */
  predicate IsTagged(kind: RuleKind) {
    kind in {Ec2Vpc, Ec2Gateway, Ec2RouteTable, Ec2SecurityGroup, SecretsSecret, IamOidcProvider}
  }

  lemma TaggedRules(kind: RuleKind)
    ensures RuleOf(kind).nameFrom == FromTag <==> IsTagged(kind)
  {
    hide Roles, SecurityGroups, Services, Queues, TargetGroups, Only;
  }

  lemma {:induction false} LookupMisses(addresses: seq<(Key, Address)>, text: string)
    ensures Lookup(addresses, text).None? <==> forall k | 0 <= k < |addresses| :: TextOf(addresses[k].0) != text
  {
    hide TextOf;
    if addresses == [] {
    } else {
      LookupMisses(addresses[1..], text);
      assert forall k | 1 <= k < |addresses| :: addresses[k] == addresses[1..][k - 1];
    }
  }

  /** An orphan is left for being counted exactly when it is a subnet; for want of a rule exactly when no kind is
      spelled as its own is; for want of a name exactly when its kind is named by a tag and it has none; and for
      its name exactly when it has one and no key of its kind is what is left of it. */
  lemma LeftExactly(raw: string, tag: string, prefix: string, name: string)
    ensures var arn := Parse(raw);
            var text := arn.service + ":" + arn.kind;
            var verdict := PlanOne(raw, tag, prefix);
            && (verdict == Unadoptable(Indexed) <==> text == "ec2:subnet")
            && (verdict == Unadoptable(NoRule) <==> text != "ec2:subnet" && forall kind :: TypeText(kind) != text)
            && (verdict == Unadoptable(NoNameTag) <==>
                  tag == "" && exists kind :: TypeText(kind) == text && IsTagged(kind))
            && (verdict == Unadoptable(UnknownName(name)) <==>
                  exists kind :: TypeText(kind) == text && UnknownTo(kind, arn, tag, prefix, name))
  {
    hide RuleOf, RuleKindOf, Parse, NameOf, ImportId, Discriminator, Lookup, TypeText, TextOf;
    var arn := Parse(raw);
    var text := arn.service + ":" + arn.kind;
    SubnetHasNoRule();
    forall kind ensures RuleKindOf(TypeText(kind)) == Some(kind) { TextReads(kind); }
    if RuleKindOf(text).Some? {
      var kind := RuleKindOf(text).value;
      TextIsRead(text);
      TaggedRules(kind);
      if NameOf(RuleOf(kind).nameFrom, arn, tag).Some? {
        LookupMisses(RuleOf(kind).addresses, Discriminator(NameOf(RuleOf(kind).nameFrom, arn, tag).value, prefix));
      }
    }
  }

  predicate UnknownTo(kind: RuleKind, arn: Arn, tag: string, prefix: string, name: string) {
    var rule := RuleOf(kind);
    && (rule.nameFrom == FromTag ==> tag != "") && NameOf(rule.nameFrom, arn, tag) == Some(name)
    && forall k | 0 <= k < |rule.addresses| :: TextOf(rule.addresses[k].0) != Discriminator(name, prefix)
  }

  // ---------------------------------------------------------------- addresses and keys

  /** The kind of orphan that a resource of the configuration can be. */
  function OrphanOf(kind: Kind): Option<RuleKind> {
    match kind
    case Vpc => Some(Ec2Vpc)
    case InternetGateway => Some(Ec2Gateway)
    case RouteTable => Some(Ec2RouteTable)
    case SecurityGroup => Some(Ec2SecurityGroup)
    case DefaultSecurityGroup => Some(Ec2SecurityGroup)
    case ClusterEcs => Some(EcsClusterRule)
    case ServiceEcs => Some(EcsServiceRule)
    case LoadBalancer => Some(ElbLoadBalancer)
    case TargetGroup => Some(ElbTargetGroup)
    case DbInstance => Some(RdsDb)
    case DbSubnetGroup => Some(RdsSubnetGroup)
    case LogGroup => Some(LogsLogGroup)
    case Secret => Some(SecretsSecret)
    case Role => Some(IamRole)
    case ClusterEks => Some(EksClusterRule)
    case NodeGroup => Some(EksNodeGroup)
    case OidcProvider => Some(IamOidcProvider)
    case QueueSqs => Some(SqsQueue)
    case RolePolicyAttachment => None
    case RolePolicy => None
  }

  predicate AllOf(addresses: seq<(Key, Address)>, kind: RuleKind) {
    forall k | 0 <= k < |addresses| :: OrphanOf(addresses[k].1.kind) == Some(kind)
  }

  predicate Apart(addresses: seq<(Key, Address)>) {
    forall j, k | 0 <= j < k < |addresses| :: addresses[j].1 != addresses[k].1
  }

  lemma RolesAreRoles() ensures AllOf(Roles(), IamRole) && Apart(Roles()) {}
  lemma GroupsAreGroups() ensures AllOf(SecurityGroups(), Ec2SecurityGroup) && Apart(SecurityGroups()) {}
  lemma ServicesAreServices() ensures AllOf(Services(), EcsServiceRule) && Apart(Services()) {}
  lemma QueuesAreQueues() ensures AllOf(Queues(), SqsQueue) && Apart(Queues()) {}
  lemma TargetsAreTargets() ensures AllOf(TargetGroups(), ElbTargetGroup) && Apart(TargetGroups()) {}

  lemma AddressesFit(kind: RuleKind)
    ensures AllOf(RuleOf(kind).addresses, kind) && Apart(RuleOf(kind).addresses)
  {
    hide Roles, SecurityGroups, Services, Queues, TargetGroups, Apart;
    RolesAreRoles();
    GroupsAreGroups();
    ServicesAreServices();
    QueuesAreQueues();
    TargetsAreTargets();
    if |RuleOf(kind).addresses| == 1 { OneIsApart(RuleOf(kind).addresses); }
  }

  lemma OneIsApart(addresses: seq<(Key, Address)>)
    requires |addresses| == 1
    ensures Apart(addresses)
  {
  }

  /** No two keys, of one kind or of two, share an address: whatever claims an address claims it by the same name. */
  lemma AddressTellsTheKey(one: RuleKind, j: nat, other: RuleKind, k: nat)
    requires j < |RuleOf(one).addresses| && k < |RuleOf(other).addresses|
    requires RuleOf(one).addresses[j].1 == RuleOf(other).addresses[k].1
    ensures one == other && j == k
  {
    hide RuleOf;
    AddressesFit(one);
    AddressesFit(other);
  }

  // ---------------------------------------------------------------- the policies of a role

  /** A managed policy is imported by `<role>/<policy>`: the role's name and then the policy's ARN. */
  lemma ManagedReadsBack(p: AwsPolicy, prefix: string, role: string)
    requires '/' !in role
    ensures Split(PolicyImportId(ManagedPolicy(p), prefix, role), '/', 1) == [role, PolicyArn(p)]
  {
    hide PolicyArn;
    SplitOnce(role, '/', PolicyArn(p), 1);
    SplitNoMore(PolicyArn(p), '/');
    assert role + ['/'] + PolicyArn(p) == role + "/" + PolicyArn(p);
  }

  /** An inline one by `<role>:<name>`, and its name is its own behind the environment's prefix. */
  lemma InlineReadsBack(p: InlinePolicy, prefix: string, role: string)
    requires ':' !in role
    ensures Split(PolicyImportId(Inline(p), prefix, role), ':', 1) == [role, prefix + "-" + SuffixOf(p)]
    ensures Discriminator(prefix + "-" + SuffixOf(p), prefix) == SuffixOf(p)
  {
    hide SuffixOf;
    var name := prefix + "-" + SuffixOf(p);
    SplitOnce(role, ':', name, 1);
    SplitNoMore(name, ':');
    assert role + [':'] + name == PolicyImportId(Inline(p), prefix, role);
    assert name == (prefix + "-") + SuffixOf(p);
  }
}
