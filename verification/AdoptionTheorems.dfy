/** What adoption promises: every orphan once, no address twice, a second sweep that finds only what could not be
    adopted, and names that come back as themselves. */
module AdoptionTheorems {
  import opened Options
  import opened Scope
  import opened Arns
  import opened OrphanSweep
  import opened Adoption
  import opened AdoptionPlan

  // ---------------------------------------------------------------- every orphan once

  function ArnsOf(adopted: seq<Import>): seq<string> {
    seq(|adopted|, k requires 0 <= k < |adopted| => adopted[k].arn)
  }

  function ArnsLeft(left: seq<(string, Reason)>): seq<string> {
    seq(|left|, k requires 0 <= k < |left| => left[k].0)
  }

  lemma OneCountMore(arns: seq<string>, arn: string, a: string)
    ensures multiset(arns + [arn])[a] == multiset(arns)[a] + if arn == a then 1 else 0
  {
  }

  lemma OneAdoptedMore(adopted: seq<Import>, one: Import)
    ensures ArnsOf(adopted + [one]) == ArnsOf(adopted) + [one.arn]
  {
  }

  lemma OneLeftMore(left: seq<(string, Reason)>, one: (string, Reason))
    ensures ArnsLeft(left + [one]) == ArnsLeft(left) + [one.0]
  {
  }

  lemma {:induction false} AdoptedPlusLeft(arns: seq<string>, vs: seq<Verdict>, a: string)
    requires |arns| == |vs| && forall k | 0 <= k < |vs| :: !vs[k].Raises?
    ensures multiset(ArnsOf(Parents(arns, vs)))[a] + multiset(ArnsLeft(Left(arns, vs)))[a] == multiset(arns)[a]
  {
    if vs == [] {
    } else {
      hide ArnsOf, ArnsLeft;
      var n := |vs| - 1;
      AdoptedPlusLeft(arns[..n], vs[..n], a);
      assert arns == arns[..n] + [arns[n]];
      OneCountMore(arns[..n], arns[n], a);
      var p, l := Parents(arns[..n], vs[..n]), Left(arns[..n], vs[..n]);
      if vs[n].Adopt? {
        OneAdoptedMore(p, Import(arns[n], vs[n].address, vs[n].importId, None));
        OneCountMore(ArnsOf(p), arns[n], a);
        assert Left(arns, vs) == l;
      } else {
        OneLeftMore(l, (arns[n], vs[n].reason));
        OneCountMore(ArnsLeft(l), arns[n], a);
        assert Parents(arns, vs) == p;
      }
    }
  }

  lemma ParentsAndLeftSplit(arns: seq<string>, vs: seq<Verdict>)
    requires |arns| == |vs| && forall k | 0 <= k < |vs| :: !vs[k].Raises?
    ensures multiset(ArnsOf(Parents(arns, vs))) + multiset(ArnsLeft(Left(arns, vs))) == multiset(arns)
  {
    hide ArnsOf, ArnsLeft, Parents, Left;
    forall a: string
      ensures multiset(ArnsOf(Parents(arns, vs)))[a] + multiset(ArnsLeft(Left(arns, vs)))[a] == multiset(arns)[a] {
      AdoptedPlusLeft(arns, vs, a);
    }
  }

  /** The plan puts every orphan, as often as it was reported, among the adopted or among the rest, and in one
      of them only. */
  lemma EachOrphanOnce(orphans: seq<string>, tags: map<string, string>, prefix: string)
    requires !AnyUnnamable(orphans)
    ensures var arns := Sorted(orphans); var vs := AllSettled(VerdictsOf(arns, tags, prefix));
            multiset(ArnsOf(Parents(arns, vs))) + multiset(ArnsLeft(PlanFor(orphans, tags, prefix).unadoptable)) ==
                multiset(orphans)
  {
    hide PlanOne, Sorted, Contested, Parents, Left, AllAccompanying;
    var arns := Sorted(orphans);
    SortedKeeps(orphans);
    forall k | 0 <= k < |arns| ensures !VerdictsOf(arns, tags, prefix)[k].Raises? {
      assert arns[k] in arns && arns[k] in orphans;
      RaisesExactly(arns[k], TagOf(tags, arns[k]), prefix);
    }
    ParentsAndLeftSplit(arns, AllSettled(VerdictsOf(arns, tags, prefix)));
  }

  // ---------------------------------------------------------------- no address twice

  predicate OneClaimEach(vs: seq<Verdict>) {
    forall j, k | 0 <= j < k < |vs| && vs[j].Adopt? && vs[k].Adopt? :: vs[j].address != vs[k].address
  }

  lemma SettledClaimOnce(vs: seq<Verdict>)
    ensures OneClaimEach(AllSettled(vs))
  {
    var settled := AllSettled(vs);
    forall j, k | 0 <= j < k < |vs| && settled[j].Adopt? && settled[k].Adopt?
      ensures settled[j].address != settled[k].address {
      if vs[j].address == vs[k].address {
        assert Claims(vs, j, vs[k].address) && Claims(vs, k, vs[k].address);
        assert Contested(vs, vs[k].address);
      }
    }
  }

  lemma {:induction false} ParentsAreClaims(arns: seq<string>, vs: seq<Verdict>)
    requires |arns| == |vs| && OneClaimEach(vs)
    ensures NoAddressTwice(Parents(arns, vs))
    ensures forall p | p in Parents(arns, vs) :: p.dependentOf.None? && exists k :: Claims(vs, k, p.address)
  {
    if vs == [] {
    } else {
      var n := |vs| - 1;
      var init := Parents(arns[..n], vs[..n]);
      ParentsAreClaims(arns[..n], vs[..n]);
      forall p | p in init ensures exists k :: k < n && Claims(vs, k, p.address) {
        var k :| Claims(vs[..n], k, p.address);
        assert Claims(vs, k, p.address);
      }
      if vs[n].Adopt? { assert Claims(vs, n, vs[n].address); }
      forall k | 0 <= k < |init| ensures init[k] in init {}
    }
  }

  /** Parents are not policies, so they are no one's dependents. */
  lemma ClaimIsNoPolicy(raw: string, tag: string, prefix: string)
    ensures PlanOne(raw, tag, prefix).Adopt? ==> !IsPolicy(PlanOne(raw, tag, prefix).address)
  {
    var arn := Parse(raw);
    var known := RuleKindOf(arn.service + ":" + arn.kind);
    if known.Some? { RulesNameNoPolicy(known.value); }
    hide RuleKindOf, RuleOf, Parse, Discriminator, NameOf, ImportId;
  }

  ghost predicate Hangs(d: Import, parents: seq<Import>) {
    IsPolicy(d.address) && exists p ::
                             p in parents && p.address == RoleOf(d.address) && d.arn == p.arn && d.dependentOf == Some(p.address)
  }

  lemma OwnHang(last: Import, parents: seq<Import>, prefix: string)
    requires last in parents
    ensures var own := Accompanying(last, prefix);
            && NoAddressTwice(own)
            && forall k | 0 <= k < |own| :: Hangs(own[k], parents) && RoleOf(own[k].address) == last.address
  {
    DependentsAreOwn(last.address);
    hide DependentsOf, RoleOf, IsPolicy;
  }

  lemma EarlierHang(d: Import, init: seq<Import>, last: Import)
    requires NoAddressTwice(init + [last]) && Hangs(d, init)
    ensures Hangs(d, init + [last]) && RoleOf(d.address) != last.address
  {
    hide RoleOf, IsPolicy;
    var p :| p in init && p.address == RoleOf(d.address) && d.arn == p.arn && d.dependentOf == Some(p.address);
    var i :| 0 <= i < |init| && init[i] == p;
    var all := init + [last];
    assert all[i] == p && all[|init|] == last && p in all;
  }

  lemma TheyJoin(before: seq<Import>, own: seq<Import>, parents: seq<Import>, last: Address)
    requires NoAddressTwice(before) && NoAddressTwice(own)
    requires forall k | 0 <= k < |before| :: Hangs(before[k], parents) && RoleOf(before[k].address) != last
    requires forall k | 0 <= k < |own| :: Hangs(own[k], parents) && RoleOf(own[k].address) == last
    ensures NoAddressTwice(before + own) && forall d | d in before + own :: Hangs(d, parents)
  {
    hide RoleOf, Hangs;
  }

  lemma FewerAreDistinct(init: seq<Import>, last: Import)
    requires NoAddressTwice(init + [last])
    ensures NoAddressTwice(init)
  {
    var all := init + [last];
    forall j, k | 0 <= j < k < |init| ensures init[j].address != init[k].address {
      assert all[j] == init[j] && all[k] == init[k];
    }
  }

  lemma {:induction false} DependentsHang(parents: seq<Import>, prefix: string)
    requires NoAddressTwice(parents)
    ensures NoAddressTwice(AllAccompanying(parents, prefix))
    ensures forall d | d in AllAccompanying(parents, prefix) :: Hangs(d, parents)
  {
    if parents == [] {
    } else {
      hide RoleOf, Hangs, Accompanying, NoAddressTwice;
      var init, last := parents[..|parents| - 1], parents[|parents| - 1];
      assert parents == init + [last];
      FewerAreDistinct(init, last);
      DependentsHang(init, prefix);
      OwnHang(last, parents, prefix);
      var before := AllAccompanying(init, prefix);
      forall j | 0 <= j < |before| ensures Hangs(before[j], parents) && RoleOf(before[j].address) != last.address {
        assert before[j] in before;
        EarlierHang(before[j], init, last);
      }
      TheyJoin(before, Accompanying(last, prefix), parents, last.address);
    }
  }

  /** No address is adopted twice, dependents included. */
  lemma NoAddressIsAdoptedTwice(orphans: seq<string>, tags: map<string, string>, prefix: string)
    ensures NoAddressTwice(PlanFor(orphans, tags, prefix).adopt)
  {
    var arns := Sorted(orphans);
    var vs := AllSettled(VerdictsOf(arns, tags, prefix));
    SettledClaimOnce(VerdictsOf(arns, tags, prefix));
    ParentsAreClaims(arns, vs);
    var parents := Parents(arns, vs);
    DependentsHang(parents, prefix);
    forall p | p in parents ensures !IsPolicy(p.address) {
      var k :| Claims(vs, k, p.address);
      ClaimIsNoPolicy(arns[k], TagOf(tags, arns[k]), prefix);
    }
    hide PlanOne, Sorted, IsPolicy, Contested, Parents, AllAccompanying, Left;
    Disjointly(parents, AllAccompanying(parents, prefix));
  }

  lemma Disjointly(parents: seq<Import>, dependents: seq<Import>)
    requires NoAddressTwice(parents) && NoAddressTwice(dependents)
    requires (forall p | p in parents :: !IsPolicy(p.address)) && forall d | d in dependents :: Hangs(d, parents)
    ensures NoAddressTwice(parents + dependents)
  {
    var both := parents + dependents;
    forall j, k | 0 <= j < k < |both| ensures both[j].address != both[k].address {
      if j < |parents| && |parents| <= k {
        assert parents[j] in parents && dependents[k - |parents|] in dependents;
      }
    }
  }

  // ---------------------------------------------------------------- sweeping again

  /** The state after the imports: each adopted ARN is held, in every spelling. */
  ghost function AfterImport(identifiers: set<string>, adopted: seq<Import>): set<string> {
    identifiers + set k, v | 0 <= k < |adopted| && v in Spellings(adopted[k].arn) :: v
  }

  /** An ARN the plan adopted is managed from then on. */
  lemma AdoptedIsManaged(identifiers: set<string>, adopted: seq<Import>, k: nat)
    requires k < |adopted| && adopted[k].arn != ""
    ensures IsManaged(adopted[k].arn, AfterImport(identifiers, adopted))
  {
    assert adopted[k].arn in Spellings(adopted[k].arn);
  }

  lemma StillManaged(arn: string, before: set<string>, after: set<string>)
    requires before <= after && IsManaged(arn, before)
    ensures IsManaged(arn, after)
  {
  }

  predicate IsAdopted(adopted: seq<Import>, x: string) {
    exists k :: 0 <= k < |adopted| && adopted[k].arn == x
  }

  predicate IsLeft(left: seq<(string, Reason)>, x: string) {
    exists k :: 0 <= k < |left| && left[k].0 == x
  }

  lemma StillThere(adopted: seq<Import>, more: seq<Import>, left: seq<(string, Reason)>, rest: seq<(string, Reason)>,
                   x: string)
    ensures IsAdopted(adopted, x) || IsAdopted(more, x) ==> IsAdopted(adopted + more, x)
    ensures IsLeft(left, x) || IsLeft(rest, x) ==> IsLeft(left + rest, x)
  {
    var both, all := adopted + more, left + rest;
    if k :| 0 <= k < |adopted| && adopted[k].arn == x { assert both[k].arn == x; }
    if k :| 0 <= k < |more| && more[k].arn == x { assert both[|adopted| + k].arn == x; }
    if k :| 0 <= k < |left| && left[k].0 == x { assert all[k].0 == x; }
    if k :| 0 <= k < |rest| && rest[k].0 == x { assert all[|left| + k].0 == x; }
  }

  lemma {:induction false} AdoptedOrLeft(arns: seq<string>, vs: seq<Verdict>, x: string)
    requires |arns| == |vs| && (forall k | 0 <= k < |vs| :: !vs[k].Raises?) && x in arns
    ensures IsAdopted(Parents(arns, vs), x) || IsLeft(Left(arns, vs), x)
  {
    var n := |vs| - 1;
    assert arns == arns[..n] + [arns[n]];
    var p := if vs[n].Adopt? then [Import(arns[n], vs[n].address, vs[n].importId, None)] else [];
    var l := if vs[n].Unadoptable? then [(arns[n], vs[n].reason)] else [];
    StillThere(Parents(arns[..n], vs[..n]), p, Left(arns[..n], vs[..n]), l, x);
    if x in arns[..n] {
      AdoptedOrLeft(arns[..n], vs[..n], x);
    } else if vs[n].Adopt? {
      assert p[0].arn == x;
    } else {
      assert l[0].0 == x;
    }
  }

  /** The same sweep, run again over the imported state, reports only orphans the plan could not adopt. */
  lemma SecondSweepReportsOnlyTheUnadoptable(tagged: seq<string>, controls: seq<(string, nat)>,
                                             identifiers: set<string>, present: set<string>,
                                             unconfirmed: seq<string>, tags: map<string, string>, prefix: string, x: string)
    requires var first := DecideSweep(tagged, controls, identifiers, present, unconfirmed);
             first.Orphans? && !AnyUnnamable(first.orphans)
    ensures var first := DecideSweep(tagged, controls, identifiers, present, unconfirmed);
            var plan := PlanFor(first.orphans, tags, prefix);
            var second := DecideSweep(tagged, controls, AfterImport(identifiers, plan.adopt), present, unconfirmed);
            second.Orphans? && x in second.orphans ==> x in first.orphans && IsLeft(plan.unadoptable, x)
  {
    var first := DecideSweep(tagged, controls, identifiers, present, unconfirmed);
    var plan := PlanFor(first.orphans, tags, prefix);
    var after := AfterImport(identifiers, plan.adopt);
    var second := DecideSweep(tagged, controls, after, present, unconfirmed);
    CleanExactly(tagged, controls, identifiers, present, unconfirmed);
    CleanExactly(tagged, controls, after, present, unconfirmed);
    hide DecideSweep;
    if second.Orphans? && x in second.orphans {
      if IsManaged(x, identifiers) { StillManaged(x, identifiers, after); }
      hide IsManaged;
      assert x in first.orphans;
      ReportedAgain(first.orphans, tags, prefix, identifiers, x);
    }
  }

  lemma ReportedAgain(orphans: seq<string>, tags: map<string, string>, prefix: string, identifiers: set<string>,
                      x: string)
    requires !AnyUnnamable(orphans) && x in orphans && x != ""
    requires !IsManaged(x, AfterImport(identifiers, PlanFor(orphans, tags, prefix).adopt))
    ensures IsLeft(PlanFor(orphans, tags, prefix).unadoptable, x)
  {
    hide PlanOne, Sorted, Contested, Parents, Left, AllAccompanying, IsManaged, AfterImport;
    var arns, plan := Sorted(orphans), PlanFor(orphans, tags, prefix);
    var vs := AllSettled(VerdictsOf(arns, tags, prefix));
    SortedKeeps(orphans);
    forall k | 0 <= k < |arns| ensures !vs[k].Raises? {
      assert arns[k] in arns && arns[k] in orphans;
      RaisesExactly(arns[k], TagOf(tags, arns[k]), prefix);
    }
    AdoptedOrLeft(arns, vs, x);
    hide IsLeft;
    if k :| 0 <= k < |Parents(arns, vs)| && Parents(arns, vs)[k].arn == x {
      assert plan.adopt[k] == Parents(arns, vs)[k];
      AdoptedIsManaged(identifiers, plan.adopt, k);
    }
  }

  // ---------------------------------------------------------------- names nothing discovers

  /** How a role's name becomes an ARN. */
  function RoleArn(account: string, name: string): string {
    Written("aws", "iam", "", account, "role" + ['/'] + name)
  }

  function RoleName(prefix: string, key: Key): string {
    prefix + "-" + TextOf(key)
  }

  lemma RoleArnReads(account: string, name: string)
    requires ':' !in account
    ensures Parse(RoleArn(account, name)) == Arn("iam", "role", name, RoleArn(account, name))
  {
    ParseReadsBack("aws", "iam", "", account, "role", '/', name);
  }

  lemma DiscriminatorReads(prefix: string, key: Key)
    ensures Discriminator(RoleName(prefix, key), prefix) == TextOf(key)
  {
    hide TextOf;
    var head := prefix + "-";
    assert RoleName(prefix, key) == head + TextOf(key);
  }

  predicate DistinctKeys(addresses: seq<(Key, Address)>) {
    forall j, k | 0 <= j < k < |addresses| :: TextOf(addresses[j].0) != TextOf(addresses[k].0)
  }

  lemma {:induction false} LookupFinds(addresses: seq<(Key, Address)>, k: nat)
    requires k < |addresses| && DistinctKeys(addresses)
    ensures Lookup(addresses, TextOf(addresses[k].0)) == Some(addresses[k].1)
  {
    hide TextOf;
    if k == 0 {
    } else {
      assert TextOf(addresses[0].0) != TextOf(addresses[k].0);
      LookupFinds(addresses[1..], k - 1);
    }
  }

  /** Length and first letter tell the role names apart. */
  function MarkOf(key: Key): (nat, char) {
    match key
    case ApiEcsTaskKey => (12, 'a')
    case ApiEcsExecutionKey => (17, 'a')
    case WebEcsTaskKey => (12, 'w')
    case WebEcsExecutionKey => (17, 'w')
    case WorkerEcsTaskKey => (15, 'w')
    case WorkerEcsExecutionKey => (20, 'w')
    case EksClusterKey => (11, 'e')
    case EksNodeKey => (8, 'e')
    case ApiIrsaKey => (8, 'a')
    case WorkerIrsaKey => (11, 'w')
    case AlbControllerKey => (14, 'a')
    case _ => (0, ' ')
  }

  lemma RoleTextIsMarked(key: Key)
    ensures MarkOf(key).0 > 0 ==> |TextOf(key)| == MarkOf(key).0 && TextOf(key)[0] == MarkOf(key).1
  {
  }

  lemma RoleMarksDiffer()
    ensures |Roles()| == 11 && forall k | 0 <= k < 11 :: MarkOf(Roles()[k].0).0 > 0
    ensures forall j, k | 0 <= j < k < 11 :: MarkOf(Roles()[j].0) != MarkOf(Roles()[k].0)
  {
  }

  lemma RoleKeysAreDistinct()
    ensures DistinctKeys(Roles())
  {
    hide TextOf, Roles, MarkOf;
    RoleMarksDiffer();
    forall j, k | 0 <= j < k < |Roles()| ensures TextOf(Roles()[j].0) != TextOf(Roles()[k].0) {
      RoleTextIsMarked(Roles()[j].0);
      RoleTextIsMarked(Roles()[k].0);
    }
  }

  /** Every ARN built from a role's name parses, and is planned back to that role's address with the name itself
      as import id. */
  lemma RoleComesBack(k: nat, prefix: string, account: string, tag: string)
    requires k < |Roles()| && ':' !in account
    ensures var (key, address) := Roles()[k];
            PlanOne(RoleArn(account, RoleName(prefix, key)), tag, prefix) == Adopt(address, RoleName(prefix, key))
  {
    hide TextOf, Roles, Discriminator, Parse, Lookup, RoleArn, RoleName;
    var key := Roles()[k].0;
    RoleKeysAreDistinct();
    LookupFinds(Roles(), k);
    RoleArnReads(account, RoleName(prefix, key));
    DiscriminatorReads(prefix, key);
    assert "iam" + ":" + "role" == "iam:role";
    assert "iam:role" != "ec2:subnet";
  }

  /** The module a role belongs to is one the environment calls, or no environment was named. */
  predicate Wired(modules: Option<set<Component>>, address: Address) {
    modules.None? || (address.In? && address.m in modules.value)
  }

  /** What one role name adds: itself and its ARN, when the role is wired. */
  function EntryFor(text: string, prefix: string, account: string, modules: Option<set<Component>>): seq<(string,
      string)> {
    var address := Lookup(Roles(), text);
    if address.Some? && Wired(modules, address.value) then [(prefix + "-" + text, RoleArn(account, prefix + "-" + text))]
    else []
  }

  function EntriesFor(texts: seq<string>, prefix: string, account: string,
                      modules: Option<set<Component>>): seq<(string, string)> {
    if texts == [] then []
    else EntriesFor(texts[..|texts| - 1], prefix, account, modules) + EntryFor(texts[|texts| - 1], prefix, account, modules)
  }

  function TextsOf(addresses: seq<(Key, Address)>): (r: seq<string>)
    ensures |r| == |addresses| && forall k | 0 <= k < |r| :: r[k] == TextOf(addresses[k].0)
  {
    seq(|addresses|, k requires 0 <= k < |addresses| => TextOf(addresses[k].0))
  }

  /** `unindexed_names`. */
  method UnindexedNames(prefix: string, account: string, modules: Option<set<Component>>)
    returns (out: seq<(string, string)>)
    ensures out == EntriesFor(SortedSet(TextsOf(Roles())), prefix, account, modules)
  {
    hide TextOf, Roles, RoleArn, Lookup, SortedSet, TextsOf;
    out := [];
    var texts := SortedSet(TextsOf(Roles()));
    assert texts[..0] == [];
    for i := 0 to |texts|
      invariant out == EntriesFor(texts[..i], prefix, account, modules)
    {
      assert texts[..i + 1][..i] == texts[..i];
      var address := Lookup(Roles(), texts[i]);
      if address.None? || !Wired(modules, address.value) { continue; }
      var name := prefix + "-" + texts[i];
      out := out + [(name, RoleArn(account, name))];
    }
    assert texts[..|texts|] == texts;
  }

  /** Some text among these has this entry. */
  predicate HasEntry(texts: seq<string>, prefix: string, account: string, modules: Option<set<Component>>,
                     e: (string, string)) {
    exists j :: 0 <= j < |texts| && e in EntryFor(texts[j], prefix, account, modules)
  }

  lemma {:induction false} EntriesAreOf(texts: seq<string>, prefix: string, account: string,
                                        modules: Option<set<Component>>, e: (string, string))
    ensures e in EntriesFor(texts, prefix, account, modules) <==> HasEntry(texts, prefix, account, modules, e)
  {
    hide EntryFor;
    if texts == [] {
    } else {
      var n := |texts| - 1;
      EntriesAreOf(texts[..n], prefix, account, modules, e);
      EntryMore(texts[..n], texts[n], prefix, account, modules, e);
      assert texts == texts[..n] + [texts[n]];
      hide HasEntry;
    }
  }

  lemma EntryMore(texts: seq<string>, text: string, prefix: string, account: string, modules: Option<set<Component>>,
                  e: (string, string))
    ensures HasEntry(texts + [text], prefix, account, modules, e) <==>
            HasEntry(texts, prefix, account, modules, e) || e in EntryFor(text, prefix, account, modules)
  {
    hide EntryFor;
    var more := texts + [text];
    assert more[|texts|] == text;
    if j :| 0 <= j < |texts| && e in EntryFor(texts[j], prefix, account, modules) {
      assert more[j] == texts[j];
    }
  }

  /** A wired role with this name and ARN. */
  predicate IsWiredRole(prefix: string, account: string, modules: Option<set<Component>>, e: (string, string)) {
    exists k :: 0 <= k < |Roles()| && Wired(modules, Roles()[k].1) && IsEntry(e, prefix, account, Roles()[k].0)
  }

  lemma EntryIsOfARole(text: string, prefix: string, account: string, modules: Option<set<Component>>,
                       e: (string, string))
    requires text in TextsOf(Roles()) && e in EntryFor(text, prefix, account, modules)
    ensures IsWiredRole(prefix, account, modules, e)
  {
    hide TextOf, Roles, RoleArn, Lookup;
    RoleKeysAreDistinct();
    var k :| 0 <= k < |Roles()| && TextsOf(Roles())[k] == text;
    LookupFinds(Roles(), k);
  }

  lemma RoleHasEntry(k: nat, prefix: string, account: string, modules: Option<set<Component>>, e: (string, string))
    requires k < |Roles()| && Wired(modules, Roles()[k].1) && IsEntry(e, prefix, account, Roles()[k].0)
    ensures e in EntryFor(TextOf(Roles()[k].0), prefix, account, modules) && TextOf(Roles()[k].0) in TextsOf(Roles())
  {
    hide TextOf, Roles, RoleArn, Lookup;
    RoleKeysAreDistinct();
    LookupFinds(Roles(), k);
    assert TextsOf(Roles())[k] == TextOf(Roles()[k].0);
  }

  /** The names to ask about are those of the wired roles, all of them and no others. */
  lemma WiredRolesAreAskedAbout(prefix: string, account: string, modules: Option<set<Component>>, e: (string, string))
    ensures e in EntriesFor(SortedSet(TextsOf(Roles())), prefix, account, modules) <==>
            IsWiredRole(prefix, account, modules, e)
  {
    hide TextOf, Roles, EntryFor, TextsOf, IsEntry, Wired;
    var texts := TextsOf(Roles());
    var sorted := SortedSet(texts);
    EntriesAreOf(sorted, prefix, account, modules, e);
    if j :| 0 <= j < |sorted| && e in EntryFor(sorted[j], prefix, account, modules) {
      assert sorted[j] in texts;
      EntryIsOfARole(sorted[j], prefix, account, modules, e);
    }
    if k :| 0 <= k < |Roles()| && Wired(modules, Roles()[k].1) && IsEntry(e, prefix, account, Roles()[k].0) {
      RoleHasEntry(k, prefix, account, modules, e);
      assert TextOf(Roles()[k].0) in sorted;
      var j :| 0 <= j < |sorted| && sorted[j] == TextOf(Roles()[k].0);
    }
  }

  /** Every ARN built from such a name parses, and plans back to its own role under its own name. */
  lemma UnindexedNamesComeBack(prefix: string, account: string, modules: Option<set<Component>>, e: (string, string),
                               tag: string)
    requires e in EntriesFor(SortedSet(TextsOf(Roles())), prefix, account, modules) && ':' !in account
    ensures Parse(e.1) == Arn("iam", "role", e.0, e.1) && PlansBack(e, account, modules, tag, prefix)
  {
    hide TextOf, Roles, RoleArn, PlanOne, EntriesFor, Parse;
    WiredRolesAreAskedAbout(prefix, account, modules, e);
    var k :| 0 <= k < |Roles()| && Wired(modules, Roles()[k].1) && IsEntry(e, prefix, account, Roles()[k].0);
    RoleComesBack(k, prefix, account, tag);
    RoleArnReads(account, e.0);
  }

  predicate IsEntry(e: (string, string), prefix: string, account: string, key: Key) {
    e == (RoleName(prefix, key), RoleArn(account, RoleName(prefix, key)))
  }

  /** It is the name and ARN of a wired role, and its ARN is adopted to that role's address under that name. */
  ghost predicate PlansBack(e: (string, string), account: string, modules: Option<set<Component>>, tag: string,
                            prefix: string) {
    exists k :: 0 <= k < |Roles()| && Wired(modules, Roles()[k].1) && IsEntry(e, prefix, account, Roles()[k].0)
                && PlanOne(e.1, tag, prefix) == Adopt(Roles()[k].1, e.0)
  }
}
