/** The plan for all orphans at once, resolved in place, and what it promises. */
module AdoptionPlan {
  import opened OrphanSweep
  import opened Adoption

  datatype Result<T> = Ok(value: T) | Raised

  datatype Plan = Plan(adopt: seq<Import>, unadoptable: seq<(string, Reason)>)

  /** The plan these arguments have. */
  ghost function PlanFor(orphans: seq<string>, tags: map<string, string>, prefix: string): Plan {
    var arns := Sorted(orphans);
    var vs := AllSettled(VerdictsOf(arns, tags, prefix));
    Plan(Parents(arns, vs) + AllAccompanying(Parents(arns, vs), prefix), Left(arns, vs))
  }

  predicate AnyUnnamable(orphans: seq<string>) {
    exists x :: x in orphans && Unnamable(x)
  }

  // ---------------------------------------------------------------- claimants

  function Claimants(vs: seq<Verdict>, address: Address): seq<nat> {
    if vs == [] then []
    else Claimants(vs[..|vs| - 1], address) + if Claims(vs, |vs| - 1, address) then [|vs| - 1] else []
  }

  lemma {:induction false} ClaimantsClaim(vs: seq<Verdict>, address: Address, k: nat)
    ensures k in Claimants(vs, address) <==> Claims(vs, k, address)
    ensures forall m | 0 <= m < |Claimants(vs, address)| :: Claimants(vs, address)[m] < |vs|
    ensures forall l, m | 0 <= l < m < |Claimants(vs, address)| :: Claimants(vs, address)[l] < Claimants(vs, address)[m]
  {
    if vs == [] {
    } else {
      var init := vs[..|vs| - 1];
      ClaimantsClaim(init, address, k);
      if k < |init| { assert init[k] == vs[k]; }
    }
  }

  lemma SeveralClaimantsContest(vs: seq<Verdict>, address: Address)
    ensures |Claimants(vs, address)| > 1 <==> Contested(vs, address)
  {
    var cs := Claimants(vs, address);
    if |cs| > 1 {
      ClaimantsClaim(vs, address, cs[0]);
      ClaimantsClaim(vs, address, cs[1]);
      assert cs[0] in cs && cs[1] in cs;
    }
    if Contested(vs, address) {
      var j, k :| 0 <= j < k < |vs| && Claims(vs, j, address) && Claims(vs, k, address);
      ClaimantsClaim(vs, address, j);
      ClaimantsClaim(vs, address, k);
      assert j in cs && k in cs;
    }
  }

  /** `seen`: who claims what. */
  ghost predicate SeenIs(seen: map<Address, seq<nat>>, vs: seq<Verdict>) {
    forall a :: (a in seen <==> Claimants(vs, a) != []) && (a in seen ==> seen[a] == Claimants(vs, a))
  }

  lemma OneMoreVerdict(seen: map<Address, seq<nat>>, vs: seq<Verdict>, v: Verdict)
    requires SeenIs(seen, vs)
    ensures !v.Adopt? ==> SeenIs(seen, vs + [v])
    ensures v.Adopt? ==>
            SeenIs(seen[v.address := (if v.address in seen then seen[v.address] else []) + [|vs|]], vs + [v])
  {
    assert (vs + [v])[..|vs|] == vs;
    forall a ensures Claimants(vs + [v], a) == Claimants(vs, a) + if v.Adopt? && v.address == a then [|vs|] else [] {}
    hide Claimants;
  }

  // ---------------------------------------------------------------- resolving in place

  /** The verdicts with the collisions of these addresses resolved. */
  ghost predicate ResolvedUpTo(entries: seq<Verdict>, vs: seq<Verdict>, done: set<Address>) {
    && |entries| == |vs|
    && forall k | 0 <= k < |vs| :: entries[k] == if vs[k].Adopt? && vs[k].address in done then Settled(vs, k) else vs[k]
  }

  method ResolveOne(entries: array<Verdict>, claimants: seq<nat>, address: Address, ghost vs: seq<Verdict>,
                    ghost done: set<Address>)
    requires address !in done && claimants == Claimants(vs, address)
    requires ResolvedUpTo(entries[..], vs, done)
    modifies entries
    ensures ResolvedUpTo(entries[..], vs, done + {address})
  {
    forall k ensures k in claimants <==> Claims(vs, k, address) {
      if k >= 0 { ClaimantsClaim(vs, address, k); }
    }
    ClaimantsClaim(vs, address, 0);
    SeveralClaimantsContest(vs, address);
    if |claimants| > 1 {
      for m := 0 to |claimants|
        invariant forall k | 0 <= k < |vs| :: entries[k] == if k in claimants[..m] then Unadoptable(Duplicate(address))
                                                            else old(entries[k])
      {
        assert claimants[..m + 1] == claimants[..m] + [claimants[m]];
        entries[claimants[m]] := Unadoptable(Duplicate(address));
      }
      assert claimants[..|claimants|] == claimants;
    }
    hide Contested, Claimants;
  }

  method Resolve(entries: array<Verdict>, seen: map<Address, seq<nat>>)
    requires SeenIs(seen, entries[..])
    modifies entries
    ensures entries[..] == AllSettled(old(entries[..]))
  {
    ghost var vs := entries[..];
    var todo := seen.Keys;
    while todo != {}
      invariant todo <= seen.Keys && ResolvedUpTo(entries[..], vs, seen.Keys - todo)
      decreases |todo|
    {
      var address :| address in todo;
      ResolveOne(entries, seen[address], address, vs, seen.Keys - todo);
      assert seen.Keys - todo + {address} == seen.Keys - (todo - {address});
      todo := todo - {address};
    }
    forall k | 0 <= k < |vs| && vs[k].Adopt? ensures vs[k].address in seen {
      ClaimantsClaim(vs, vs[k].address, k);
    }
  }

  // ---------------------------------------------------------------- plan

  /** `plan`.  It raises exactly when some orphan is a load balancer or a target group named nothing but `app`. */
  method MakePlan(orphans: seq<string>, tags: map<string, string>, prefix: string) returns (r: Result<Plan>)
    ensures r.Raised? <==> AnyUnnamable(orphans)
    ensures r.Ok? ==> r.value == PlanFor(orphans, tags, prefix)
  {
    hide PlanOne, Sorted, Claimants, SeenIs, AnyUnnamable, VerdictsOf, AllSettled, Settled, Parents, Left,
         AllAccompanying;
    var arns := Sorted(orphans);
    ghost var vs := VerdictsOf(arns, tags, prefix);
    var entries := new Verdict[|arns|](_ => Raises);
    var seen: map<Address, seq<nat>> := map[];
    NoneSeen();
    assert vs[..0] == [];
    for i := 0 to |arns|
      invariant entries[..i] == vs[..i] && SeenIs(seen, vs[..i])
      invariant forall k | 0 <= k < i :: !vs[k].Raises?
    {
      var v := PlanOne(arns[i], TagOf(tags, arns[i]), prefix);
      if v.Raises? {
        OneRaises(orphans, tags, prefix, i);
        return Raised;
      }
      entries[i] := v;
      OneMoreVerdict(seen, vs[..i], v);
      assert vs[..i + 1] == vs[..i] + [v] && entries[..i + 1] == entries[..i] + [v];
      if v.Adopt? { seen := seen[v.address := (if v.address in seen then seen[v.address] else []) + [i]]; }
    }
    assert entries[..] == entries[..|arns|] && vs[..|arns|] == vs;
    NoneRaises(orphans, tags, prefix);
    Resolve(entries, seen);
    var adopt := Parents(arns, entries[..]);
    r := Ok(Plan(adopt + AllAccompanying(adopt, prefix), Left(arns, entries[..])));
  }

  lemma NoneSeen()
    ensures SeenIs(map[], [])
  {
  }

  lemma OneRaises(orphans: seq<string>, tags: map<string, string>, prefix: string, i: nat)
    requires i < |Sorted(orphans)| && VerdictsOf(Sorted(orphans), tags, prefix)[i].Raises?
    ensures AnyUnnamable(orphans)
  {
    hide PlanOne, Sorted, Unnamable;
    SortedKeeps(orphans);
    var x := Sorted(orphans)[i];
    assert x in Sorted(orphans);
    RaisesExactly(x, TagOf(tags, x), prefix);
  }

  lemma NoneRaises(orphans: seq<string>, tags: map<string, string>, prefix: string)
    requires var vs := VerdictsOf(Sorted(orphans), tags, prefix); forall k | 0 <= k < |vs| :: !vs[k].Raises?
    ensures !AnyUnnamable(orphans)
  {
    hide PlanOne, Sorted, Unnamable;
    SortedKeeps(orphans);
    var arns := Sorted(orphans);
    forall x | x in orphans ensures !Unnamable(x) {
      RaisesExactly(x, TagOf(tags, x), prefix);
      assert x in arns;
      var k :| 0 <= k < |arns| && arns[k] == x;
      assert !VerdictsOf(arns, tags, prefix)[k].Raises?;
    }
  }
}
