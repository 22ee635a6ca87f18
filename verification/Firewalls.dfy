/**
  The firewall service (cloud/services/compute/firewalls/reconcile.go): rules are made and deleted by name alone, and
  never changed.
 */
module Firewalls {
  import opened CloudApi
  import opened NetworkServices
  import opened FirewallRules

  type Store = map<string, Firewall>

  datatype FirewallRun = FirewallRun(firewalls: Store, faults: seq<Fault>, ok: bool)

  /** Looks every rule up and inserts it if absent; the first error ends the loop. */
  function Ensure(specs: seq<Firewall>, firewalls: Store, faults: seq<Fault>): FirewallRun
    decreases |specs|
  {
    if specs == [] then FirewallRun(firewalls, faults, true)
    else
      var spec, faults1 := specs[0], Later(faults);
      if !First(faults).Works? then FirewallRun(firewalls, faults1, false)
      else if spec.name in firewalls then Ensure(specs[1..], firewalls, faults1)
      else
        var firewalls1 := if First(faults1).FailsBefore? then firewalls else firewalls[spec.name := spec];
        if !First(faults1).Works? then FirewallRun(firewalls1, Later(faults1), false)
        else Ensure(specs[1..], firewalls1, Later(faults1))
  }

  /** Deletes every rule by its name, whoever made it; the first error but not-found ends the loop. */
  function Remove(specs: seq<Firewall>, firewalls: Store, faults: seq<Fault>): FirewallRun
    decreases |specs|
  {
    if specs == [] then FirewallRun(firewalls, faults, true)
    else
      var firewalls1 := if First(faults).FailsBefore? then firewalls else firewalls - {specs[0].name};
      if !First(faults).Works? then FirewallRun(firewalls1, Later(faults), false)
      else Remove(specs[1..], firewalls1, Later(faults))
  }

  function ReconcileRules(shared: bool, specs: seq<Firewall>, firewalls: Store, faults: seq<Fault>): FirewallRun {
    if shared then FirewallRun(firewalls, faults, true) else Ensure(specs, firewalls, faults)
  }

  function DeleteRules(shared: bool, specs: seq<Firewall>, firewalls: Store, faults: seq<Fault>): FirewallRun {
    if shared then FirewallRun(firewalls, faults, true) else Remove(specs, firewalls, faults)
  }

  class FirewallService {
    const cl: Networks.Cluster
    const specs: seq<Firewall>
    var firewalls: Store
    var faults: seq<Fault>

    constructor (cl: Networks.Cluster, specs: seq<Firewall>, firewalls: Store, faults: seq<Fault>)
      ensures this.cl == cl && this.specs == specs && this.firewalls == firewalls && this.faults == faults
    {
      this.cl, this.specs, this.firewalls, this.faults := cl, specs, firewalls, faults;
    }

    method Take() returns (fault: Fault)
      modifies this`faults
      ensures fault == First(old(faults)) && faults == Later(old(faults))
    {
      fault := First(faults);
      faults := Later(faults);
    }

    method ReconcileFirewalls() returns (ok: bool)
      modifies this
      ensures FirewallRun(firewalls, faults, ok) == ReconcileRules(cl.sharedVpc, specs, old(firewalls), old(faults))
    {
      if cl.sharedVpc { return true; }
      for i := 0 to |specs|
        invariant Ensure(specs, old(firewalls), old(faults)) == Ensure(specs[i..], firewalls, faults)
      {
        var spec := specs[i];
        assert specs[i..][0] == spec && specs[i..][1..] == specs[i + 1..];
        var fault := Take();
        if !fault.Works? { return false; }
        if spec.name !in firewalls {
          fault := Take();
          if !fault.FailsBefore? {
            firewalls := firewalls[spec.name := spec];
          }
          if !fault.Works? { return false; }
        }
      }
      ok := true;
    }

    method DeleteFirewalls() returns (ok: bool)
      modifies this
      ensures FirewallRun(firewalls, faults, ok) == DeleteRules(cl.sharedVpc, specs, old(firewalls), old(faults))
    {
      if cl.sharedVpc { return true; }
      for i := 0 to |specs|
        invariant Remove(specs, old(firewalls), old(faults)) == Remove(specs[i..], firewalls, faults)
      {
        assert specs[i..][0] == specs[i] && specs[i..][1..] == specs[i + 1..];
        var fault := Take();
        if !fault.FailsBefore? {
          firewalls := firewalls - {specs[i].name};
        }
        if !fault.Works? { return false; }
      }
      ok := true;
    }
  }

  // ----- what a call does to the store -----

  ghost function NamesOf(specs: seq<Firewall>): set<string> { set s | s in specs :: s.name }

  /** The first of the rules that has this name. */
  ghost predicate FirstNamed(specs: seq<Firewall>, i: int, name: string) {
    0 <= i < |specs| && specs[i].name == name && forall j :: 0 <= j < i ==> specs[j].name != name
  }

  /** Whatever fails, existing rules stay as they are. */
  lemma {:induction false} EnsureKeeps(specs: seq<Firewall>, firewalls: Store, faults: seq<Fault>, name: string)
    requires name in firewalls
    ensures var after := Ensure(specs, firewalls, faults).firewalls; name in after && after[name] == firewalls[name]
    decreases |specs|
  {
    if specs != [] {
      var spec, rest := specs[0], specs[1..];
      EnsureKeeps(rest, firewalls, Later(faults), name);
      if spec.name != name { EnsureKeeps(rest, firewalls[spec.name := spec], Later(Later(faults)), name); }
    }
  }

  /** Success means every wanted name is there and no other is new. */
  lemma {:induction false} EnsureNames(specs: seq<Firewall>, firewalls: Store, faults: seq<Fault>)
    requires Ensure(specs, firewalls, faults).ok
    ensures Ensure(specs, firewalls, faults).firewalls.Keys == firewalls.Keys + NamesOf(specs)
    decreases |specs|
  {
    if specs != [] {
      var spec, rest := specs[0], specs[1..];
      assert specs == [spec] + rest;
      assert NamesOf(specs) == {spec.name} + NamesOf(rest);
      if spec.name in firewalls {
        EnsureNames(rest, firewalls, Later(faults));
      } else {
        EnsureNames(rest, firewalls[spec.name := spec], Later(Later(faults)));
      }
    }
  }

  lemma {:induction false} EnsureFaultless(specs: seq<Firewall>, firewalls: Store, faults: seq<Fault>)
    requires Faultless(faults)
    ensures Ensure(specs, firewalls, faults).ok
    decreases |specs|
  {
    if specs != [] {
      var spec, rest := specs[0], specs[1..];
      if spec.name in firewalls {
        EnsureFaultless(rest, firewalls, Later(faults));
      } else {
        EnsureFaultless(rest, firewalls[spec.name := spec], Later(Later(faults)));
      }
    }
  }

  /**
    Whatever fails, existing rules stay as they are; success means every wanted name is there and no other is new, and
    where no call fails there is success.
   */
  lemma EnsureDoes(specs: seq<Firewall>, firewalls: Store, faults: seq<Fault>)
    ensures var r := Ensure(specs, firewalls, faults);
      && (forall n :: n in firewalls ==> n in r.firewalls && r.firewalls[n] == firewalls[n])
      && (r.ok ==> r.firewalls.Keys == firewalls.Keys + NamesOf(specs))
      && (Faultless(faults) ==> r.ok)
  {
    hide Ensure, NamesOf, Faultless;
    forall n | n in firewalls
      ensures var after := Ensure(specs, firewalls, faults).firewalls; n in after && after[n] == firewalls[n]
    {
      EnsureKeeps(specs, firewalls, faults, n);
    }
    if Ensure(specs, firewalls, faults).ok { EnsureNames(specs, firewalls, faults); }
    if Faultless(faults) { EnsureFaultless(specs, firewalls, faults); }
  }

  /** Whatever fails, a new rule is the first of those wanted under its name. */
  lemma {:induction false} EnsureMakes(specs: seq<Firewall>, firewalls: Store, faults: seq<Fault>, name: string)
    requires name !in firewalls && name in Ensure(specs, firewalls, faults).firewalls
    ensures exists i :: FirstNamed(specs, i, name) && Ensure(specs, firewalls, faults).firewalls[name] == specs[i]
    decreases |specs|
  {
    var spec, rest, faults1 := specs[0], specs[1..], Later(faults);
    if spec.name == name {
      assert FirstNamed(specs, 0, name);
      EnsureKeeps(rest, firewalls[name := spec], Later(faults1), name);
    } else {
      var firewalls1 := if spec.name in firewalls then firewalls else firewalls[spec.name := spec];
      var faults2 := if spec.name in firewalls then faults1 else Later(faults1);
      EnsureMakes(rest, firewalls1, faults2, name);
      var i :| FirstNamed(rest, i, name) && Ensure(rest, firewalls1, faults2).firewalls[name] == rest[i];
      LaterNamed(specs, i, name);
    }
  }

  lemma LaterNamed(specs: seq<Firewall>, i: int, name: string)
    requires specs != [] && specs[0].name != name && FirstNamed(specs[1..], i, name)
    ensures FirstNamed(specs, i + 1, name) && specs[i + 1] == specs[1..][i]
  {
    forall j | 0 <= j < i + 1 ensures specs[j].name != name {
      if j > 0 { assert specs[j] == specs[1..][j - 1]; }
    }
  }

  /** Whatever fails, only wanted names go; success means exactly those, and where no call fails there is success. */
  lemma {:induction false} RemoveDoes(specs: seq<Firewall>, firewalls: Store, faults: seq<Fault>)
    ensures var r := Remove(specs, firewalls, faults);
      && (forall n :: n in r.firewalls ==> n in firewalls && r.firewalls[n] == firewalls[n])
      && (forall n :: n in firewalls && n !in r.firewalls ==> n in NamesOf(specs))
      && (r.ok ==> r.firewalls == firewalls - NamesOf(specs))
      && (Faultless(faults) ==> r.ok)
    decreases |specs|
  {
    if specs != [] {
      var spec, rest := specs[0], specs[1..];
      assert specs == [spec] + rest;
      assert NamesOf(specs) == {spec.name} + NamesOf(rest);
      RemoveDoes(rest, if First(faults).FailsBefore? then firewalls else firewalls - {spec.name}, Later(faults));
    }
  }

  // ----- across calls -----

  /**
    After a successful Reconcile the wanted rule `i` is in force exactly if it stood there before, or nothing stood
    under its name and the first rule wanted under it is the same: a later one of that name is silently left out.
   */
  lemma InForceIff(specs: seq<Firewall>, firewalls: Store, faults: seq<Fault>, i: nat)
    requires i < |specs| && Ensure(specs, firewalls, faults).ok
    ensures var name := specs[i].name; var after := Ensure(specs, firewalls, faults).firewalls;
      && name in after
      && (after[name] == specs[i] <==>
            if name in firewalls then firewalls[name] == specs[i]
            else exists j :: FirstNamed(specs, j, name) && specs[j] == specs[i])
  {
    EnsureDoes(specs, firewalls, faults);
    var name := specs[i].name;
    assert specs[i] in specs;
    assert name in NamesOf(specs);
    if name !in firewalls {
      EnsureMakes(specs, firewalls, faults, name);
      var k :| FirstNamed(specs, k, name) && Ensure(specs, firewalls, faults).firewalls[name] == specs[k];
      forall j | FirstNamed(specs, j, name) ensures j == k {
      }
    }
  }

  /**
    Delete inverts Reconcile, with its exact condition: wanting `before` at first and `after` in the end, the store is
    as it was if and only if every rule that was made is still wanted and none wanted in the end was there at first.
   */
  lemma DeleteInvertsIff(before: seq<Firewall>, after: seq<Firewall>, firewalls: Store, faults: seq<Fault>)
    ensures var made := Ensure(before, firewalls, faults); var left := Remove(after, made.firewalls, made.faults);
      made.ok && left.ok ==>
        (left.firewalls == firewalls <==>
           NamesOf(before) - firewalls.Keys <= NamesOf(after) && NamesOf(after) !! firewalls.Keys)
  {
    EnsureDoes(before, firewalls, faults);
    var made := Ensure(before, firewalls, faults);
    RemoveDoes(after, made.firewalls, made.faults);
    var left := Remove(after, made.firewalls, made.faults);
    if made.ok && left.ok {
      if NamesOf(before) - firewalls.Keys <= NamesOf(after) && NamesOf(after) !! firewalls.Keys {
        assert left.firewalls.Keys == firewalls.Keys;
      }
      if left.firewalls == firewalls {
        assert left.firewalls.Keys == made.firewalls.Keys - NamesOf(after);
      }
    }
  }

  // ----- runs of several clusters -----

  datatype Move = Move(cl: Networks.Cluster, specs: seq<Firewall>, deleting: bool, faults: seq<Fault>)

  function Step(firewalls: Store, m: Move): Store {
    if m.deleting then DeleteRules(m.cl.sharedVpc, m.specs, firewalls, m.faults).firewalls
    else ReconcileRules(m.cl.sharedVpc, m.specs, firewalls, m.faults).firewalls
  }

  ghost function Run(firewalls: Store, moves: seq<Move>): Store {
    if moves == [] then firewalls else Step(Run(firewalls, moves[..|moves| - 1]), moves[|moves| - 1])
  }

  lemma StepSpares(firewalls: Store, m: Move, name: string)
    requires m.cl.sharedVpc || name !in NamesOf(m.specs)
    ensures (name in Step(firewalls, m) <==> name in firewalls)
    ensures name in firewalls ==> Step(firewalls, m)[name] == firewalls[name]
  {
    EnsureDoes(m.specs, firewalls, m.faults);
    RemoveDoes(m.specs, firewalls, m.faults);
    if !m.cl.sharedVpc && !m.deleting && name !in firewalls && name in Step(firewalls, m) {
      EnsureMakes(m.specs, firewalls, m.faults, name);
    }
  }

  /** No run, whatever fails, touches a rule whose name none of its movers wants outside a shared VPC. */
  lemma {:induction false} RunSpares(firewalls: Store, moves: seq<Move>, name: string)
    requires forall m :: m in moves ==> m.cl.sharedVpc || name !in NamesOf(m.specs)
    ensures name in Run(firewalls, moves) <==> name in firewalls
    ensures name in firewalls ==> Run(firewalls, moves)[name] == firewalls[name]
    decreases |moves|
  {
    hide Step, NamesOf;
    if moves != [] {
      assert moves[|moves| - 1] in moves;
      RunSpares(firewalls, moves[..|moves| - 1], name);
      StepSpares(Run(firewalls, moves[..|moves| - 1]), moves[|moves| - 1], name);
    }
  }

  /** The rules of a cluster, whatever its network, policy and user rules. */
  ghost predicate RulesOf(cluster: string, specs: seq<Firewall>) {
    exists network, policy, rules :: specs == RulesFor(cluster, network, policy, rules)
  }

  /**
    Clusters that cannot meet in a name never touch each other's rules, whatever rules their users write and whatever
    fails.
   */
  lemma ClustersApart(firewalls: Store, moves: seq<Move>, cluster: string, name: string)
    requires ClusterName(cluster) && cluster != "" && NamedBy(cluster, name)
    requires forall m :: m in moves ==>
               && RulesOf(m.cl.name, m.specs) && ClusterName(m.cl.name) && m.cl.name != "" && m.cl.name != cluster
               && !(cluster <= m.cl.name) && !(m.cl.name <= cluster)
               && !FirewallRules.Claims(cluster, m.cl.name) && !FirewallRules.Claims(m.cl.name, cluster)
    ensures name in Run(firewalls, moves) <==> name in firewalls
    ensures name in firewalls ==> Run(firewalls, moves)[name] == firewalls[name]
  {
    hide Run, NamedBy, FirewallRules.Claims, ClusterName;
    forall m | m in moves ensures name !in NamesOf(m.specs) {
      ClustersMeetIff(cluster, m.cl.name);
      if name in NamesOf(m.specs) { WantedIsNamed(m.cl.name, m.specs, name); }
    }
    RunSpares(firewalls, moves, name);
  }

  lemma WantedIsNamed(cluster: string, specs: seq<Firewall>, name: string)
    requires RulesOf(cluster, specs) && name in NamesOf(specs)
    ensures NamedBy(cluster, name)
  {
    var network, policy, rules :| specs == RulesFor(cluster, network, policy, rules);
    var s :| s in specs && s.name == name;
    var i :| 0 <= i < |specs| && specs[i] == s;
    assert RulesFor(cluster, network, policy, rules)[i].name == name;
  }

  /** The name decides: whoever made a rule, a cluster that can want its name has rules whose Delete takes it away. */
  lemma MeetingClustersClash(cluster: string, name: string, firewalls: Store)
    requires NamedBy(cluster, name) && name in firewalls
    ensures exists specs :: RulesOf(cluster, specs) && name !in DeleteRules(false, specs, firewalls, []).firewalls
  {
    var network, policy, rules, i :|
      && 0 <= i < |RulesFor(cluster, network, policy, rules)|
      && RulesFor(cluster, network, policy, rules)[i].name == name;
    var specs := RulesFor(cluster, network, policy, rules);
    assert RulesOf(cluster, specs) && specs[i] in specs;
    RemoveDoes(specs, firewalls, []);
  }
}
