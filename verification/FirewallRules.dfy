/** How a cluster's firewall rules get their names and contents (cloud/scope/firewall.go). */
module FirewallRules {
  import opened Text

  datatype Descriptor = Descriptor(protocol: string, ports: seq<string>)

  /** A rule as the user writes it; an empty name or description is an absent one. */
  datatype RuleSpec = RuleSpec(
    name: string, description: string, direction: string, priority: int, allowed: seq<Descriptor>,
    denied: seq<Descriptor>, sourceRanges: seq<string>, sourceTags: seq<string>, targetTags: seq<string>)

  datatype Firewall = Firewall(
    name: string, description: string, network: string, direction: string, priority: int, allowed: seq<Descriptor>,
    denied: seq<Descriptor>, sourceRanges: seq<string>, sourceTags: seq<string>, targetTags: seq<string>)

  function Min(a: nat, b: nat): nat { if a < b then a else b }

  function TrimDash(s: string): string { if s != "" && s[|s| - 1] == '-' then s[..|s| - 1] else s }

  function Cut(s: string): string { TrimDash(s[..Min(|s|, 63)]) }

  /** The name before it is cut. */
  function FullName(cluster: string, rule: RuleSpec): string {
    if rule.name == "" then cluster + "-" + Lower(Upper(rule.direction))
    else if HasPrefix(rule.name, cluster) then rule.name
    else cluster + "-" + rule.name
  }

  function RuleName(cluster: string, rule: RuleSpec): string { Cut(FullName(cluster, rule)) }

  function LowerProtocols(ds: seq<Descriptor>): seq<Descriptor> {
    seq(|ds|, i requires 0 <= i < |ds| => Descriptor(Lower(ds[i].protocol), ds[i].ports))
  }

  const CreatedBy: string := "Created by Cluster API GCP Provider"

  function UserRule(cluster: string, network: string, rule: RuleSpec): Firewall {
    Firewall(
      RuleName(cluster, rule), if rule.description == "" then CreatedBy else rule.description, network,
      Upper(rule.direction), rule.priority, LowerProtocols(rule.allowed), LowerProtocols(rule.denied),
      rule.sourceRanges, rule.sourceTags, rule.targetTags)
  }

  function HealthCheckRule(cluster: string, network: string): Firewall {
    Firewall(
      "allow-" + cluster + "-healthchecks", "", network, "INGRESS", 0, [Descriptor("TCP", ["6443"])], [],
      ["35.191.0.0/16", "130.211.0.0/22"], [], [cluster + "-control-plane"])
  }

  function ClusterRule(cluster: string, network: string): Firewall {
    var tags := [cluster + "-control-plane", cluster + "-node"];
    Firewall("allow-" + cluster + "-cluster", "", network, "INGRESS", 0, [Descriptor("all", [])], [], [], tags, tags)
  }

  function DefaultRules(cluster: string, network: string, policy: string): seq<Firewall> {
    if policy == "Unmanaged" then [] else [HealthCheckRule(cluster, network), ClusterRule(cluster, network)]
  }

  function RulesFor(cluster: string, network: string, policy: string, rules: seq<RuleSpec>): seq<Firewall> {
    DefaultRules(cluster, network, policy) +
    seq(|rules|, i requires 0 <= i < |rules| => UserRule(cluster, network, rules[i]))
  }

  method Convert(ds: seq<Descriptor>) returns (r: seq<Descriptor>)
    ensures r == LowerProtocols(ds)
  {
    r := [];
    for i := 0 to |ds|
      invariant r == LowerProtocols(ds[..i])
    {
      r := r + [Descriptor(Lower(ds[i].protocol), ds[i].ports)];
    }
    assert ds[..|ds|] == ds;
  }

  method MakeRule(cluster: string, network: string, rule: RuleSpec) returns (made: Firewall)
    ensures made == UserRule(cluster, network, rule)
  {
    hide LowerProtocols, Lower, Upper;
    var allowed := Convert(rule.allowed);
    var denied := Convert(rule.denied);
    var direction := Upper(rule.direction);
    var name := cluster + "-" + Lower(direction);
    if rule.name != "" {
      name := rule.name;
      if !HasPrefix(name, cluster) {
        name := cluster + "-" + name;
      }
    }
    name := name[..Min(|name|, 63)];
    name := TrimDash(name);
    var description := rule.description;
    if description == "" {
      description := CreatedBy;
    }
    made := Firewall(name, description, network, direction, rule.priority, allowed, denied, rule.sourceRanges,
                     rule.sourceTags, rule.targetTags);
  }

  method CreateFirewallRules(cluster: string, network: string, policy: string, rules: seq<RuleSpec>)
    returns (r: seq<Firewall>)
    ensures r == RulesFor(cluster, network, policy, rules)
  {
    hide UserRule, HealthCheckRule, ClusterRule;
    r := [];
    if policy != "Unmanaged" {
      r := r + [HealthCheckRule(cluster, network), ClusterRule(cluster, network)];
    }
    for i := 0 to |rules|
      invariant r == RulesFor(cluster, network, policy, rules[..i])
    {
      var made := MakeRule(cluster, network, rules[i]);
      r := r + [made];
    }
    assert rules[..|rules|] == rules;
  }

  // ----- names -----

  /** A name that a cluster can have: it fits into a rule's name and does not end in a dash. */
  ghost predicate ClusterName(cluster: string) {
    |cluster| <= 63 && (cluster != "" ==> cluster[|cluster| - 1] != '-')
  }

  /** Every name fits; one that was short enough is cut by at most one closing dash. */
  lemma NamesFit(cluster: string, rule: RuleSpec)
    ensures |RuleName(cluster, rule)| <= 63
    ensures var full := FullName(cluster, rule);
      |full| <= 63 ==> RuleName(cluster, rule) == full || RuleName(cluster, rule) + "-" == full
  {
    var full := FullName(cluster, rule);
    if |full| <= 63 { assert full[..|full|] == full; }
  }

  lemma CutKeepsPrefix(cluster: string, full: string)
    requires ClusterName(cluster) && cluster <= full
    ensures cluster <= Cut(full)
  {
    var cut := full[..Min(|full|, 63)];
    assert cluster <= cut;
    if |cluster| == |cut| { assert cut == cluster; }
  }

  /** Every user rule of a cluster carries a name that begins with the cluster's. */
  lemma NamesBegin(cluster: string, rule: RuleSpec)
    requires ClusterName(cluster)
    ensures cluster <= RuleName(cluster, rule)
  {
    CutKeepsPrefix(cluster, FullName(cluster, rule));
  }

  /** Two named rules of a cluster want one name exactly if they are named alike, or one spells the cluster out. */
  lemma RulesMeetIff(cluster: string, a: RuleSpec, b: RuleSpec)
    requires a.name != "" && b.name != ""
    ensures FullName(cluster, a) == FullName(cluster, b) <==>
      || a.name == b.name
      || (!HasPrefix(b.name, cluster) && a.name == cluster + "-" + b.name)
      || (!HasPrefix(a.name, cluster) && b.name == cluster + "-" + a.name)
  {
    var x, y := cluster + "-" + a.name, cluster + "-" + b.name;
    assert x[|cluster| + 1..] == a.name && y[|cluster| + 1..] == b.name;
    assert cluster <= x && cluster <= y;
  }

  /** Rules without a name meet exactly if they have one direction, letter case aside. */
  lemma UnnamedMeetIff(cluster: string, a: RuleSpec, b: RuleSpec)
    requires a.name == "" && b.name == ""
    ensures FullName(cluster, a) == FullName(cluster, b) <==> EqualFold(a.direction, b.direction)
  {
    var x, y := Lower(Upper(a.direction)), Lower(Upper(b.direction));
    UpperFolds(a.direction);
    UpperFolds(b.direction);
    assert (cluster + "-" + x)[|cluster| + 1..] == x && (cluster + "-" + y)[|cluster| + 1..] == y;
  }

  // ----- contents -----

  /** What the rules for a cluster are, position by position. */
  lemma RulesSay(cluster: string, network: string, policy: string, rules: seq<RuleSpec>)
    ensures var r := RulesFor(cluster, network, policy, rules); var n := if policy == "Unmanaged" then 0 else 2;
      && |r| == n + |rules|
      && (n == 2 ==>
            && r[0].name == "allow-" + cluster + "-healthchecks" && r[0].allowed == [Descriptor("TCP", ["6443"])]
            && r[0].sourceRanges == ["35.191.0.0/16", "130.211.0.0/22"] && r[0].sourceTags == []
            && r[0].targetTags == [cluster + "-control-plane"]
            && r[1].name == "allow-" + cluster + "-cluster" && r[1].allowed == [Descriptor("all", [])]
            && r[1].sourceTags == r[1].targetTags == [cluster + "-control-plane", cluster + "-node"]
            && r[1].sourceRanges == [] && r[0].denied == r[1].denied == []
            && r[0].direction == r[1].direction == "INGRESS" && r[0].network == r[1].network == network)
      && (forall i :: 0 <= i < |rules| ==>
            var made := r[n + i];
            && made.network == network && made.priority == rules[i].priority
            && EqualFold(made.direction, rules[i].direction)
            && made.description == (if rules[i].description != "" then rules[i].description
                                    else "Created by Cluster API GCP Provider")
            && Converted(rules[i].allowed, made.allowed) && Converted(rules[i].denied, made.denied)
            && made.sourceRanges == rules[i].sourceRanges && made.sourceTags == rules[i].sourceTags
            && made.targetTags == rules[i].targetTags && made.name == RuleName(cluster, rules[i]))
  {
    hide Lower, Upper, Cut, FullName;
    var r, n := RulesFor(cluster, network, policy, rules), if policy == "Unmanaged" then 0 else 2;
    forall i | 0 <= i < |rules| ensures EqualFold(r[n + i].direction, rules[i].direction) {
      UpperFolds(rules[i].direction);
    }
  }

  /** The same protocols, in lower case, with the same ports. */
  ghost predicate Converted(ds: seq<Descriptor>, made: seq<Descriptor>) {
    && |made| == |ds|
    && forall i :: 0 <= i < |ds| ==> made[i].protocol == Lower(ds[i].protocol) && made[i].ports == ds[i].ports
  }

  // ----- two clusters -----

  ghost predicate NamedBy(cluster: string, name: string) {
    exists network, policy, rules, i ::
      0 <= i < |RulesFor(cluster, network, policy, rules)| && RulesFor(cluster, network, policy, rules)[i].name == name
  }

  ghost predicate IsDefaultName(cluster: string, name: string) {
    name == "allow-" + cluster + "-healthchecks" || name == "allow-" + cluster + "-cluster"
  }

  /** What a cut leaves: at most 63 characters, and one less if it still ends in a dash. */
  ghost predicate Fits(name: string) { name != "" && |name| <= (if name[|name| - 1] == '-' then 62 else 63) }

  /** The names that rules of a cluster can have: the two default ones, and every fitting one that begins with it. */
  lemma NamedByIff(cluster: string, name: string)
    requires ClusterName(cluster) && cluster != ""
    ensures NamedBy(cluster, name) <==> IsDefaultName(cluster, name) || (cluster <= name && Fits(name))
  {
    if NamedBy(cluster, name) {
      var network, policy, rules, i :|
        0 <= i < |RulesFor(cluster, network, policy, rules)|
        && RulesFor(cluster, network, policy, rules)[i].name == name;
      NamedByOnly(cluster, network, policy, rules, i);
    }
    if IsDefaultName(cluster, name) {
      var r := RulesFor(cluster, "", "", []);
      assert r[0].name == name || r[1].name == name;
    } else if cluster <= name && Fits(name) {
      FittingNameIsMade(cluster, name);
    }
  }

  lemma FittingNameIsMade(cluster: string, name: string)
    requires cluster <= name && Fits(name)
    ensures NamedBy(cluster, name)
  {
    var full := if name[|name| - 1] == '-' then name + "-" else name;
    assert full[..Min(|full|, 63)] == full && Cut(full) == name;
    assert cluster <= full;
    var rules := [RuleSpec(full, "", "", 0, [], [], [], [], [])];
    assert RulesFor(cluster, "", "Unmanaged", rules)[0] == UserRule(cluster, "", rules[0]);
  }

  lemma NamedByOnly(cluster: string, network: string, policy: string, rules: seq<RuleSpec>, i: nat)
    requires ClusterName(cluster) && cluster != "" && i < |RulesFor(cluster, network, policy, rules)|
    ensures var name := RulesFor(cluster, network, policy, rules)[i].name;
      IsDefaultName(cluster, name) || (cluster <= name && Fits(name))
  {
    var n := if policy == "Unmanaged" then 0 else 2;
    if i >= n {
      NamesBegin(cluster, rules[i - n]);
      assert RulesFor(cluster, network, policy, rules)[i].name == RuleName(cluster, rules[i - n]);
    }
  }

  /** One cluster can name a rule like a default one of the other. */
  ghost predicate Claims(c: string, d: string) { exists name :: IsDefaultName(d, name) && c <= name && |name| <= 63 }

  /**
    Two clusters can want one rule name exactly if one's name begins with the other's, or with it begins a default name
    of the other that fits: the source tests the prefix without the dash.
   */
  lemma ClustersMeetIff(c: string, d: string)
    requires ClusterName(c) && ClusterName(d) && c != "" && d != "" && c != d
    ensures (exists name :: NamedBy(c, name) && NamedBy(d, name)) <==> c <= d || d <= c || Claims(c, d) || Claims(d, c)
  {
    hide NamedBy, Claims, ClusterName;
    if name :| NamedBy(c, name) && NamedBy(d, name) { MeetOnly(c, d, name); }
    if c <= d { PrefixMeets(c, d); }
    if d <= c { PrefixMeets(d, c); }
    if Claims(c, d) { ClaimMeets(c, d); }
    if Claims(d, c) { ClaimMeets(d, c); }
  }

  lemma MeetOnly(c: string, d: string, name: string)
    requires ClusterName(c) && ClusterName(d) && c != "" && d != "" && c != d && NamedBy(c, name) && NamedBy(d, name)
    ensures c <= d || d <= c || Claims(c, d) || Claims(d, c)
  {
    hide NamedBy, IsDefaultName, ClusterName;
    NamedByIff(c, name);
    NamedByIff(d, name);
    if IsDefaultName(c, name) && IsDefaultName(d, name) { DefaultsDiffer(c, d, name); }
    if c <= name && d <= name { assert name[..|c|] == c && name[..|d|] == d; }
  }

  lemma PrefixMeets(c: string, d: string)
    requires ClusterName(c) && ClusterName(d) && c != "" && d != "" && c <= d
    ensures NamedBy(c, d) && NamedBy(d, d)
  {
    hide NamedBy;
    assert Fits(d);
    NamedByIff(c, d);
    NamedByIff(d, d);
  }

  lemma ClaimMeets(c: string, d: string)
    requires ClusterName(c) && ClusterName(d) && c != "" && d != "" && Claims(c, d)
    ensures exists name :: NamedBy(c, name) && NamedBy(d, name)
  {
    hide NamedBy;
    var name :| IsDefaultName(d, name) && c <= name && |name| <= 63;
    assert name[|name| - 1] == 's' || name[|name| - 1] == 'r';
    NamedByIff(c, name);
    NamedByIff(d, name);
  }

  lemma DefaultsDiffer(c: string, d: string, name: string)
    requires IsDefaultName(c, name) && IsDefaultName(d, name)
    ensures c == d
  {
    var hc, hd := "allow-" + c + "-healthchecks", "allow-" + d + "-healthchecks";
    var cc, cd := "allow-" + c + "-cluster", "allow-" + d + "-cluster";
    assert hc[6..|hc| - 13] == c && hd[6..|hd| - 13] == d && cc[6..|cc| - 8] == c && cd[6..|cd| - 8] == d;
    assert hc[|hc| - 1] == 's' && hd[|hd| - 1] == 's' && cc[|cc| - 1] == 'r' && cd[|cd| - 1] == 'r';
  }
}
