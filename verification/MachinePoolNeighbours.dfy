/**
  Pools beside each other: which pools share an instance group manager, and what the moves of other pools, of this
  cluster or of another, leave alone.
 */
module MachinePoolNeighbours {
  import opened Text
  import opened MachinePools
  import opened MachinePoolRuns

  // ----- the manager's key -----

  function FullName(cluster: string, name: string): string { cluster + "-" + name }

  /** Two pools meet in one manager exactly if they have the zone and the joined name in common. */
  lemma SameKeyIff(p: Pool, q: Pool)
    requires |p.zones| == 1 && |q.zones| == 1
    ensures KeyOf(p) == KeyOf(q) <==>
              p.zones == q.zones && FullName(p.cluster, p.name) == FullName(q.cluster, q.name)
  {
    assert p.zones == [p.zones[0]] && q.zones == [q.zones[0]];
  }

  /** Within a cluster the name and the zone tell pools apart. */
  lemma SameClusterKeys(p: Pool, q: Pool)
    requires |p.zones| == 1 && |q.zones| == 1 && p.cluster == q.cluster
    ensures KeyOf(p) == KeyOf(q) <==> p.zones == q.zones && p.name == q.name
  {
    SameKeyIff(p, q);
    FullNameCancels(p.cluster, p.name, q.name);
  }

  lemma FullNameCancels(cluster: string, a: string, b: string)
    ensures FullName(cluster, a) == FullName(cluster, b) <==> a == b
  {
    assert FullName(cluster, a)[|cluster| + 1..] == a && FullName(cluster, b)[|cluster| + 1..] == b;
  }

  /** Pools of two clusters can meet exactly if one cluster is named after the other, with a dash between. */
  lemma ClustersMeetIff(c: string, d: string)
    requires c != d
    ensures (exists a, b :: FullName(c, a) == FullName(d, b)) <==> c + "-" <= d || d + "-" <= c
  {
    if a, b :| FullName(c, a) == FullName(d, b) {
      ClustersMeetOnly(c, a, d, b);
    }
    if c + "-" <= d {
      var a, b := ClustersDoMeet(c, d);
    }
    if d + "-" <= c {
      var a, b := ClustersDoMeet(d, c);
      assert FullName(c, b) == FullName(d, a);
    }
  }

  lemma ClustersMeetOnly(c: string, a: string, d: string, b: string)
    requires c != d && FullName(c, a) == FullName(d, b)
    ensures c + "-" <= d || d + "-" <= c
  {
    var s := FullName(c, a);
    assert s[..|c|] == c && s[|c|] == '-' && s[..|d|] == d && s[|d|] == '-';
    if |c| < |d| {
      assert s[..|c| + 1] == c + "-" && d[..|c| + 1] == s[..|c| + 1];
    } else if |d| < |c| {
      assert s[..|d| + 1] == d + "-" && c[..|d| + 1] == s[..|d| + 1];
    }
  }

  lemma ClustersDoMeet(c: string, d: string) returns (a: string, b: string)
    requires c + "-" <= d
    ensures FullName(c, a) == FullName(d, b)
  {
    b := "pool";
    a := d[|c| + 1..] + "-" + b;
    assert d == c + "-" + d[|c| + 1..];
  }

  /** Another pool: of this cluster under another name, or of another cluster and not named the same when joined. */
  ghost predicate Another(q: Pool, p: Pool) {
    if q.cluster == p.cluster then q.name != p.name else FullName(q.cluster, q.name) != FullName(p.cluster, p.name)
  }

  lemma AnotherSpares(m: Move, pool: Pool)
    requires |pool.zones| == 1 && Another(m.pool, pool)
    ensures SparesKey(m, KeyOf(pool))
  {
    if |m.pool.zones| == 1 {
      SameKeyIff(m.pool, pool);
      FullNameCancels(pool.cluster, m.pool.name, pool.name);
    }
  }

  /**
    The condition is needed: where two pools do meet, a round of one that succeeds takes the manager of the other away
    from it, unless they want the same template and size.
   */
  lemma MeetingPoolsClash(h: Hashing, p: Pool, q: Pool, c: Compute)
    requires InPlace(h, p, c) && |q.zones| == 1 && KeyOf(q) == KeyOf(p) && ReconcilePool(h, q, c).1
    ensures InPlace(h, p, ReconcilePool(h, q, c).0) ==>
              TemplateName(h, p) == TemplateName(h, q) && p.replicas.GetOr(1) == q.replicas.GetOr(1)
  {
    hide ReconcileTemplate, ReconcileManager, DesiredTemplate, TemplateName, KeyOf, TemplateLink;
    TemplateRound(h, q, c);
    var (c1, template) := ReconcileTemplate(h, q, c);
    ManagerRound(q, template.value, c1);
    LinksDiffer(TemplateName(h, p), TemplateName(h, q));
  }

  lemma LinksDiffer(a: string, b: string)
    ensures TemplateLink(a) == TemplateLink(b) <==> a == b
  {
    assert TemplateLink(a)[25..] == a && TemplateLink(b)[25..] == b;
  }

  // ----- what other pools leave alone -----

  /** A manager and the template it points at. */
  ghost predicate Holds(c: Compute, k: ManagerKey, m: Manager, n: string, t: Template) {
    k in c.managers && c.managers[k] == m && m.template == TemplateLink(n) && n in c.templates && c.templates[n] == t
  }

  ghost predicate SparesKey(m: Move, k: ManagerKey) { |m.pool.zones| == 1 ==> KeyOf(m.pool) != k }

  lemma OtherManagersStay(pool: Pool, template: string, c: Compute, k: ManagerKey)
    requires k in c.managers && (|pool.zones| == 1 ==> KeyOf(pool) != k)
    ensures var c' := ReconcileManager(pool, template, c).0;
      c'.templates == c.templates && k in c'.managers && c'.managers[k] == c.managers[k]
  {
    hide Split, KeyOf, FetchManager, Resized, Retargeted;
    match DesiredManager(pool, template)
    case None =>
    case Some((key, desired)) =>
      FetchOthers(c, key, desired, k);
      var (c1, ok1) := FetchManager(c, key, desired);
      if ok1 && key in c1.managers {
        AdjustOthers(c1, key, desired, k);
        var (c2, ok2) := Resized(c1, key, desired);
        if ok2 { AdjustOthers(c2, key, desired, k); }
      }
  }

  lemma FetchOthers(c: Compute, key: ManagerKey, desired: Manager, k: ManagerKey)
    requires k in c.managers && k != key
    ensures var c' := FetchManager(c, key, desired).0;
      c'.templates == c.templates && k in c'.managers && c'.managers[k] == c.managers[k]
  {
  }

  lemma AdjustOthers(c: Compute, key: ManagerKey, desired: Manager, k: ManagerKey)
    requires key in c.managers && k in c.managers && k != key
    ensures var c' := Resized(c, key, desired).0;
      c'.templates == c.templates && key in c'.managers && k in c'.managers && c'.managers[k] == c.managers[k]
    ensures var c' := Retargeted(c, key, desired).0;
      c'.templates == c.templates && k in c'.managers && c'.managers[k] == c.managers[k]
  {
  }

  /** No move of another pool, whatever fails, takes a manager's template from under it. */
  lemma StepHolds(h: Hashing, c: Compute, move: Move, k: ManagerKey, m: Manager, n: string, t: Template)
    requires Holds(c, k, m, n, t) && SparesKey(move, k)
    ensures Holds(Step(h, c, move).0, k, m, n, t)
  {
    hide TemplateLink, KeyOf;
    match move
    case ReconcileMove(pool) =>
      hide ReconcileTemplate, ReconcileManager;
      TemplateRound(h, pool, c);
      var (c1, template) := ReconcileTemplate(h, pool, c);
      if template.Some? { OtherManagersStay(pool, template.value, c1, k); }
    case DeleteMove(pool, names) =>
      hide DeleteManager, DeleteListed;
      ManagerDeleted(pool, c);
      var c1 := Spent(DeleteManager(pool, c).0);
      assert TemplateInUse(c1, n);
      DeleteListedFacts(pool.cluster, c1.templates, names, c1);
      if n !in DeleteListed(pool.cluster, c1.templates, names, c1).0.templates {
        GoneWasFree(pool.cluster, c1.templates, names, c1, n);
      }
  }

  lemma {:induction false} RunHolds(h: Hashing, c: Compute, moves: seq<Move>, k: ManagerKey, m: Manager, n: string,
                                    t: Template)
    requires Holds(c, k, m, n, t) && (forall move :: move in moves ==> SparesKey(move, k))
    ensures Holds(Run(h, c, moves), k, m, n, t)
    decreases |moves|
  {
    hide Holds, SparesKey, Step;
    if moves != [] {
      var before, last := moves[..|moves| - 1], moves[|moves| - 1];
      assert last in moves;
      RunHolds(h, c, before, k, m, n, t);
      StepHolds(h, Run(h, c, before), last, k, m, n, t);
    }
  }

  ghost predicate SameManager(c: Compute, c': Compute, k: ManagerKey) {
    (k in c.managers <==> k in c'.managers) && (k in c.managers ==> c'.managers[k] == c.managers[k])
  }

  lemma StepSameManager(h: Hashing, c: Compute, m: Move, k: ManagerKey)
    requires SparesKey(m, k)
    ensures SameManager(c, Step(h, c, m).0, k)
  {
    hide KeyOf;
    match m
    case ReconcileMove(pool) =>
      hide ReconcileTemplate, ReconcileManager;
      TemplateRound(h, pool, c);
      var (c1, template) := ReconcileTemplate(h, pool, c);
      if template.Some? { ManagersElsewhere(pool, template.value, c1, k); }
    case DeleteMove(pool, names) =>
      hide DeleteManager, DeleteListed;
      ManagerDeleted(pool, c);
      var c1 := DeleteManager(pool, c).0;
      DeleteListedFacts(pool.cluster, c1.templates, names, Spent(c1));
  }

  lemma ManagersElsewhere(pool: Pool, template: string, c: Compute, k: ManagerKey)
    requires |pool.zones| == 1 ==> KeyOf(pool) != k
    ensures SameManager(c, ReconcileManager(pool, template, c).0, k)
  {
    hide Split, KeyOf;
  }

  /**
    Whatever moves other pools make, of this cluster or of others, and whatever fails, a pool's manager stays as it
    is: neither made, nor changed, nor deleted.
   */
  lemma {:induction false} OthersKeepManager(h: Hashing, c: Compute, moves: seq<Move>, pool: Pool)
    requires |pool.zones| == 1 && forall m :: m in moves ==> Another(m.pool, pool)
    ensures SameManager(c, Run(h, c, moves), KeyOf(pool))
    decreases |moves|
  {
    hide Step, KeyOf, Another, SparesKey;
    if moves != [] {
      var before, last := moves[..|moves| - 1], moves[|moves| - 1];
      assert last in moves;
      OthersKeepManager(h, c, before, pool);
      AnotherSpares(last, pool);
      StepSameManager(h, Run(h, c, before), last, KeyOf(pool));
    }
  }

  /** A pool in place stays in place, with its template, through every run of other pools' moves. */
  lemma OthersLeaveInPlace(h: Hashing, c: Compute, moves: seq<Move>, pool: Pool)
    requires InPlace(h, pool, c) && forall m :: m in moves ==> Another(m.pool, pool)
    ensures InPlace(h, pool, Run(h, c, moves))
  {
    hide Run, KeyOf, Another, SparesKey, TemplateName, DesiredTemplate, TemplateLink;
    forall m | m in moves ensures SparesKey(m, KeyOf(pool)) { AnotherSpares(m, pool); }
    var k, n := KeyOf(pool), TemplateName(h, pool);
    RunHolds(h, c, moves, k, c.managers[k], n, c.templates[n]);
  }

  /**
    Deletion looks at every template labelled for its cluster: while another pool is in place on one, no deletion of
    this pool succeeds, after any run of moves of other pools than that one, with or without faults.
   */
  lemma HolderBlocksDelete(h: Hashing, c: Compute, holder: Pool, moves: seq<Move>, pool: Pool, names: seq<string>)
    requires InPlace(h, holder, c) && HasOwned(DesiredTemplate(h, holder).labels, pool.cluster)
    requires Another(pool, holder) && forall m :: m in moves ==> Another(m.pool, holder)
    requires Listing(Run(h, c, moves), names)
    ensures !DeletePool(pool, names, Run(h, c, moves)).1
  {
    hide Run, DeletePool, TemplateName, DesiredTemplate, TemplateLink, Listing, KeyOf;
    OthersLeaveInPlace(h, c, moves, holder);
    var k, n := KeyOf(holder), TemplateName(h, holder);
    AnotherSpares(DeleteMove(pool, names), holder);
    assert HeldBy(pool, Run(h, c, moves), k, n);
    PoolDeleteSucceedsIff(pool, names, Run(h, c, moves));
  }

  /** So a pool of a cluster is never deleted while one of another name is in place. */
  lemma SiblingBlocksDelete(h: Hashing, c: Compute, sibling: Pool, moves: seq<Move>, pool: Pool, names: seq<string>)
    requires InPlace(h, sibling, c) && sibling.cluster == pool.cluster && sibling.name != pool.name
    requires forall m :: m in moves ==> Another(m.pool, sibling)
    requires Listing(Run(h, c, moves), names)
    ensures !DeletePool(pool, names, Run(h, c, moves)).1
  {
    hide Run, DeletePool, TemplateName, DesiredTemplate, Listing, KeyOf;
    OwnedDesired(h, sibling);
    HolderBlocksDelete(h, c, sibling, moves, pool, names);
  }

  lemma OwnedDesired(h: Hashing, pool: Pool)
    requires pool.body.Some?
    ensures HasOwned(DesiredTemplate(h, pool).labels, pool.cluster)
  {
    BuiltIsOwned(pool.cluster, pool.role, pool.additional, ContentHash(h, pool));
  }
}
