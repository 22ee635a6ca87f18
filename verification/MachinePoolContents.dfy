/** What stands in a pool's template and manager, and when a round of the pool succeeds. */
module MachinePoolContents {
  import opened CloudApi
  import opened Text
  import opened MachinePools
  import opened MachinePoolRuns
  import opened MachinePoolNeighbours

  // ----- labels -----

  /** The label decides its lower-cased key: none after it has the same one. */
  ghost predicate Decides(ls: seq<Label>, i: int) {
    0 <= i < |ls| && forall j :: i < j < |ls| ==> Lower(ls[j].key) != Lower(ls[i].key)
  }

  lemma {:induction false} LowerLabelsDecided(ls: seq<Label>, k: string)
    requires k in LowerLabels(ls)
    ensures exists i :: Decides(ls, i) && Lower(ls[i].key) == k && LowerLabels(ls)[k] == Lower(ls[i].value)
  {
    hide Lower;
    var rest, last := ls[..|ls| - 1], ls[|ls| - 1];
    assert Decides(ls, |rest|);
    if k != Lower(last.key) {
      LowerLabelsDecided(rest, k);
      var i :| Decides(rest, i) && Lower(rest[i].key) == k && LowerLabels(rest)[k] == Lower(rest[i].value);
      assert forall j :: 0 <= j < |rest| ==> ls[j] == rest[j];
      assert Decides(ls, i);
    }
  }

  lemma DecidesOnce(ls: seq<Label>, i: int, j: int)
    requires Decides(ls, i) && Decides(ls, j) && Lower(ls[i].key) == Lower(ls[j].key)
    ensures i == j
  {
  }

  /** A user label that decides its key is there, lower-cased. */
  lemma LowerLabelsHold(ls: seq<Label>, i: int)
    requires Decides(ls, i)
    ensures Lower(ls[i].key) in LowerLabels(ls) && LowerLabels(ls)[Lower(ls[i].key)] == Lower(ls[i].value)
  {
    assert ls[i] in ls;
    hide Lower, Decides;
    var k := Lower(ls[i].key);
    LoweredKeys(ls, k);
    LowerLabelsDecided(ls, k);
    var j :| Decides(ls, j) && Lower(ls[j].key) == k && LowerLabels(ls)[k] == Lower(ls[j].value);
    DecidesOnce(ls, i, j);
  }

  ghost predicate Reserved(pool: Pool, k: string) {
    k == "capg-cluster-" + pool.cluster || k == "capg-role" || k == "capg-config-hash"
  }

  /**
    What the desired template says: the body as built, the cluster's tag, the role and the hash of its content, and
    beside them the user's labels, lower-cased, the last of equal keys deciding.
   */
  lemma TemplateSays(h: Hashing, pool: Pool)
    requires pool.body.Some?
    ensures var t := DesiredTemplate(h, pool);
      && t.body == pool.body.value
      && (forall k :: Reserved(pool, k) ==> k in t.labels)
      && t.labels["capg-cluster-" + pool.cluster] == "owned" && t.labels["capg-role"] == Lower(pool.role)
      && t.labels["capg-config-hash"] == ContentHash(h, pool)
      && (forall i :: Decides(pool.additional, i) && !Reserved(pool, Lower(pool.additional[i].key)) ==>
            && Lower(pool.additional[i].key) in t.labels
            && t.labels[Lower(pool.additional[i].key)] == Lower(pool.additional[i].value))
      && (forall k :: k in t.labels && !Reserved(pool, k) ==>
            exists i :: Decides(pool.additional, i) && Lower(pool.additional[i].key) == k)
  {
    hide Lower, LowerLabels, ContentHash;
    KeysDiffer(pool.cluster);
    assert Reserved(pool, "capg-cluster-" + pool.cluster) && Reserved(pool, "capg-role");
    assert Reserved(pool, "capg-config-hash");
    var t := DesiredTemplate(h, pool);
    forall i | Decides(pool.additional, i) && !Reserved(pool, Lower(pool.additional[i].key))
      ensures Lower(pool.additional[i].key) in t.labels
      ensures t.labels[Lower(pool.additional[i].key)] == Lower(pool.additional[i].value)
    {
      LowerLabelsHold(pool.additional, i);
    }
    forall k | k in t.labels && !Reserved(pool, k)
      ensures exists i :: Decides(pool.additional, i) && Lower(pool.additional[i].key) == k
    {
      LowerLabelsDecided(pool.additional, k);
    }
  }

  /** A user label claims the pool's templates for a cluster. */
  ghost predicate Claims(pool: Pool, cluster: string) {
    exists i ::
      && Decides(pool.additional, i) && Lower(pool.additional[i].key) == "capg-cluster-" + cluster
      && Lower(pool.additional[i].value) == "owned"
  }

  /** A pool's template counts as owned by its own cluster and by every cluster that a user label names. */
  lemma OwnedByIff(h: Hashing, pool: Pool, cluster: string)
    requires pool.body.Some?
    ensures HasOwned(DesiredTemplate(h, pool).labels, cluster) <==> cluster == pool.cluster || Claims(pool, cluster)
  {
    TemplateSays(h, pool);
    KeysDiffer(cluster);
    var k, t := "capg-cluster-" + cluster, DesiredTemplate(h, pool);
    assert k == "capg-cluster-" + pool.cluster <==> cluster == pool.cluster by {
      assert ("capg-cluster-" + cluster)[13..] == cluster && ("capg-cluster-" + pool.cluster)[13..] == pool.cluster;
    }
    hide Lower, DesiredTemplate, Decides;
    if k in t.labels && cluster != pool.cluster {
      assert !Reserved(pool, k);
      var i :| Decides(pool.additional, i) && Lower(pool.additional[i].key) == k;
      forall j | Decides(pool.additional, j) && Lower(pool.additional[j].key) == k ensures j == i {
        DecidesOnce(pool.additional, i, j);
      }
    }
  }

  /** One label of a pool of another cluster, in place, keeps every pool of this cluster from being deleted. */
  lemma ClaimBlocksDelete(h: Hashing, c: Compute, holder: Pool, moves: seq<Move>, pool: Pool, names: seq<string>)
    requires InPlace(h, holder, c) && Claims(holder, pool.cluster) && Another(pool, holder)
    requires forall m :: m in moves ==> Another(m.pool, holder)
    requires Listing(Run(h, c, moves), names)
    ensures !DeletePool(pool, names, Run(h, c, moves)).1
  {
    hide Run, DeletePool, Listing, KeyOf, TemplateName, DesiredTemplate, Claims;
    OwnedByIff(h, holder, pool.cluster);
    HolderBlocksDelete(h, c, holder, moves, pool, names);
  }

  // ----- names -----

  /** The template is named by the first 46 characters of the pool's name, a dash and the short hash of its content. */
  lemma TemplateNamed(h: Hashing, pool: Pool)
    requires pool.body.Some?
    ensures var prefix := (if |pool.name| <= 46 then pool.name else pool.name[..46]) + "-";
      TemplateName(h, pool) == prefix + h.short(h.digest(prefix, DesiredContent(pool)))
  {
  }

  // ----- the manager -----

  /**
    The manager of a successful round stands in the pool's one zone, under the joined name; it points at the template
    and has as many instances as there are replicas, one by default.  A new one is of that zone and names its
    instances after the pool; one that was there keeps both.
   */
  lemma ManagerSays(pool: Pool, template: string, c: Compute)
    ensures var (c', ok) := ReconcileManager(pool, template, c);
      ok ==>
        && |pool.zones| == 1
        && var key := ManagerKey(pool.zones[0], FullName(pool.cluster, pool.name));
          && key in c'.managers && var m := c'.managers[key];
          && m.template == "global/instanceTemplates/" + template
          && m.targetSize == (if pool.replicas.Some? then pool.replicas.value else 1)
          && (if key in c.managers then m.zoneLink == c.managers[key].zoneLink && m.baseName == c.managers[key].baseName
              else m.zoneLink == "zones/" + pool.zones[0] && m.baseName == pool.name)
  {
    if |pool.zones| == 1 { SplitParts(pool.zones[0], '/'); }
  }

  // ----- success -----

  lemma SpentWorks(c: Compute)
    requires NoFaults(c)
    ensures Fate(c).Works? && NoFaults(Spent(c))
  {
  }

  /** Where no call fails, the template is found unless its properties cannot be built or a foreign hash is in place. */
  lemma TemplateSucceedsIff(h: Hashing, pool: Pool, c: Compute)
    requires NoFaults(c)
    ensures var (c', name) := ReconcileTemplate(h, pool, c);
      && NoFaults(c')
      && (name.Some? <==>
            && pool.body.Some?
            && (TemplateName(h, pool) in c.templates ==>
                  var t := c.templates[TemplateName(h, pool)];
                  HashOf(t) == "" || HashOf(t) == ContentHash(h, pool)))
  {
    hide TemplateName, ContentHash, BuildLabels;
    SpentWorks(c);
    SpentWorks(Spent(c));
    SpentWorks(Spent(Spent(c)));
  }

  lemma FetchWorks(c: Compute, key: ManagerKey, desired: Manager)
    requires NoFaults(c)
    ensures var (c', ok) := FetchManager(c, key, desired); ok && NoFaults(c') && key in c'.managers
  {
    SpentWorks(c);
    SpentWorks(Spent(c));
    SpentWorks(Spent(Spent(c)));
  }

  /** Where no call fails, the manager is put right exactly for a pool of one zone that is a plain name. */
  lemma ManagerSucceedsIff(pool: Pool, template: string, c: Compute)
    requires NoFaults(c)
    ensures ReconcileManager(pool, template, c).1 <==> |pool.zones| == 1 && '/' !in pool.zones[0]
  {
    hide NoFaults, FetchManager, KeyOf;
    if |pool.zones| == 1 {
      SplitParts(pool.zones[0], '/');
      NoneCounted(pool.zones[0], '/');
    }
    match DesiredManager(pool, template)
    case None =>
    case Some((key, desired)) =>
      FetchWorks(c, key, desired);
      var c1 := FetchManager(c, key, desired).0;
      SpentWorks(c1);
      SpentWorks(Resized(c1, key, desired).0);
  }

  lemma {:induction false} NoneCounted(s: string, c: char)
    ensures Count(s, c) == 0 <==> c !in s
  {
    if s != "" { NoneCounted(s[1..], c); }
  }

  /**
    Where no call fails, a pool round succeeds exactly if the properties can be built, no template with another hash
    stands under the name, and the pool has one zone that is a plain name.
   */
  lemma RoundSucceedsIff(h: Hashing, pool: Pool, c: Compute)
    requires NoFaults(c)
    ensures ReconcilePool(h, pool, c).1 <==>
      && pool.body.Some? && |pool.zones| == 1 && '/' !in pool.zones[0]
      && (TemplateName(h, pool) in c.templates ==>
            var t := c.templates[TemplateName(h, pool)];
            HashOf(t) == "" || HashOf(t) == ContentHash(h, pool))
  {
    hide ReconcileTemplate, ReconcileManager, TemplateName, ContentHash, NoFaults;
    TemplateSucceedsIff(h, pool, c);
    var (c1, name) := ReconcileTemplate(h, pool, c);
    if name.Some? { ManagerSucceedsIff(pool, name.value, c1); }
  }
}
