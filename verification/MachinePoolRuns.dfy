/** What holds of the template store and the managers after every round of every run. */
module MachinePoolRuns {
  import opened Text
  import opened MachinePools

  // ----- content addressing -----

  function Strip(t: Template): Template { t.(labels := t.labels - {ConfigHashKey}) }

  /** The template carries the hash of its own content, and its name of at most 63 characters ends in the short form. */
  ghost predicate Authentic(h: Hashing, name: string, t: Template) {
    && 16 <= |name| <= 63 && ConfigHashKey in t.labels
    && t.labels[ConfigHashKey] == h.digest(name[..|name| - 16], Strip(t))
    && name[|name| - 16..] == h.short(t.labels[ConfigHashKey])
  }

  /** No user label uses the key of the hash. */
  ghost predicate LeavesHashKey(pool: Pool) { forall l :: l in pool.additional ==> Lower(l.key) != ConfigHashKey }

  lemma HashKeyFree(pool: Pool)
    requires pool.body.Some?
    ensures LeavesHashKey(pool) <==> ConfigHashKey !in DesiredContent(pool).labels
  {
    KeysDiffer(pool.cluster);
    LoweredKeys(pool.additional, ConfigHashKey);
  }

  lemma NameParts(h: Hashing, pool: Pool)
    requires ShortForms(h) && pool.body.Some?
    ensures var name := TemplateName(h, pool);
      && 16 <= |name| <= 63 && name[..|name| - 16] == BaseName(pool)
      && name[|name| - 16..] == h.short(ContentHash(h, pool))
  {
  }

  /** Without a user label in its place, the hash of an inserted template is that of its own content. */
  lemma InsertedIsAuthentic(h: Hashing, pool: Pool)
    requires ShortForms(h) && pool.body.Some? && LeavesHashKey(pool)
    ensures Authentic(h, TemplateName(h, pool), DesiredTemplate(h, pool))
  {
    NameParts(h, pool);
    HashKeyFree(pool);
    assert Strip(DesiredTemplate(h, pool)).labels == DesiredContent(pool).labels;
  }

  /** What the code inserts is authentic exactly when no user label uses the hash key; owned it is always. */
  lemma InsertedIsAuthenticIff(h: Hashing, pool: Pool)
    requires Collisionless(h) && pool.body.Some?
    ensures Authentic(h, TemplateName(h, pool), DesiredTemplate(h, pool)) <==> LeavesHashKey(pool)
    ensures HasOwned(DesiredTemplate(h, pool).labels, pool.cluster)
    ensures |TemplateName(h, pool)| <= 63
  {
    NameParts(h, pool);
    HashKeyFree(pool);
    BuiltIsOwned(pool.cluster, pool.role, pool.additional, ContentHash(h, pool));
    if LeavesHashKey(pool) {
      InsertedIsAuthentic(h, pool);
    } else {
      assert ConfigHashKey in DesiredContent(pool).labels;
      assert Strip(DesiredTemplate(h, pool)) != DesiredContent(pool);
    }
  }

  /** `base` holds what others put there; a template in it that carries a hash is authentic. */
  ghost predicate Honest(h: Hashing, base: map<string, Template>) {
    forall n :: n in base && HashOf(base[n]) != "" ==> Authentic(h, n, base[n])
  }

  /** Everything in the store is either from `base` or authentic. */
  ghost predicate Genuine(h: Hashing, base: map<string, Template>, templates: map<string, Template>) {
    forall n :: n in templates ==> (n in base && templates[n] == base[n]) || Authentic(h, n, templates[n])
  }

  lemma SameContent(h: Hashing, pool: Pool, t: Template)
    requires Collisionless(h) && pool.body.Some? && LeavesHashKey(pool)
    requires Authentic(h, TemplateName(h, pool), t) && HashOf(t) == ContentHash(h, pool)
    ensures t == DesiredTemplate(h, pool)
  {
    NameParts(h, pool);
    assert Strip(t) == DesiredContent(pool);
    assert t.labels == Strip(t).labels[ConfigHashKey := HashOf(t)];
  }

  lemma CheckedIsDesired(h: Hashing, pool: Pool, t: Template)
    requires Collisionless(h) && pool.body.Some? && LeavesHashKey(pool)
    requires CheckHash(h, pool, t).Some?
    requires HashOf(t) != "" ==> Authentic(h, TemplateName(h, pool), t)
    ensures t == DesiredTemplate(h, pool) <==> HashOf(t) != ""
  {
    if HashOf(t) != "" { SameContent(h, pool, t); }
    assert ContentHash(h, pool) != "";
  }

  /** In the store before the round: another template stands under the name of the desired one. */
  ghost predicate Occupied(h: Hashing, pool: Pool, c: Compute) {
    && pool.body.Some? && TemplateName(h, pool) in c.templates
    && c.templates[TemplateName(h, pool)] != DesiredTemplate(h, pool)
  }

  /** A template without a hash stands there. */
  ghost predicate Unlabelled(h: Hashing, pool: Pool, c: Compute) {
    && pool.body.Some? && TemplateName(h, pool) in c.templates
    && HashOf(c.templates[TemplateName(h, pool)]) == ""
  }

  /** A round keeps every template, adds at most the desired one, and on success finds it unless its place was taken. */
  lemma TemplateRound(h: Hashing, pool: Pool, c: Compute)
    ensures var (c', name) := ReconcileTemplate(h, pool, c);
      && c'.managers == c.managers
      && (forall n :: n in c.templates ==> n in c'.templates && c'.templates[n] == c.templates[n])
      && (forall n :: n in c'.templates && n !in c.templates ==>
            pool.body.Some? && n == TemplateName(h, pool) && c'.templates[n] == DesiredTemplate(h, pool))
      && (name.Some? ==>
            && pool.body.Some? && name.value == TemplateName(h, pool) && name.value in c'.templates
            && (c'.templates[name.value] == DesiredTemplate(h, pool) <==> !Occupied(h, pool, c)))
  {
    hide TemplateName, DesiredTemplate, ContentHash;
  }

  /** Where every labelled template is authentic, success with the place taken means an unlabelled one is in it. */
  lemma OccupiedIffUnlabelled(h: Hashing, pool: Pool, c: Compute)
    requires Collisionless(h) && LeavesHashKey(pool) && Honest(h, c.templates)
    requires ReconcileTemplate(h, pool, c).1.Some?
    ensures Occupied(h, pool, c) <==> Unlabelled(h, pool, c)
  {
    hide BuildLabels, Authentic, TemplateName, DesiredTemplate, ContentHash;
    var name := TemplateName(h, pool);
    if name in c.templates { CheckedIsDesired(h, pool, c.templates[name]); }
  }

  // ----- the manager -----

  lemma FetchFacts(c: Compute, key: ManagerKey, desired: Manager)
    ensures FetchManager(c, key, desired).0.templates == c.templates
    ensures FetchManager(c, key, desired).1 ==> key in FetchManager(c, key, desired).0.managers
  {
  }

  /** A successful manager round: one zone, the wanted template, and as many instances as replicas, one by default. */
  lemma ManagerRound(pool: Pool, template: string, c: Compute)
    ensures var (c', ok) := ReconcileManager(pool, template, c);
      && c'.templates == c.templates
      && (ok ==>
            && |pool.zones| == 1 && KeyOf(pool) in c'.managers
            && c'.managers[KeyOf(pool)].template == TemplateLink(template)
            && c'.managers[KeyOf(pool)].targetSize == pool.replicas.GetOr(1))
  {
    hide FetchManager, Split;
    match DesiredManager(pool, template)
    case None =>
    case Some((key, desired)) => FetchFacts(c, key, desired);
  }

  /** The manager of the pool points at a stored template that is the desired one, and has the wanted size. */
  ghost predicate InPlace(h: Hashing, pool: Pool, c: Compute) {
    && pool.body.Some? && |pool.zones| == 1 && KeyOf(pool) in c.managers && TemplateName(h, pool) in c.templates
    && c.managers[KeyOf(pool)].template == TemplateLink(TemplateName(h, pool))
    && c.managers[KeyOf(pool)].targetSize == pool.replicas.GetOr(1)
    && c.templates[TemplateName(h, pool)] == DesiredTemplate(h, pool)
  }

  /**
    A pool round that succeeds puts the pool in place if and only if its template's place was not taken before the
    round.
   */
  lemma PoolRound(h: Hashing, pool: Pool, c: Compute)
    ensures var (c', ok) := ReconcilePool(h, pool, c);
      && (forall n :: n in c.templates ==> n in c'.templates && c'.templates[n] == c.templates[n])
      && (forall n :: n in c'.templates && n !in c.templates ==>
            pool.body.Some? && n == TemplateName(h, pool) && c'.templates[n] == DesiredTemplate(h, pool))
      && (ok ==>
            && pool.body.Some? && ReconcileTemplate(h, pool, c).1.Some?
            && (InPlace(h, pool, c') <==> !Occupied(h, pool, c)))
  {
    hide ReconcileTemplate, ReconcileManager, DesiredTemplate, TemplateName, Occupied;
    TemplateRound(h, pool, c);
    var (c1, template) := ReconcileTemplate(h, pool, c);
    if template.Some? { ManagerRound(pool, template.value, c1); }
  }

  // ----- deletion -----

  function OwnedOf(cluster: string, listing: map<string, Template>, names: seq<string>): seq<string> {
    if names == [] then []
    else
      var rest, last := OwnedOf(cluster, listing, names[..|names| - 1]), names[|names| - 1];
      if last in listing && HasOwned(listing[last].labels, cluster) then rest + [last] else rest
  }

  lemma DeleteTemplateFacts(c: Compute, name: string)
    ensures var (c', ok) := DeleteTemplate(c, name);
      && c'.managers == c.managers && c'.attempted == c.attempted + [name]
      && (forall n :: n in c'.templates ==> n in c.templates && c'.templates[n] == c.templates[n])
      && (forall n :: n in c.templates && n !in c'.templates ==> n == name)
      && (ok ==> name !in c'.templates)
  {
    hide TemplateInUse;
  }

  lemma {:induction false} DeleteListedFacts(cluster: string, listing: map<string, Template>, names: seq<string>,
                                             c: Compute)
    ensures var (c', ok) := DeleteListed(cluster, listing, names, c);
      && c'.managers == c.managers
      && c'.attempted == c.attempted + OwnedOf(cluster, listing, names)
      && (forall n :: n in c'.templates ==> n in c.templates && c'.templates[n] == c.templates[n])
      && (forall n :: n in c.templates && n !in c'.templates ==> n in listing && HasOwned(listing[n].labels, cluster))
      && (ok ==> forall n :: n in names && n in listing && HasOwned(listing[n].labels, cluster) ==> n !in c'.templates)
    decreases |names|
  {
    hide HasOwned, DeleteTemplate;
    if names != [] {
      var before, last := names[..|names| - 1], names[|names| - 1];
      DeleteListedFacts(cluster, listing, before, c);
      DeleteTemplateFacts(DeleteListed(cluster, listing, before, c).0, last);
      assert names == before + [last];
    }
  }

  ghost predicate NoneOwned(cluster: string, templates: map<string, Template>) {
    forall n :: n in templates ==> !HasOwned(templates[n].labels, cluster)
  }

  /** The listing names every template of the store, in some order. */
  ghost predicate Listing(c: Compute, names: seq<string>) { forall n :: n in names <==> n in c.templates }

  lemma {:induction false} OwnedOfIff(cluster: string, listing: map<string, Template>, names: seq<string>, n: string)
    ensures n in OwnedOf(cluster, listing, names) <==>
              n in names && n in listing && HasOwned(listing[n].labels, cluster)
  {
    hide HasOwned;
    if names != [] {
      OwnedOfIff(cluster, listing, names[..|names| - 1], n);
      assert names == names[..|names| - 1] + [names[|names| - 1]];
    }
  }

  /**
    Template deletion: nil means no owned template is left; only owned ones are ever removed; and unless the
    listing itself failed, every owned template was attempted, whatever went wrong with the others.
   */
  lemma DeleteOwned(cluster: string, names: seq<string>, c: Compute)
    requires Listing(c, names)
    ensures var (c', ok) := DeleteTemplates(cluster, names, c);
      && (ok ==> NoneOwned(cluster, c'.templates))
      && (forall n :: n in c'.templates ==> n in c.templates && c'.templates[n] == c.templates[n])
      && (forall n :: n in c.templates && !HasOwned(c.templates[n].labels, cluster) ==> n in c'.templates)
      && (Fate(c).Works? ==>
            forall n :: n in c.templates && HasOwned(c.templates[n].labels, cluster) ==> n in c'.attempted)
  {
    hide DeleteListed, OwnedOf, HasOwned;
    DeleteListedFacts(cluster, c.templates, names, Spent(c));
    forall n | n in c.templates && HasOwned(c.templates[n].labels, cluster)
      ensures n in OwnedOf(cluster, c.templates, names)
    {
      OwnedOfIff(cluster, c.templates, names, n);
    }
  }

  // ----- runs -----

  datatype Move = ReconcileMove(pool: Pool) | DeleteMove(pool: Pool, names: seq<string>)

  function Step(h: Hashing, c: Compute, m: Move): (Compute, bool) {
    match m
    case ReconcileMove(pool) => ReconcilePool(h, pool, c)
    case DeleteMove(pool, names) => DeletePool(pool, names, c)
  }

  ghost function Run(h: Hashing, c: Compute, moves: seq<Move>): Compute {
    if moves == [] then c else Step(h, Run(h, c, moves[..|moves| - 1]), moves[|moves| - 1]).0
  }

  ghost predicate AllLeaveHashKey(moves: seq<Move>) { forall m :: m in moves ==> LeavesHashKey(m.pool) }

  lemma DeleteGenuine(h: Hashing, base: map<string, Template>, pool: Pool, names: seq<string>, c: Compute)
    requires Genuine(h, base, c.templates)
    ensures Genuine(h, base, DeletePool(pool, names, c).0.templates)
  {
    hide Authentic, DeleteListed;
    var (c1, ok) := DeleteManager(pool, c);
    DeleteListedFacts(pool.cluster, c1.templates, names, Spent(c1));
  }

  lemma RoundGenuine(h: Hashing, base: map<string, Template>, pool: Pool, c: Compute)
    requires ShortForms(h) && LeavesHashKey(pool) && Genuine(h, base, c.templates)
    ensures Genuine(h, base, ReconcilePool(h, pool, c).0.templates)
  {
    hide ReconcilePool, Authentic, TemplateName, DesiredTemplate;
    PoolRound(h, pool, c);
    if pool.body.Some? { InsertedIsAuthentic(h, pool); }
  }

  /**
    Every template that any run of any pools put into the store is authentic, whatever failed and whatever others
    left there.
   */
  lemma {:induction false} StoreIsGenuine(h: Hashing, c: Compute, moves: seq<Move>)
    requires ShortForms(h) && AllLeaveHashKey(moves)
    ensures Genuine(h, c.templates, Run(h, c, moves).templates)
    decreases |moves|
  {
    hide ShortForms, Authentic, ReconcilePool, DeletePool, LeavesHashKey;
    if moves != [] {
      var before, last := moves[..|moves| - 1], moves[|moves| - 1];
      assert last in moves;
      StoreIsGenuine(h, c, before);
      match last
      case ReconcileMove(pool) => RoundGenuine(h, c.templates, pool, Run(h, c, before));
      case DeleteMove(pool, names) => DeleteGenuine(h, c.templates, pool, names, Run(h, c, before));
    }
  }

  /**
    After any run, a pool round that succeeds leaves the pool in place, its manager pointing at a template equal to
    the desired one with the wanted size, if and only if no other template stood under that name before the round.
   */
  lemma RoundPutsPoolInPlaceIff(h: Hashing, c: Compute, moves: seq<Move>, pool: Pool)
    ensures var c0 := Run(h, c, moves); var (c', ok) := ReconcilePool(h, pool, c0);
      ok ==> pool.body.Some? && (InPlace(h, pool, c') <==> !Occupied(h, pool, c0))
  {
    PoolRound(h, pool, Run(h, c, moves));
  }

  /**
    If others labelled their templates truthfully, such a template is one without a hash, and it was there, unchanged,
    before the run.
   */
  lemma HonestRoundPutsPoolInPlaceIff(h: Hashing, c: Compute, moves: seq<Move>, pool: Pool)
    requires Collisionless(h) && Honest(h, c.templates) && AllLeaveHashKey(moves) && LeavesHashKey(pool)
    ensures var c0 := Run(h, c, moves); var (c', ok) := ReconcilePool(h, pool, c0);
      && (ok ==> pool.body.Some? && (InPlace(h, pool, c') <==> !Unlabelled(h, pool, c0)))
      && (Unlabelled(h, pool, c0) ==>
            Unlabelled(h, pool, c) && c.templates[TemplateName(h, pool)] == c0.templates[TemplateName(h, pool)])
  {
    hide ReconcilePool, InPlace, LeavesHashKey, TemplateName, Collisionless, ReconcileTemplate, Occupied;
    assert ShortForms(h) by { CollisionlessIsShort(h); }
    StoreIsGenuine(h, c, moves);
    var c0 := Run(h, c, moves);
    PoolRound(h, pool, c0);
    assert Honest(h, c0.templates);
    if ReconcileTemplate(h, pool, c0).1.Some? { OccupiedIffUnlabelled(h, pool, c0); }
    if Unlabelled(h, pool, c0) {
      var name := TemplateName(h, pool);
      if Authentic(h, name, c0.templates[name]) { HashNotEmpty(h, name, c0.templates[name]); }
    }
  }

  lemma CollisionlessIsShort(h: Hashing)
    requires Collisionless(h)
    ensures ShortForms(h)
  {
  }

  lemma HashNotEmpty(h: Hashing, name: string, t: Template)
    requires Collisionless(h) && Authentic(h, name, t)
    ensures HashOf(t) != ""
  {
  }

  /** A template without labels under the right name: a fault-free round returns nil and binds the manager to it. */
  lemma WrongTemplateInUse(h: Hashing, pool: Pool, zone: string, body: string)
    requires pool.body.Some? && body != pool.body.value && pool.zones == [zone] && '/' !in zone
    ensures var name := TemplateName(h, pool);
      var c := Compute(map[name := Template(map[], body)], map[], [], []);
      var (c', ok) := ReconcilePool(h, pool, c);
      && ok && KeyOf(pool) in c'.managers && c'.managers[KeyOf(pool)].template == TemplateLink(name)
      && c'.templates == c.templates && c.templates[name] != DesiredTemplate(h, pool)
  {
    hide TemplateName, ContentHash, BuildLabels;
    SplitFree(zone, '/');
  }

  /** A template with the right hash label and another body passes the collision check as well. */
  lemma ForgedTemplateInUse(h: Hashing, pool: Pool, zone: string, body: string)
    requires pool.body.Some? && body != pool.body.value && pool.zones == [zone] && '/' !in zone
    requires ContentHash(h, pool) != ""
    ensures var name := TemplateName(h, pool);
      var forged := Template(map[ConfigHashKey := ContentHash(h, pool)], body);
      var c := Compute(map[name := forged], map[], [], []);
      var (c', ok) := ReconcilePool(h, pool, c);
      && ok && KeyOf(pool) in c'.managers && c'.managers[KeyOf(pool)].template == TemplateLink(name)
      && c'.templates == c.templates && forged != DesiredTemplate(h, pool) && !Unlabelled(h, pool, c)
  {
    hide TemplateName, ContentHash, BuildLabels;
    SplitFree(zone, '/');
  }

  // ----- deleting a pool -----

  lemma ManagerDeleted(pool: Pool, c: Compute)
    ensures var (c', ok) := DeleteManager(pool, c);
      && c'.templates == c.templates && c'.attempted == c.attempted
      && (ok ==> |pool.zones| == 1 && c'.managers == c.managers - {KeyOf(pool)})
      && (forall k :: k in c'.managers ==> k in c.managers && c'.managers[k] == c.managers[k])
      && (forall k :: k in c.managers && k !in c'.managers ==> |pool.zones| == 1 && k == KeyOf(pool))
  {
  }

  /**
    Pool deletion: success leaves neither the manager nor any template owned by the cluster; only that manager and
    those templates are ever removed; and a template is removed or even attempted only once the manager is gone.
   */
  lemma PoolDeleted(pool: Pool, names: seq<string>, c: Compute)
    ensures var (c', ok) := DeletePool(pool, names, c);
      && (ok ==> |pool.zones| == 1 && KeyOf(pool) !in c'.managers)
      && (ok && Listing(c, names) ==> NoneOwned(pool.cluster, c'.templates))
      && (c'.templates != c.templates || c'.attempted != c.attempted ==>
            |pool.zones| == 1 && KeyOf(pool) !in c'.managers)
      && (forall k :: k in c'.managers ==> k in c.managers && c'.managers[k] == c.managers[k])
      && (forall k :: k in c.managers && k !in c'.managers ==> |pool.zones| == 1 && k == KeyOf(pool))
      && (forall n :: n in c'.templates ==> n in c.templates && c'.templates[n] == c.templates[n])
      && (forall n :: n in c.templates && n !in c'.templates ==> HasOwned(c.templates[n].labels, pool.cluster))
  {
    hide DeleteManager, DeleteListed, HasOwned, KeyOf;
    ManagerDeleted(pool, c);
    var (c1, ok) := DeleteManager(pool, c);
    if Listing(c1, names) { DeleteOwned(pool.cluster, names, c1); }
    DeleteListedFacts(pool.cluster, c1.templates, names, Spent(c1));
  }

  /** A manager other than the pool's own points at a template that the cluster owns, be it of another pool. */
  ghost predicate HeldBy(pool: Pool, c: Compute, k: ManagerKey, n: string) {
    && k in c.managers && n in c.templates && c.managers[k].template == TemplateLink(n)
    && HasOwned(c.templates[n].labels, pool.cluster) && (|pool.zones| == 1 ==> k != KeyOf(pool))
  }

  ghost predicate NoFaults(c: Compute) { forall f :: f in c.faults ==> f.Works? }

  lemma {:induction false} DeleteListedIff(cluster: string, listing: map<string, Template>, names: seq<string>,
                                           c: Compute)
    requires c.templates == listing
    ensures var (c', ok) := DeleteListed(cluster, listing, names, c);
      && (ok ==> forall n :: n in OwnedOf(cluster, listing, names) ==> !TemplateInUse(c, n))
      && (NoFaults(c) ==> NoFaults(c'))
      && (NoFaults(c) && (forall n :: n in OwnedOf(cluster, listing, names) ==> !TemplateInUse(c, n)) ==> ok)
    decreases |names|
  {
    hide HasOwned, TemplateInUse;
    if names != [] {
      var before, last := names[..|names| - 1], names[|names| - 1];
      DeleteListedIff(cluster, listing, before, c);
      DeleteListedFacts(cluster, listing, before, c);
      var c1 := DeleteListed(cluster, listing, before, c).0;
      InUseByManagers(c, c1, last);
      if last in listing && last !in c1.templates { GoneWasFree(cluster, listing, before, c, last); }
    }
  }

  lemma InUseByManagers(c: Compute, c1: Compute, n: string)
    requires c1.managers == c.managers
    ensures TemplateInUse(c1, n) == TemplateInUse(c, n)
  {
  }

  lemma {:induction false} GoneWasFree(cluster: string, listing: map<string, Template>, names: seq<string>,
                                       c: Compute, n: string)
    requires c.templates == listing && n in c.templates && n !in DeleteListed(cluster, listing, names, c).0.templates
    ensures !TemplateInUse(c, n)
    decreases |names|
  {
    hide HasOwned, TemplateInUse;
    if names != [] {
      var before, last := names[..|names| - 1], names[|names| - 1];
      DeleteListedFacts(cluster, listing, before, c);
      var c1 := DeleteListed(cluster, listing, before, c).0;
      if n !in c1.templates {
        GoneWasFree(cluster, listing, before, c, n);
      } else {
        InUseByManagers(c, c1, n);
      }
    }
  }

  /**
    Deleting a pool succeeds only if no other manager holds a template of the cluster; without faults, exactly then.
   */
  lemma PoolDeleteSucceedsIff(pool: Pool, names: seq<string>, c: Compute)
    requires Listing(c, names)
    ensures DeletePool(pool, names, c).1 ==> |pool.zones| == 1 && forall k, n :: !HeldBy(pool, c, k, n)
    ensures NoFaults(c) && |pool.zones| == 1 && (forall k, n :: !HeldBy(pool, c, k, n)) ==> DeletePool(pool, names, c).1
  {
    hide DeleteListed, HasOwned, KeyOf, OwnedOf, TemplateLink;
    ManagerDeleted(pool, c);
    var (c1, ok) := DeleteManager(pool, c);
    if ok {
      var c2 := Spent(c1);
      DeleteListedIff(pool.cluster, c1.templates, names, c2);
      forall n ensures n in OwnedOf(pool.cluster, c1.templates, names) <==>
                         n in c.templates && HasOwned(c.templates[n].labels, pool.cluster)
      {
        OwnedOfIff(pool.cluster, c1.templates, names, n);
      }
      forall n | n in c.templates && HasOwned(c.templates[n].labels, pool.cluster)
        ensures TemplateInUse(c2, n) <==> exists k :: HeldBy(pool, c, k, n)
      {
        HeldIff(pool, c, c2, n);
      }
    }
  }

  /** With the pool's own manager gone, a template is in use exactly if another manager holds it. */
  lemma HeldIff(pool: Pool, c: Compute, c2: Compute, n: string)
    requires |pool.zones| == 1 && c2.managers == c.managers - {KeyOf(pool)}
    requires n in c.templates && HasOwned(c.templates[n].labels, pool.cluster)
    ensures TemplateInUse(c2, n) <==> exists k :: HeldBy(pool, c, k, n)
  {
    hide HasOwned, KeyOf, TemplateLink;
    if TemplateInUse(c2, n) {
      var k :| k in c2.managers && c2.managers[k].template == TemplateLink(n);
      assert HeldBy(pool, c, k, n);
    }
    if k :| HeldBy(pool, c, k, n) {
      assert k in c2.managers && c2.managers[k] == c.managers[k];
    }
  }
}
