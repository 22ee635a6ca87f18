/**
  Machine pools: immutable instance templates named by the hash of their content, and the instance
  group manager that points at one (cloud/services/compute/instancetemplates and instancegroupmanagers).
 */
module MachinePools {
  import opened CloudApi
  import opened Text

  // ----- labels (api/v1beta1/labels.go) -----

  const ConfigHashKey: string := "capg-config-hash"
  const RoleKey: string := "capg-role"

  predicate HasOwned(labels: Labels, cluster: string) {
    ClusterTagKey(cluster) in labels && labels[ClusterTagKey(cluster)] == "owned"
  }

  datatype Label = Label(key: string, value: string)

  /** User labels in the order in which the range over their map yields them; keys and values are lower-cased. */
  function LowerLabels(additional: seq<Label>): Labels {
    if additional == [] then map[]
    else
      var last := additional[|additional| - 1];
      LowerLabels(additional[..|additional| - 1])[Lower(last.key) := Lower(last.value)]
  }

  function BuildLabels(cluster: string, role: string, additional: seq<Label>): Labels {
    LowerLabels(additional)[ClusterTagKey(cluster) := "owned"][RoleKey := Lower(role)]
  }

  method Build(cluster: string, role: string, additional: seq<Label>) returns (tags: Labels)
    ensures tags == BuildLabels(cluster, role, additional)
  {
    tags := map[];
    for i := 0 to |additional|
      invariant tags == LowerLabels(additional[..i])
    {
      assert additional[..i + 1][..i] == additional[..i];
      tags := tags[Lower(additional[i].key) := Lower(additional[i].value)];
    }
    assert additional[..|additional|] == additional;
    tags := tags[ClusterTagKey(cluster) := "owned"];
    tags := tags[RoleKey := Lower(role)];
  }

  lemma KeysDiffer(cluster: string)
    ensures ClusterTagKey(cluster) != RoleKey && ClusterTagKey(cluster) != ConfigHashKey && RoleKey != ConfigHashKey
  {
    assert ClusterTagKey(cluster)[5] == 'c' && RoleKey[5] == 'r' && ConfigHashKey[5] == 'c';
    assert ClusterTagKey(cluster)[6] == 'l' && ConfigHashKey[6] == 'o';
  }

  /** Whatever labels a user adds, and with the hash merged in, the result is owned by the cluster. */
  lemma BuiltIsOwned(cluster: string, role: string, additional: seq<Label>, hash: string)
    ensures HasOwned(BuildLabels(cluster, role, additional)[ConfigHashKey := hash], cluster)
  {
    KeysDiffer(cluster);
  }

  lemma {:induction false} LoweredKeys(additional: seq<Label>, k: string)
    ensures k in LowerLabels(additional) <==> exists l :: l in additional && Lower(l.key) == k
  {
    if additional != [] {
      var rest, last := additional[..|additional| - 1], additional[|additional| - 1];
      LoweredKeys(rest, k);
      assert additional == rest + [last];
    }
  }

  // ----- templates -----

  /** `body` is everything but the labels, as serialised. */
  datatype Template = Template(labels: Labels, body: string)

  /** The full digest of a name prefix and a content, and its short form used in names. */
  datatype Hashing = Hashing(digest: (string, Template) -> string, short: string -> string)

  /** Short forms have sixteen characters; they may collide. */
  ghost predicate ShortForms(h: Hashing) { forall d :: |h.short(d)| == 16 }

  /** A digest without collisions. */
  ghost predicate Collisionless(h: Hashing) {
    && (forall p, t, p', t' :: h.digest(p, t) == h.digest(p', t') ==> p == p' && t == t')
    && (forall p, t :: h.digest(p, t) != "")
    && ShortForms(h)
  }

  /** The pool: `body` is absent when its properties cannot be built; `zones` are its own or the cluster's. */
  datatype Pool = Pool(
    cluster: string, name: string, role: string, additional: seq<Label>, body: Option<string>, zones: seq<string>,
    replicas: Option<int>)

  function Limit(s: string, max: nat): string { if |s| > max then s[..max] else s }

  function BaseName(pool: Pool): string { Limit(pool.name, 63 - 16 - 1) + "-" }

  function DesiredContent(pool: Pool): Template
    requires pool.body.Some?
  {
    Template(BuildLabels(pool.cluster, pool.role, pool.additional), pool.body.value)
  }

  function ContentHash(h: Hashing, pool: Pool): string
    requires pool.body.Some?
  {
    h.digest(BaseName(pool), DesiredContent(pool))
  }

  function WithHash(t: Template, hash: string): Template { t.(labels := t.labels[ConfigHashKey := hash]) }

  function DesiredTemplate(h: Hashing, pool: Pool): Template
    requires pool.body.Some?
  {
    WithHash(DesiredContent(pool), ContentHash(h, pool))
  }

  function TemplateName(h: Hashing, pool: Pool): string
    requires pool.body.Some?
  {
    BaseName(pool) + h.short(ContentHash(h, pool))
  }

  function HashOf(t: Template): string { if ConfigHashKey in t.labels then t.labels[ConfigHashKey] else "" }

  // ----- the store -----

  datatype ManagerKey = ManagerKey(zone: string, name: string)

  datatype Manager = Manager(template: string, targetSize: int, zoneLink: string, baseName: string)

  datatype Compute = Compute(
    templates: map<string, Template>, managers: map<ManagerKey, Manager>, faults: seq<Fault>, attempted: seq<string>)

  function Fate(c: Compute): Fault { if c.faults == [] then Works else c.faults[0] }

  function Spent(c: Compute): Compute { c.(faults := if c.faults == [] then [] else c.faults[1..]) }

  /** Look up, insert if absent, look up again, and compare the full hash. */
  function ReconcileTemplate(h: Hashing, pool: Pool, c: Compute): (Compute, Option<string>) {
    if pool.body.None? then (c, None)
    else
      var name, c1 := TemplateName(h, pool), Spent(c);
      if !Fate(c).Works? then (c1, None)
      else if name in c.templates then (c1, CheckHash(h, pool, c.templates[name]))
      else
        var inserted := c1.(templates := c.templates[name := DesiredTemplate(h, pool)]);
        var c2 := Spent(if Fate(c1).FailsBefore? then c1 else inserted);
        if !Fate(c1).Works? then (c2, None)
        else if !Fate(c2).Works? then (Spent(c2), None)
        else (Spent(c2), CheckHash(h, pool, DesiredTemplate(h, pool)))
  }

  /** A template without the label passes. */
  function CheckHash(h: Hashing, pool: Pool, found: Template): Option<string>
    requires pool.body.Some?
  {
    if HashOf(found) != "" && HashOf(found) != ContentHash(h, pool) then None else Some(TemplateName(h, pool))
  }

  function TemplateLink(template: string): string { "global/instanceTemplates/" + template }

  function KeyOf(pool: Pool): ManagerKey
    requires |pool.zones| == 1
  {
    ManagerKey(pool.zones[0], pool.cluster + "-" + pool.name)
  }

  /** The desired manager; it exists only for a pool of exactly one zone that is a plain name. */
  function DesiredManager(pool: Pool, template: string): Option<(ManagerKey, Manager)> {
    if |pool.zones| != 1 || |Split(pool.zones[0], '/')| != 1 then None
    else Some((KeyOf(pool),
               Manager(TemplateLink(template), pool.replicas.GetOr(1), "zones/" + Split(pool.zones[0], '/')[0],
                       pool.name)))
  }

  function Resized(c: Compute, key: ManagerKey, desired: Manager): (Compute, bool)
    requires key in c.managers
  {
    var actual := c.managers[key];
    if actual.targetSize == desired.targetSize then (c, true)
    else
      var c1 :=
        if Fate(c).FailsBefore? then c
        else c.(managers := c.managers[key := actual.(targetSize := desired.targetSize)]);
      (Spent(c1), Fate(c).Works?)
  }

  function Retargeted(c: Compute, key: ManagerKey, desired: Manager): (Compute, bool)
    requires key in c.managers
  {
    var actual := c.managers[key];
    if actual.template == desired.template then (c, true)
    else
      var c1 :=
        if Fate(c).FailsBefore? then c else c.(managers := c.managers[key := actual.(template := desired.template)]);
      (Spent(c1), Fate(c).Works?)
  }

  function FetchManager(c: Compute, key: ManagerKey, desired: Manager): (Compute, bool) {
    var c1 := Spent(c);
    if !Fate(c).Works? then (c1, false)
    else if key in c.managers then (c1, true)
    else
      var c2 := Spent(if Fate(c1).FailsBefore? then c1 else c1.(managers := c.managers[key := desired]));
      if !Fate(c1).Works? then (c2, false) else (Spent(c2), Fate(c2).Works?)
  }

  function ReconcileManager(pool: Pool, template: string, c: Compute): (Compute, bool) {
    match DesiredManager(pool, template)
    case None => (c, false)
    case Some((key, desired)) =>
      var (c1, ok1) := FetchManager(c, key, desired);
      if !ok1 || key !in c1.managers then (c1, false)
      else
        var (c2, ok2) := Resized(c1, key, desired);
        if !ok2 then (c2, false) else Retargeted(c2, key, desired)
  }

  function ReconcilePool(h: Hashing, pool: Pool, c: Compute): (Compute, bool) {
    var (c1, template) := ReconcileTemplate(h, pool, c);
    if template.None? then (c1, false) else ReconcileManager(pool, template.value, c1)
  }

  /** The cloud refuses to delete a template that a manager points at. */
  predicate TemplateInUse(c: Compute, name: string) {
    exists k | k in c.managers :: c.managers[k].template == TemplateLink(name)
  }

  function DeleteTemplate(c: Compute, name: string): (Compute, bool) {
    var c1 := Spent(c).(attempted := c.attempted + [name]);
    if name !in c.templates then (c1, Fate(c).Works?)
    else if TemplateInUse(c, name) then (c1, false)
    else
      (if Fate(c).FailsBefore? then c1 else c1.(templates := c.templates - {name}), Fate(c).Works?)
  }

  /** Goes through a listing taken beforehand; an error does not end the loop. */
  function DeleteListed(cluster: string, listing: map<string, Template>, names: seq<string>, c: Compute)
    : (Compute, bool)
    decreases |names|
  {
    if names == [] then (c, true)
    else
      var before, last := names[..|names| - 1], names[|names| - 1];
      var (c1, ok) := DeleteListed(cluster, listing, before, c);
      if last !in listing || !HasOwned(listing[last].labels, cluster) then (c1, ok)
      else
        var (c2, deleted) := DeleteTemplate(c1, last);
        (c2, ok && deleted)
  }

  function DeleteTemplates(cluster: string, names: seq<string>, c: Compute): (Compute, bool) {
    if !Fate(c).Works? then (Spent(c), false) else DeleteListed(cluster, c.templates, names, Spent(c))
  }

  function DeleteManager(pool: Pool, c: Compute): (Compute, bool) {
    if |pool.zones| != 1 then (c, false)
    else
      var key, c1 := KeyOf(pool), Spent(c);
      if !Fate(c).Works? then (c1, false)
      else if key !in c.managers then (c1, true)
      else (Spent(if Fate(c1).FailsBefore? then c1 else c1.(managers := c.managers - {key})), Fate(c1).Works?)
  }

  /** The manager goes first; templates are touched only once it is gone. */
  function DeletePool(pool: Pool, names: seq<string>, c: Compute): (Compute, bool) {
    var (c1, ok) := DeleteManager(pool, c);
    if !ok then (c1, false) else DeleteTemplates(pool.cluster, names, c1)
  }
}
