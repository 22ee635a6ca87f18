/** The machine pool services as an object over the compute store, proved equal to the functions of MachinePools. */
module MachinePoolService {
  import opened CloudApi
  import opened MachinePools
  import opened MachinePoolRuns

  class Service {
    const hashing: Hashing
    const pool: Pool
    var templates: map<string, Template>
    var managers: map<ManagerKey, Manager>
    var faults: seq<Fault>
    ghost var attempted: seq<string>

    constructor (hashing: Hashing, pool: Pool, c: Compute)
      ensures this.hashing == hashing && this.pool == pool && State() == c
    {
      this.hashing, this.pool := hashing, pool;
      templates, managers, faults, attempted := c.templates, c.managers, c.faults, c.attempted;
    }

    ghost function State(): Compute
      reads this
    {
      Compute(templates, managers, faults, attempted)
    }

    method Take() returns (fault: Fault)
      modifies this`faults
      ensures fault == Fate(old(State())) && State() == Spent(old(State()))
    {
      fault := if faults == [] then Works else faults[0];
      faults := if faults == [] then [] else faults[1..];
    }

    // ----- instance templates -----

    method CreateOrGetInstanceTemplate() returns (name: Option<string>)
      modifies this`faults, this`templates
      ensures (State(), name) == ReconcileTemplate(hashing, pool, old(State()))
    {
      hide BuildLabels;
      if pool.body.None? {
        return None;
      }
      var labels := Build(pool.cluster, pool.role, pool.additional);
      var desired := Template(labels, pool.body.value);
      var base := Limit(pool.name, 63 - 16 - 1) + "-";
      var hash := hashing.digest(base, desired);
      desired := desired.(labels := desired.labels[ConfigHashKey := hash]);
      var key := base + hashing.short(hash);
      var fault := Take();
      if !fault.Works? {
        return None;
      }
      var found: Template;
      if key in templates {
        found := templates[key];
      } else {
        fault := Take();
        if !fault.FailsBefore? {
          templates := templates[key := desired];
        }
        if !fault.Works? {
          return None;
        }
        fault := Take();
        if !fault.Works? {
          return None;
        }
        found := templates[key];
      }
      if HashOf(found) != "" && HashOf(found) != hash {
        return None;
      }
      return Some(key);
    }

    method DeleteOwnedTemplates(names: seq<string>) returns (ok: bool)
      modifies this`faults, this`templates, this`attempted
      ensures (State(), ok) == DeleteTemplates(pool.cluster, names, old(State()))
    {
      var fault := Take();
      if !fault.Works? {
        return false;
      }
      var listing := templates;
      ghost var start := State();
      ok := true;
      for i := 0 to |names|
        invariant managers == old(managers)
        invariant (State(), ok) == DeleteListed(pool.cluster, listing, names[..i], start)
      {
        assert names[..i + 1][..i] == names[..i];
        var name := names[i];
        if name !in listing || !HasOwned(listing[name].labels, pool.cluster) {
          continue;
        }
        var present, refused := name in templates, TemplateInUse(Compute(templates, managers, faults, []), name);
        fault := Take();
        attempted := attempted + [name];
        if !fault.Works? || (present && refused) {
          ok := false;
        }
        if present && !refused && !fault.FailsBefore? {
          templates := templates - {name};
        }
      }
      assert names[..|names|] == names;
    }

    // ----- the instance group manager -----

    method CreateOrGetManager(template: string) returns (ok: bool)
      modifies this`faults, this`managers
      ensures (State(), ok) == ReconcileManager(pool, template, old(State()))
    {
      var wanted := DesiredManager(pool, template);
      if wanted.None? {
        return false;
      }
      var (key, desired) := wanted.value;
      ok := Fetch(key, desired);
      if !ok || key !in managers {
        return false;
      }
      var fault: Fault;
      if managers[key].targetSize != desired.targetSize {
        fault := Take();
        if !fault.FailsBefore? {
          managers := managers[key := managers[key].(targetSize := desired.targetSize)];
        }
        if !fault.Works? {
          return false;
        }
      }
      if managers[key].template != desired.template {
        fault := Take();
        if !fault.FailsBefore? {
          managers := managers[key := managers[key].(template := desired.template)];
        }
        if !fault.Works? {
          return false;
        }
      }
      return true;
    }

    method Fetch(key: ManagerKey, desired: Manager) returns (ok: bool)
      modifies this`faults, this`managers
      ensures (State(), ok) == FetchManager(old(State()), key, desired)
    {
      var fault := Take();
      if !fault.Works? {
        return false;
      }
      if key !in managers {
        fault := Take();
        if !fault.FailsBefore? {
          managers := managers[key := desired];
        }
        if !fault.Works? {
          return false;
        }
        fault := Take();
        return fault.Works?;
      }
      return true;
    }

    method DeleteGroupManager() returns (ok: bool)
      modifies this`faults, this`managers
      ensures (State(), ok) == DeleteManager(pool, old(State()))
      ensures ok ==> |pool.zones| == 1 && managers == old(managers) - {KeyOf(pool)}
      ensures forall k :: k in old(managers) && (|pool.zones| == 1 ==> k != KeyOf(pool)) ==>
                k in managers && managers[k] == old(managers)[k]
    {
      ManagerDeleted(pool, State());
      if |pool.zones| != 1 {
        return false;
      }
      var key := KeyOf(pool);
      var fault := Take();
      if !fault.Works? {
        return false;
      }
      if key in managers {
        fault := Take();
        if !fault.FailsBefore? {
          managers := managers - {key};
        }
        return fault.Works?;
      }
      return true;
    }

    // ----- the pool -----

    method Reconcile() returns (ok: bool)
      modifies this
      ensures (State(), ok) == ReconcilePool(hashing, pool, old(State()))
    {
      hide ReconcileTemplate, ReconcileManager;
      var template := CreateOrGetInstanceTemplate();
      if template.None? {
        return false;
      }
      ok := CreateOrGetManager(template.value);
    }

    /** `names` is the listing of the templates, in any order. */
    method Delete(names: seq<string>) returns (ok: bool)
      modifies this
      ensures (State(), ok) == DeletePool(pool, names, old(State()))
      ensures ok ==> |pool.zones| == 1 && KeyOf(pool) !in managers
      ensures ok && Listing(old(State()), names) ==> NoneOwned(pool.cluster, templates)
      ensures templates != old(templates) ==> |pool.zones| == 1 && KeyOf(pool) !in managers
    {
      hide DeleteManager, DeleteTemplates, Listing, NoneOwned;
      PoolDeleted(pool, names, State());
      ok := DeleteGroupManager();
      if !ok {
        return;
      }
      ok := DeleteOwnedTemplates(names);
    }
  }
}
