/** The base invariant: versions never run ahead of the counter, what a pass has read is either
    current or has an older version, and each phase of a pass knows the state of its finalizer. */
module Coherence {
  import opened Names
  import opened Cluster
  import opened Passes
  import opened System

  ghost predicate StoreOk(c: Cluster) {
    && (forall k :: k in c.imports ==> ValidKey(k) && c.imports[k].rv <= c.rv)
    && (forall q :: q in c.sets ==> c.sets[q].rv <= c.rv)
    && (forall key :: key in c.secrets ==> c.secrets[key].rv <= c.rv)
  }

  /** A read StatefulSet that still has the stored version is the stored one. */
  ghost predicate SetSeen(c: Cluster, q: Key, seen: StatefulSet) {
    seen.rv <= c.rv && (q in c.sets && c.sets[q].rv == seen.rv ==> c.sets[q] == seen)
  }

  ghost predicate ImportSeen(c: Cluster, k: Key, seen: Import) {
    seen.rv <= c.rv && (k in c.imports && c.imports[k].rv == seen.rv ==> c.imports[k] == seen)
  }

  /** The operator's finalizer is stored, so the import cannot disappear. */
  ghost predicate Pinned(c: Cluster, k: Key) {
    k in c.imports && RealmImport in c.imports[k].finalizers
  }

  ghost predicate PassOk(c: Cluster, k: Key, p: Pass) {
    && ValidKey(k)
    && ImportSeen(c, k, p.cr)
    && (p.stage.Cleaning() ==> p.cr.deleting && RealmImport in p.cr.finalizers && Pinned(c, k) && c.imports[k].deleting)
    && (p.stage.AddFinalizer? ==> RealmImport !in p.cr.finalizers)
    && (p.stage.Working() ==> !p.cr.deleting && RealmImport in p.cr.finalizers && Pinned(c, k))
    && (p.stage.HasContext() ==> SetSeen(c, p.cr.spec.target, p.stage.ctx.sts))
  }

  ghost predicate KeycloakPassOk(c: Cluster, q: Key, p: KeycloakPass) {
    p.WriteSet? && p.seen.Some? ==> SetSeen(c, q, p.seen.value)
  }

  ghost predicate Coherent(s: State) {
    && StoreOk(s.c)
    && (forall k :: k in s.passes ==> PassOk(s.c, k, s.passes[k]))
    && (forall q :: q in s.keycloakPasses ==> KeycloakPassOk(s.c, q, s.keycloakPasses[q]))
  }

  /** What every action does to the objects that passes have read: any change gets a fresh version,
      and only the pass of an import removes its stored finalizer or undoes its deletion mark. */
  ghost predicate Evolves(c: Cluster, c': Cluster, owner: Option<Key>) {
    && c.rv <= c'.rv
    && (forall k :: k in c'.imports ==> (k in c.imports && c'.imports[k] == c.imports[k]) || c'.imports[k].rv > c.rv)
    && (forall q :: q in c'.sets ==> (q in c.sets && c'.sets[q] == c.sets[q]) || c'.sets[q].rv > c.rv)
    && (forall k :: Pinned(c, k) && owner != Some(k) ==>
          Pinned(c', k) && (c.imports[k].deleting ==> c'.imports[k].deleting))
  }

  /** Every Secret that changed got a fresh version. */
  ghost predicate SecretsStamped(c: Cluster, c': Cluster) {
    && c.rv <= c'.rv
    && (forall key :: key in c'.secrets ==>
          (key in c.secrets && c'.secrets[key] == c.secrets[key]) || c'.secrets[key].rv > c.rv)
  }

  lemma EvolvesKeeps(c: Cluster, c': Cluster, owner: Option<Key>, k: Key, p: Pass)
    requires Evolves(c, c', owner) && PassOk(c, k, p) && owner != Some(k)
    ensures PassOk(c', k, p)
  {
  }

  lemma ReadingStep(c: Cluster, k: Key, p: Pass, fault: bool)
    requires StoreOk(c) && PassOk(c, k, p) && p.stage.Reading()
    ensures PassOk(c, k, Pass(p.cr, StepReading(c, k, p.cr, p.stage, fault)))
  {
  }

  /** Writes to Secrets, Jobs and Keycloaks leave every pass as it was. */
  lemma Elsewhere(c: Cluster, c': Cluster)
    requires StoreOk(c) && c'.imports == c.imports && c'.sets == c.sets && c.rv <= c'.rv
    requires forall key :: key in c'.secrets ==> c'.secrets[key].rv <= c'.rv
    ensures StoreOk(c') && Evolves(c, c', None)
    ensures forall k, p :: PassOk(c, k, p) ==> PassOk(c', k, p)
  {
    forall k, p | PassOk(c, k, p) ensures PassOk(c', k, p) {
      EvolvesKeeps(c, c', None, k, p);
    }
  }

  lemma StoreImportEvolves(c: Cluster, k: Key, i: Import)
    requires StoreOk(c) && ValidKey(k)
    ensures StoreOk(StoreImport(c, k, i)) && Evolves(c, StoreImport(c, k, i), Some(k))
    ensures (Pinned(c, k) ==> RealmImport in i.finalizers && (c.imports[k].deleting ==> i.deleting)) ==>
              Evolves(c, StoreImport(c, k, i), None)
  {
    var c' := StoreImport(c, k, i);
    assert c'.sets == c.sets && c'.secrets == c.secrets;
    assert forall j :: j != k ==>
        (j in c'.imports <==> j in c.imports) && (j in c.imports ==> c'.imports[j] == c.imports[j]);
  }

  lemma DropImportEvolves(c: Cluster, k: Key)
    requires StoreOk(c)
    ensures StoreOk(DropImport(c, k)) && Evolves(c, DropImport(c, k), Some(k))
    ensures !Pinned(c, k) ==> Evolves(c, DropImport(c, k), None)
  {
    var c' := DropImport(c, k);
    assert c'.sets == c.sets && c'.secrets == c.secrets;
    assert forall j :: j != k ==>
        (j in c'.imports <==> j in c.imports) && (j in c.imports ==> c'.imports[j] == c.imports[j]);
  }

  lemma StoreSetEvolves(c: Cluster, q: Key, s: StatefulSet)
    requires StoreOk(c)
    ensures StoreOk(StoreSet(c, q, s)) && Evolves(c, StoreSet(c, q, s), None)
    ensures StoreOk(DropSet(c, q)) && Evolves(c, DropSet(c, q), None)
  {
  }

  ghost predicate StepOk(c: Cluster, k: Key, n: Next) {
    StoreOk(n.cluster) && Evolves(c, n.cluster, Some(k)) && (n.pass.Some? ==> PassOk(n.cluster, k, n.pass.value))
  }

  lemma CleaningStep(c: Cluster, k: Key, p: Pass, pick: Key, fault: bool)
    requires StoreOk(c) && PassOk(c, k, p) && p.stage.Cleaning() && !p.stage.DropFinalizer?
    ensures StepOk(c, k, StepCleaning(c, k, p.cr, p.stage, pick, fault))
  {
    var n := StepCleaning(c, k, p.cr, p.stage, pick, fault);
    if n.pass.Some? {
      assert PassOk(c, k, n.pass.value);
    }
    CleaningFrame(c, k, p, pick, fault);
    Elsewhere(c, n.cluster);
  }

  lemma CleaningFrame(c: Cluster, k: Key, p: Pass, pick: Key, fault: bool)
    requires StoreOk(c) && p.stage.Cleaning() && !p.stage.DropFinalizer?
    ensures var c' := StepCleaning(c, k, p.cr, p.stage, pick, fault).cluster;
      c'.imports == c.imports && c'.sets == c.sets && c.rv <= c'.rv &&
      forall key :: key in c'.secrets ==> c'.secrets[key].rv <= c'.rv
  {
  }

  lemma WriteRealmStep(c: Cluster, k: Key, p: Pass, pick: Key, fault: bool)
    requires StoreOk(c) && PassOk(c, k, p) && p.stage.WriteRealm?
    ensures StepOk(c, k, StepArtefact(c, k, p.cr, p.stage, pick, fault))
  {
    Elsewhere(c, c);
    Elsewhere(c, StoreSecret(c, SecretKey(k, p.cr), SecretLabels(k), p.stage.data));
  }

  lemma JobStep(c: Cluster, k: Key, p: Pass, pick: Key, fault: bool)
    requires StoreOk(c) && PassOk(c, k, p) && (p.stage.ScanJobs? || p.stage.StartJob?)
    ensures StepOk(c, k, StepArtefact(c, k, p.cr, p.stage, pick, fault))
  {
    var n := StepArtefact(c, k, p.cr, p.stage, pick, fault);
    JobPass(c, k, p, pick, fault);
    JobFrame(c, k, p, pick, fault);
    Elsewhere(c, n.cluster);
  }

  lemma JobPass(c: Cluster, k: Key, p: Pass, pick: Key, fault: bool)
    requires PassOk(c, k, p) && (p.stage.ScanJobs? || p.stage.StartJob?)
    ensures var n := StepArtefact(c, k, p.cr, p.stage, pick, fault); n.pass.Some? ==> PassOk(c, k, n.pass.value)
  {
  }

  lemma JobFrame(c: Cluster, k: Key, p: Pass, pick: Key, fault: bool)
    requires p.stage.ScanJobs? || p.stage.StartJob?
    ensures var c' := StepArtefact(c, k, p.cr, p.stage, pick, fault).cluster;
      c'.imports == c.imports && c'.sets == c.sets && c'.secrets == c.secrets && c.rv <= c'.rv
  {
  }

  lemma RolloutStep(c: Cluster, k: Key, p: Pass, pick: Key, fault: bool)
    requires StoreOk(c) && PassOk(c, k, p) && p.stage.Rollout?
    ensures StepOk(c, k, StepArtefact(c, k, p.cr, p.stage, pick, fault))
  {
    var q := p.cr.spec.target;
    if q in c.sets {
      var read := p.stage.ctx.sts;
      var annotations := read.annotations[AnnotationKey(k) := p.stage.version];
      StoreSetEvolves(c, q, c.sets[q].(rv := c.rv + 1, workload := read.workload, annotations := annotations));
    }
  }

  lemma DropFinalizerStep(c: Cluster, k: Key, p: Pass, fault: bool)
    requires StoreOk(c) && PassOk(c, k, p) && p.stage.DropFinalizer?
    ensures StepOk(c, k, StepImportObject(c, k, p.cr, p.stage, fault))
  {
    Elsewhere(c, c);
    StoreImportEvolves(c, k, p.cr.(rv := c.rv + 1, finalizers := p.cr.finalizers - {RealmImport}));
    DropImportEvolves(c, k);
    DroppedPass(c, k, p, fault);
  }

  lemma DroppedPass(c: Cluster, k: Key, p: Pass, fault: bool)
    requires PassOk(c, k, p) && p.stage.DropFinalizer?
    ensures var n := StepImportObject(c, k, p.cr, p.stage, fault); n.pass.Some? ==> PassOk(n.cluster, k, n.pass.value)
  {
  }

  lemma AddFinalizerStep(c: Cluster, k: Key, p: Pass, fault: bool)
    requires StoreOk(c) && PassOk(c, k, p) && p.stage.AddFinalizer?
    ensures StepOk(c, k, StepImportObject(c, k, p.cr, p.stage, fault))
  {
    StoreImportEvolves(c, k, p.cr.(rv := c.rv + 1, finalizers := p.cr.finalizers + {RealmImport}));
  }

  lemma ReportStep(c: Cluster, k: Key, p: Pass, fault: bool)
    requires StoreOk(c) && PassOk(c, k, p) && (p.stage.ReportError? || p.stage.ReportReady?)
    ensures StepOk(c, k, StepImportObject(c, k, p.cr, p.stage, fault))
  {
    StoreImportEvolves(c, k, c.imports[k].(status := if p.stage.ReportReady? then Ready else NotReady(p.stage.reason)));
  }

  lemma ImportStep(c: Cluster, k: Key, p: Pass, pick: Key, fault: bool)
    requires StoreOk(c) && PassOk(c, k, p)
    ensures StepOk(c, k, StepImport(c, k, p, pick, fault))
  {
    var t := p.stage;
    if t.Reading() {
      ReadingStep(c, k, p, fault);
    } else if t.Cleaning() && !t.DropFinalizer? {
      CleaningStep(c, k, p, pick, fault);
    } else if t.WriteRealm? {
      WriteRealmStep(c, k, p, pick, fault);
    } else if t.ScanJobs? || t.StartJob? {
      JobStep(c, k, p, pick, fault);
    } else if t.Rollout? {
      RolloutStep(c, k, p, pick, fault);
    } else if t.DropFinalizer? {
      DropFinalizerStep(c, k, p, fault);
    } else if t.AddFinalizer? {
      AddFinalizerStep(c, k, p, fault);
    } else {
      ReportStep(c, k, p, fault);
    }
  }

  ghost predicate KeycloakStepOk(c: Cluster, q: Key, n: KeycloakNext) {
    StoreOk(n.cluster) && Evolves(c, n.cluster, None) && (n.pass.Some? ==> KeycloakPassOk(n.cluster, q, n.pass.value))
  }

  lemma KeycloakStep(c: Cluster, q: Key, p: KeycloakPass, fault: bool, broken: bool)
    requires StoreOk(c) && KeycloakPassOk(c, q, p)
    ensures KeycloakStepOk(c, q, StepKeycloak(c, q, p, fault, broken))
  {
    match p
    case ReadSet(kc, host) => Elsewhere(c, c);
    case WriteSet(kc, seen, workload) => WriteSetStep(c, q, p, fault, broken);
    case Report(kc, ready) =>
      var c' := StepKeycloak(c, q, p, fault, broken).cluster;
      assert c'.secrets == c.secrets;
      Elsewhere(c, c');
  }

  lemma WriteSetStep(c: Cluster, q: Key, p: KeycloakPass, fault: bool, broken: bool)
    requires StoreOk(c) && KeycloakPassOk(c, q, p) && p.WriteSet?
    ensures KeycloakStepOk(c, q, StepKeycloak(c, q, p, fault, broken))
  {
    Elsewhere(c, c);
    var r := if p.seen.None?
        then CreateSet(c, q, p.workload) else UpdateSet(c, q, p.seen.value, p.seen.value.annotations, p.workload);
    if r.Done? {
      StoreSetEvolves(c, q, r.value);
    }
  }

  lemma ImportEditedStep(s: State, a: Action)
    requires StoreOk(s.c) && Enabled(s, a) && a.EditsImport()
    ensures StoreOk(ImportEdited(s.c, a)) && Evolves(s.c, ImportEdited(s.c, a), None)
  {
    match a
    case CreateImport(k, spec, finalizers) =>
      StoreImportEvolves(s.c, k, Import(0, false, finalizers, spec, Unset));
    case EditImport(k, spec, finalizers) =>
      StoreImportEvolves(s.c, k, s.c.imports[k].(spec := spec, finalizers := finalizers));
      DropImportEvolves(s.c, k);
    case DeleteImport(k) =>
      StoreImportEvolves(s.c, k, s.c.imports[k].(deleting := true));
      DropImportEvolves(s.c, k);
  }

  lemma SetEditedStep(c: Cluster, a: Action)
    requires StoreOk(c) && (a.RemoveSet? || (a.SetReplicas? && a.q in c.sets))
    ensures StoreOk(ObjectEdited(c, a)) && Evolves(c, ObjectEdited(c, a), None)
  {
    if a.RemoveSet? {
      StoreSetEvolves(c, a.q, StatefulSet(0, 0, map[], Workload(0, ""), 0, 0));
    } else {
      StoreSetEvolves(c, a.q, c.sets[a.q].(replicas := a.replicas, readyReplicas := a.readyReplicas));
    }
  }

  lemma ObjectEditedStep(c: Cluster, a: Action)
    requires StoreOk(c)
    ensures StoreOk(ObjectEdited(c, a)) && Evolves(c, ObjectEdited(c, a), None)
  {
    if a.RemoveSet? || (a.SetReplicas? && a.q in c.sets) {
      SetEditedStep(c, a);
    } else {
      ObjectFrame(c, a);
      Elsewhere(c, ObjectEdited(c, a));
    }
  }

  lemma ObjectFrame(c: Cluster, a: Action)
    requires StoreOk(c) && !a.RemoveSet? && !(a.SetReplicas? && a.q in c.sets)
    ensures var c' := ObjectEdited(c, a);
      c'.imports == c.imports && c'.sets == c.sets && c.rv <= c'.rv &&
      forall key :: key in c'.secrets ==> c'.secrets[key].rv <= c'.rv
  {
    ObjectTouches(c, a);
  }

  /** Passes that did not move stay coherent. */
  lemma Unmoved(s: State, s': State, owner: Option<Key>)
    requires Coherent(s) && StoreOk(s'.c) && Evolves(s.c, s'.c, owner)
    ensures forall j :: j in s.passes && owner != Some(j) ==> PassOk(s'.c, j, s.passes[j])
    ensures forall q :: q in s.keycloakPasses ==> KeycloakPassOk(s'.c, q, s.keycloakPasses[q])
  {
    forall j | j in s.passes && owner != Some(j) ensures PassOk(s'.c, j, s.passes[j]) {
      EvolvesKeeps(s.c, s'.c, owner, j, s.passes[j]);
    }
  }

  lemma ImportPassStep(s: State, a: Action)
    requires Coherent(s) && Enabled(s, a) && a.StepImportPass?
    ensures Coherent(Apply(s, a))
  {
    ImportStep(s.c, a.k, s.passes[a.k], a.pick, a.fault);
    Unmoved(s, Apply(s, a), Some(a.k));
  }

  lemma KeycloakPassStep(s: State, a: Action)
    requires Coherent(s) && Enabled(s, a) && a.StepKeycloakPass?
    ensures Coherent(Apply(s, a))
  {
    KeycloakStep(s.c, a.q, s.keycloakPasses[a.q], a.fault, a.broken);
    Unmoved(s, Apply(s, a), None);
  }

  lemma EnvironmentStep(s: State, a: Action)
    requires Coherent(s) && Enabled(s, a) && !a.ByController()
    ensures Coherent(Apply(s, a))
  {
    if a.EditsImport() { ImportEditedStep(s, a); } else { ObjectEditedStep(s.c, a); }
    Unmoved(s, Apply(s, a), None);
  }

  lemma BeginOrCrash(s: State, a: Action)
    requires Coherent(s) && Enabled(s, a) && a.ByController() && !a.StepImportPass? && !a.StepKeycloakPass?
    ensures Coherent(Apply(s, a))
  {
  }

  lemma CoherentStep(s: State, a: Action)
    requires Coherent(s)
    ensures Coherent(Apply(s, a))
  {
    if Enabled(s, a) {
      if a.StepImportPass? {
        ImportPassStep(s, a);
      } else if a.StepKeycloakPass? {
        KeycloakPassStep(s, a);
      } else if !a.ByController() {
        EnvironmentStep(s, a);
      } else {
        BeginOrCrash(s, a);
      }
    }
  }

  /** Every reachable state is coherent. */
  lemma {:induction false} ReachableCoherent(run: seq<Action>)
    ensures Coherent(Exec(run))
  {
    if run != [] {
      ReachableCoherent(run[..|run| - 1]);
      CoherentStep(Exec(run[..|run| - 1]), run[|run| - 1]);
    }
  }
}
