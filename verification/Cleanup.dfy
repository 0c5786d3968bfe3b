/** Deletion: an import leaves nothing behind, and a deletion pass never creates anything. */
module Cleanup {
  import opened Names
  import opened Cluster
  import opened Passes
  import opened System
  import opened Coherence

  ghost predicate OwnedSecret(c: Cluster, k: Key, key: Key) {
    key in c.secrets && OwnedBy(c.secrets[key].labels, k)
  }

  ghost predicate LiveJob(c: Cluster, k: Key, key: Key) {
    key in c.jobs && OwnedBy(c.jobs[key].labels, k) && !c.jobs[key].terminating
  }

  /** Artefacts exist only while the finalizer is stored, and only in the target namespace. */
  ghost predicate Accounted(c: Cluster, k: Key) {
    && (forall key :: OwnedSecret(c, k, key) ==> Pinned(c, k) && key.ns == c.imports[k].spec.target.ns)
    && (forall key :: LiveJob(c, k, key) ==> Pinned(c, k) && key.ns == c.imports[k].spec.target.ns)
  }

  /** How far cleanup has come. */
  ghost predicate Progress(c: Cluster, k: Key, p: Pass) {
    var t := p.stage;
    && (!t.AddFinalizer? ==> Pinned(c, k) && p.cr.spec.target.ns == c.imports[k].spec.target.ns)
    && (t.CleanJobs? ==> forall key :: LiveJob(c, k, key) ==> key in t.todo)
    && (t.CleanListSecrets? || t.CleanSecrets? || t.DropFinalizer? ==> forall key :: !LiveJob(c, k, key))
    && (t.CleanSecrets? ==> forall key :: OwnedSecret(c, k, key) ==> key in t.todo)
    && (t.DropFinalizer? ==> forall key :: !OwnedSecret(c, k, key))
  }

  ghost predicate Clean(s: State, k: Key) {
    Accounted(s.c, k) && (k in s.passes ==> Progress(s.c, k, s.passes[k]))
  }

  /** The assumption on users: the namespace of the target stays as it is while the import exists. */
  ghost predicate KeepsTarget(s: State, a: Action, k: Key) {
    a.EditImport? && a.k == k && k in s.c.imports ==> a.spec.target.ns == s.c.imports[k].spec.target.ns
  }

  /** No artefact of `k` appears, and the import stays pinned to the same namespace. */
  ghost predicate Shrinks(c: Cluster, c': Cluster, k: Key) {
    && (forall key :: OwnedSecret(c', k, key) ==> OwnedSecret(c, k, key))
    && (forall key :: LiveJob(c', k, key) ==> LiveJob(c, k, key))
    && (Pinned(c, k) ==> Pinned(c', k) && c'.imports[k].spec.target.ns == c.imports[k].spec.target.ns)
  }

  lemma ShrinksKeeps(c: Cluster, c': Cluster, k: Key)
    requires Shrinks(c, c', k) && Accounted(c, k)
    ensures Accounted(c', k)
    ensures forall p :: Progress(c, k, p) ==> Progress(c', k, p)
  {
  }

  /** What belongs to another import does not belong to `k`. */
  lemma ForeignLabels(j: Key, k: Key, version: nat)
    requires ValidKey(j) && j != k
    ensures !OwnedBy(SecretLabels(j), k) && !OwnedBy(JobLabels(j, version), k)
  {
    JobLabelsOwned(j, version);
  }

  lemma CleaningShrinks(c: Cluster, j: Key, cr: Import, t: Stage, pick: Key, fault: bool, k: Key)
    requires t.Cleaning() && !t.DropFinalizer?
    ensures Shrinks(c, StepCleaning(c, j, cr, t, pick, fault).cluster, k)
  {
  }

  lemma ForeignArtefact(c: Cluster, j: Key, cr: Import, t: Stage, pick: Key, fault: bool, k: Key)
    requires (t.WriteRealm? || t.ScanJobs? || t.StartJob? || t.Rollout?) && ValidKey(j) && j != k
    ensures Shrinks(c, StepArtefact(c, j, cr, t, pick, fault).cluster, k)
  {
    ForeignLabels(j, k, if t.StartJob? then t.version else 0);
  }

  lemma ForeignImportObject(c: Cluster, j: Key, cr: Import, t: Stage, fault: bool, k: Key)
    requires (t.DropFinalizer? || t.AddFinalizer? || t.ReportError? || t.ReportReady?) && j != k
    ensures Shrinks(c, StepImportObject(c, j, cr, t, fault).cluster, k)
  {
    ImportWrite(c, j, cr, t, fault);
    var c' := StepImportObject(c, j, cr, t, fault).cluster;
    assert c'.secrets == c.secrets && c'.jobs == c.jobs;
  }

  lemma ForeignStep(c: Cluster, j: Key, p: Pass, pick: Key, fault: bool, k: Key)
    requires ValidKey(j) && j != k
    ensures Shrinks(c, StepImport(c, j, p, pick, fault).cluster, k)
  {
    var t := p.stage;
    if t.Reading() {
      assert StepImport(c, j, p, pick, fault).cluster == c;
    } else if t.Cleaning() && !t.DropFinalizer? {
      CleaningShrinks(c, j, p.cr, t, pick, fault, k);
    } else if t.WriteRealm? || t.ScanJobs? || t.StartJob? || t.Rollout? {
      ForeignArtefact(c, j, p.cr, t, pick, fault, k);
    } else {
      ForeignImportObject(c, j, p.cr, t, fault, k);
    }
  }

  lemma EnvironmentShrinks(s: State, a: Action, k: Key)
    requires Enabled(s, a) && !a.ByController() && KeepsTarget(s, a, k)
    ensures Shrinks(s.c, Environment(s.c, a), k)
  {
  }

  lemma KeycloakShrinks(c: Cluster, q: Key, p: KeycloakPass, fault: bool, broken: bool, k: Key)
    ensures Shrinks(c, StepKeycloak(c, q, p, fault, broken).cluster, k)
  {
    var c' := StepKeycloak(c, q, p, fault, broken).cluster;
    assert c'.imports == c.imports && c'.secrets == c.secrets && c'.jobs == c.jobs;
  }

  /** Everything but the steps of the pass of `k` shrinks what `k` owns. */
  lemma OthersShrink(s: State, a: Action, k: Key)
    requires Coherent(s) && KeepsTarget(s, a, k) && !(a.StepImportPass? && a.k == k)
    ensures Shrinks(s.c, Apply(s, a).c, k)
  {
    if Enabled(s, a) {
      if a.StepImportPass? {
        ForeignStep(s.c, a.k, s.passes[a.k], a.pick, a.fault, k);
      } else if a.StepKeycloakPass? {
        KeycloakShrinks(s.c, a.q, s.keycloakPasses[a.q], a.fault, a.broken, k);
      } else if !a.ByController() {
        EnvironmentShrinks(s, a, k);
      }
    }
  }

  // The steps of the pass of `k` itself.

  lemma OwnReading(c: Cluster, k: Key, p: Pass, fault: bool)
    requires Progress(c, k, p) && p.stage.Reading()
    ensures Progress(c, k, Pass(p.cr, StepReading(c, k, p.cr, p.stage, fault)))
  {
  }

  lemma OwnCleaning(c: Cluster, k: Key, p: Pass, pick: Key, fault: bool)
    requires Accounted(c, k) && Progress(c, k, p) && p.stage.Cleaning() && !p.stage.DropFinalizer?
    ensures var n := StepCleaning(c, k, p.cr, p.stage, pick, fault);
            Accounted(n.cluster, k) && (n.pass.Some? ==> Progress(n.cluster, k, n.pass.value))
  {
    var n := StepCleaning(c, k, p.cr, p.stage, pick, fault);
    var c' := n.cluster;
    CleaningShrinks(c, k, p.cr, p.stage, pick, fault, k);
    ShrinksKeeps(c, c', k);
    assert forall key :: LiveJob(c, k, key) ==> key in OwnedJobs(c, k, p.cr);
    assert forall key :: OwnedSecret(c, k, key) ==> key in OwnedSecrets(c, k, p.cr);
    if p.stage.CleanJobs? {
      assert n.pass.Some? && pick in p.stage.todo ==> forall key :: LiveJob(c', k, key) ==>
          key in p.stage.todo - {pick};
    } else if p.stage.CleanSecrets? {
      assert n.pass.Some? && pick in p.stage.todo ==> forall key :: OwnedSecret(c', k, key) ==>
          key in p.stage.todo - {pick};
    }
  }

  ghost predicate StaysClean(k: Key, n: Next) {
    Accounted(n.cluster, k) && (n.pass.Some? ==> Progress(n.cluster, k, n.pass.value))
  }

  lemma OwnSecret(c: Cluster, k: Key, p: Pass, pick: Key, fault: bool)
    requires Accounted(c, k) && Progress(c, k, p) && p.stage.WriteRealm?
    ensures StaysClean(k, StepArtefact(c, k, p.cr, p.stage, pick, fault))
  {
  }

  lemma OwnScan(c: Cluster, k: Key, p: Pass, pick: Key, fault: bool)
    requires Accounted(c, k) && Progress(c, k, p) && p.stage.ScanJobs?
    ensures StaysClean(k, StepArtefact(c, k, p.cr, p.stage, pick, fault))
  {
    var c' := StepArtefact(c, k, p.cr, p.stage, pick, fault).cluster;
    assert c'.secrets == c.secrets && c'.imports == c.imports;
  }

  lemma OwnCreation(c: Cluster, k: Key, p: Pass, pick: Key, fault: bool)
    requires Accounted(c, k) && Progress(c, k, p) && p.stage.StartJob?
    ensures StaysClean(k, StepArtefact(c, k, p.cr, p.stage, pick, fault))
  {
    var c' := StepArtefact(c, k, p.cr, p.stage, pick, fault).cluster;
    assert c'.secrets == c.secrets && c'.imports == c.imports;
  }

  lemma OwnAnnotation(c: Cluster, k: Key, p: Pass, pick: Key, fault: bool)
    requires Accounted(c, k) && Progress(c, k, p) && p.stage.Rollout?
    ensures StaysClean(k, StepArtefact(c, k, p.cr, p.stage, pick, fault))
  {
    var c' := StepArtefact(c, k, p.cr, p.stage, pick, fault).cluster;
    assert c'.secrets == c.secrets && c'.imports == c.imports && c'.jobs == c.jobs;
  }

  lemma OwnArtefact(c: Cluster, k: Key, p: Pass, pick: Key, fault: bool)
    requires Accounted(c, k) && Progress(c, k, p)
    requires p.stage.WriteRealm? || p.stage.ScanJobs? || p.stage.StartJob? || p.stage.Rollout?
    ensures StaysClean(k, StepArtefact(c, k, p.cr, p.stage, pick, fault))
  {
    if p.stage.WriteRealm? {
      OwnSecret(c, k, p, pick, fault);
    } else if p.stage.ScanJobs? {
      OwnScan(c, k, p, pick, fault);
    } else if p.stage.StartJob? {
      OwnCreation(c, k, p, pick, fault);
    } else {
      OwnAnnotation(c, k, p, pick, fault);
    }
  }

  lemma OwnDropFinalizer(c: Cluster, k: Key, p: Pass, fault: bool)
    requires PassOk(c, k, p) && Accounted(c, k) && Progress(c, k, p) && p.stage.DropFinalizer?
    ensures StaysClean(k, StepImportObject(c, k, p.cr, p.stage, fault))
  {
    ImportWrite(c, k, p.cr, p.stage, fault);
    var c' := StepImportObject(c, k, p.cr, p.stage, fault).cluster;
    assert forall key :: OwnedSecret(c', k, key) ==> OwnedSecret(c, k, key);
    assert forall key :: LiveJob(c', k, key) ==> LiveJob(c, k, key);
  }

  lemma OwnImportObject(c: Cluster, k: Key, p: Pass, fault: bool)
    requires PassOk(c, k, p) && Accounted(c, k) && Progress(c, k, p)
    requires p.stage.AddFinalizer? || p.stage.ReportError? || p.stage.ReportReady?
    ensures StaysClean(k, StepImportObject(c, k, p.cr, p.stage, fault))
  {
    var n := StepImportObject(c, k, p.cr, p.stage, fault);
    ImportWrite(c, k, p.cr, p.stage, fault);
    assert forall key :: OwnedSecret(n.cluster, k, key) ==> OwnedSecret(c, k, key);
    assert forall key :: LiveJob(n.cluster, k, key) ==> LiveJob(c, k, key);
  }

  lemma CleanStep(s: State, a: Action, k: Key)
    requires Coherent(s) && KeepsTarget(s, a, k) && ValidKey(k) && Clean(s, k)
    ensures Clean(Apply(s, a), k)
  {
    if a.StepImportPass? && a.k == k {
      if k in s.passes {
        var p := s.passes[k];
        var t := p.stage;
        if t.Reading() {
          OwnReading(s.c, k, p, a.fault);
        } else if t.Cleaning() && !t.DropFinalizer? {
          OwnCleaning(s.c, k, p, a.pick, a.fault);
        } else if t.WriteRealm? || t.ScanJobs? || t.StartJob? || t.Rollout? {
          OwnArtefact(s.c, k, p, a.pick, a.fault);
        } else if t.DropFinalizer? {
          OwnDropFinalizer(s.c, k, p, a.fault);
        } else {
          OwnImportObject(s.c, k, p, a.fault);
        }
      }
    } else {
      OthersShrink(s, a, k);
      ShrinksKeeps(s.c, Apply(s, a).c, k);
      PassFrame(s, a, k);
    }
  }

  lemma {:induction false} ReachableClean(run: seq<Action>, k: Key)
    requires ValidKey(k)
    requires forall i :: 0 <= i < |run| ==> KeepsTarget(Exec(run[..i]), run[i], k)
    ensures Clean(Exec(run), k)
  {
    if run != [] {
      var before := run[..|run| - 1];
      forall i | 0 <= i < |before| ensures KeepsTarget(Exec(before[..i]), before[i], k) {
        assert before[..i] == run[..i];
      }
      ReachableClean(before, k);
      ReachableCoherent(before);
      CleanStep(Exec(before), run[|run| - 1], k);
    }
  }

  ghost predicate NothingLeft(c: Cluster, k: Key) {
    && (forall key :: key in c.secrets ==> !OwnedBy(c.secrets[key].labels, k))
    && (forall key :: key in c.jobs && OwnedBy(c.jobs[key].labels, k) ==> c.jobs[key].terminating)
  }

  lemma GoneMeansNothingLeft(c: Cluster, k: Key)
    requires Accounted(c, k) && k !in c.imports
    ensures NothingLeft(c, k)
  {
    forall key | key in c.secrets ensures !OwnedBy(c.secrets[key].labels, k) {
      assert !OwnedSecret(c, k, key);
    }
    forall key | key in c.jobs && OwnedBy(c.jobs[key].labels, k) ensures c.jobs[key].terminating {
      assert !LiveJob(c, k, key);
    }
  }

  /** No orphans: once the import is gone, no Secret carries its owner labels and every Job that
      does is terminating. */
  lemma NoOrphans(run: seq<Action>, k: Key)
    requires ValidKey(k) && k !in Exec(run).c.imports
    requires forall i :: 0 <= i < |run| ==> KeepsTarget(Exec(run[..i]), run[i], k)
    ensures NothingLeft(Exec(run).c, k)
  {
    ReachableClean(run, k);
    GoneMeansNothingLeft(Exec(run).c, k);
  }

  /** Deletion is terminal. A pass that read a deleting import only deletes: it creates and changes
      no Secret, creates no Job and leaves the StatefulSets alone, and it stays a deletion pass to
      its end. Its attempt to put the finalizer back always fails and ends it, whether or not other
      finalizers keep the import alive. */
  lemma DeletionIsTerminal(run: seq<Action>, k: Key, pick: Key, fault: bool)
    requires var s := Exec(run); k in s.passes && s.passes[k].cr.deleting
    ensures var s, s' := Exec(run), Exec(run + [StepImportPass(k, pick, fault)]);
      && s'.c.sets == s.c.sets
      && s'.c.jobs.Keys <= s.c.jobs.Keys
      && s'.c.secrets.Keys <= s.c.secrets.Keys &&
          (forall key :: key in s'.c.secrets ==> s'.c.secrets[key] == s.c.secrets[key])
      && (k in s'.passes ==> s'.passes[k].cr.deleting)
      && (s.passes[k].stage.Cleaning() || s.passes[k].stage.AddFinalizer?)
      && (s.passes[k].stage.AddFinalizer? ==> s'.c == s.c && k !in s'.passes)
  {
    ReachableCoherent(run);
    var s, p := Exec(run), Exec(run).passes[k];
    assert PassOk(s.c, k, p);
    assert (run + [StepImportPass(k, pick, fault)])[..|run|] == run;
    DeletingStep(s.c, k, p, pick, fault);
  }

  ghost predicate OnlyDeletes(c: Cluster, c': Cluster) {
    && c'.sets == c.sets && c'.jobs.Keys <= c.jobs.Keys && c'.secrets.Keys <= c.secrets.Keys
    && (forall key :: key in c'.secrets ==> c'.secrets[key] == c.secrets[key])
  }

  lemma CleaningDeletes(c: Cluster, k: Key, cr: Import, t: Stage, pick: Key, fault: bool)
    requires t.Cleaning() && !t.DropFinalizer?
    ensures OnlyDeletes(c, StepCleaning(c, k, cr, t, pick, fault).cluster)
  {
  }

  lemma DeletingStep(c: Cluster, k: Key, p: Pass, pick: Key, fault: bool)
    requires PassOk(c, k, p) && p.cr.deleting
    ensures var n := StepImport(c, k, p, pick, fault);
      && OnlyDeletes(c, n.cluster)
      && (n.pass.Some? ==> n.pass.value.cr.deleting)
      && (p.stage.AddFinalizer? ==> n == Next(c, None))
  {
    if p.stage.Cleaning() && !p.stage.DropFinalizer? {
      CleaningDeletes(c, k, p.cr, p.stage, pick, fault);
    } else {
      ImportWrite(c, k, p.cr, p.stage, fault);
      var c' := StepImportObject(c, k, p.cr, p.stage, fault).cluster;
      assert c'.sets == c.sets && c'.jobs == c.jobs && c'.secrets == c.secrets;
    }
  }
}
