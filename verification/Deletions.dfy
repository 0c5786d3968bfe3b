/** What one undisturbed deletion pass does, and what it misses. */
module Deletions {
  import opened Names
  import opened Cluster
  import opened Passes
  import opened QuietPasses

  ghost predicate MineInTarget(labels: Labels, key: Key, k: Key, cr: Import) {
    key.ns == cr.spec.target.ns && OwnedBy(labels, k)
  }

  /** Every Job that the import owns in its target namespace is terminating, except for some. */
  ghost predicate MarkedBut(c: Cluster, k: Key, cr: Import, todo: set<Key>) {
    forall key :: key in OwnedJobs(c, k, cr) ==> key in todo || c.jobs[key].terminating
  }

  /** How far a deletion pass has come. */
  ghost predicate Underway(c: Cluster, k: Key, p: Pass) {
    var t, cr := p.stage, p.cr;
    && k in c.imports && c.imports[k] == cr && cr.deleting && RealmImport in cr.finalizers && t.Cleaning() && Proper(t)
    && (t.CleanJobs? ==> t.todo <= OwnedJobs(c, k, cr) && MarkedBut(c, k, cr, t.todo))
    && (t.CleanListSecrets? || t.CleanSecrets? || t.DropFinalizer? ==> MarkedBut(c, k, cr, {}))
    && (t.CleanSecrets? ==> t.todo == OwnedSecrets(c, k, cr))
    && (t.DropFinalizer? ==> OwnedSecrets(c, k, cr) == {})
  }

  /** Some of the Secrets of `k` in its target namespace are gone, some of its Jobs there are marked. */
  ghost predicate Partly(c: Cluster, c': Cluster, k: Key, cr: Import) {
    && (forall key :: key in c'.secrets ==> key in c.secrets && c'.secrets[key] == c.secrets[key])
    && (forall key :: key in c.secrets && key !in c'.secrets ==> MineInTarget(c.secrets[key].labels, key, k, cr))
    && c'.jobs.Keys == c.jobs.Keys
    && (forall key :: key in c.jobs && c'.jobs[key] != c.jobs[key] ==>
          MineInTarget(c.jobs[key].labels, key, k, cr) && c'.jobs[key].labels == c.jobs[key].labels &&
              c'.jobs[key].terminating)
    && c'.sets == c.sets && c'.keycloaks == c.keycloaks
  }

  /** All of them. */
  ghost predicate Cleared(c: Cluster, k: Key, cr: Import) {
    && (forall key :: key in c.secrets ==> !MineInTarget(c.secrets[key].labels, key, k, cr))
    && (forall key :: key in c.jobs && MineInTarget(c.jobs[key].labels, key, k, cr) ==> c.jobs[key].terminating)
  }

  /** The finalizer is gone, and with it the import if there was no other. */
  ghost predicate Released(c: Cluster, k: Key, cr: Import) {
    if cr.finalizers == {RealmImport} then k !in c.imports
    else k in c.imports && c.imports[k].deleting && c.imports[k].finalizers == cr.finalizers - {RealmImport}
  }

  lemma PartlyTransitive(c: Cluster, d: Cluster, e: Cluster, k: Key, cr: Import)
    requires Partly(c, d, k, cr) && Partly(d, e, k, cr)
    ensures Partly(c, e, k, cr)
  {
  }

  lemma JobMarked(c: Cluster, k: Key, p: Pass)
    requires Underway(c, k, p) && p.stage.CleanJobs?
    ensures var n := StepImport(c, k, p, Pick(p.stage), false);
      n.pass.Some? && n.pass.value.cr == p.cr && Partly(c, n.cluster, k, p.cr) && Underway(n.cluster, k, n.pass.value)
  {
    var pick := Pick(p.stage);
    var c' := DeleteJob(c, pick).cluster;
    assert pick in OwnedJobs(c, k, p.cr);
    assert c'.imports == c.imports && c'.secrets == c.secrets;
    MarkOne(c, k, p.cr, p.stage.todo, pick);
    PartlyMarked(c, k, p.cr, pick);
    assert StepImport(c, k, p, pick, false) == Next(c', Some(Pass(p.cr, AfterJobs(p.stage.todo - {pick}))));
  }

  lemma PartlyMarked(c: Cluster, k: Key, cr: Import, pick: Key)
    requires pick in OwnedJobs(c, k, cr)
    ensures Partly(c, DeleteJob(c, pick).cluster, k, cr)
  {
  }

  lemma MarkOne(c: Cluster, k: Key, cr: Import, todo: set<Key>, pick: Key)
    requires MarkedBut(c, k, cr, todo) && pick in c.jobs
    ensures var c' := DeleteJob(c, pick).cluster;
      OwnedJobs(c', k, cr) == OwnedJobs(c, k, cr) && MarkedBut(c', k, cr, todo - {pick})
  {
    var c' := DeleteJob(c, pick).cluster;
    assert c'.jobs[pick].terminating && c'.jobs[pick].labels == c.jobs[pick].labels;
    assert OwnedJobs(c', k, cr) == OwnedJobs(c, k, cr);
  }

  lemma SecretDropped(c: Cluster, k: Key, p: Pass)
    requires Underway(c, k, p) && p.stage.CleanSecrets?
    ensures var n := StepImport(c, k, p, Pick(p.stage), false);
      n.pass.Some? && n.pass.value.cr == p.cr && Partly(c, n.cluster, k, p.cr) && Underway(n.cluster, k, n.pass.value)
  {
    var pick := Pick(p.stage);
    var c' := DropSecret(c, pick);
    assert pick in OwnedSecrets(c, k, p.cr);
    assert OwnedSecrets(c', k, p.cr) == OwnedSecrets(c, k, p.cr) - {pick};
    assert OwnedJobs(c', k, p.cr) == OwnedJobs(c, k, p.cr);
    assert c'.imports == c.imports && c'.jobs == c.jobs;
  }

  lemma Listed(c: Cluster, k: Key, p: Pass)
    requires Underway(c, k, p) && (p.stage.CleanListJobs? || p.stage.CleanListSecrets?)
    ensures var n := StepImport(c, k, p, Pick(p.stage), false);
      n.pass.Some? && n.pass.value.cr == p.cr && Partly(c, n.cluster, k, p.cr) && Underway(n.cluster, k, n.pass.value)
  {
  }

  /** The last calls: the finalizer is dropped, and the attempt to put it back fails. */
  lemma RunRelease(c: Cluster, k: Key, p: Pass)
    requires Underway(c, k, p) && p.stage.DropFinalizer?
    ensures var c' := RunPass(c, k, p); Partly(c, c', k, p.cr) && Cleared(c', k, p.cr) && Released(c', k, p.cr)
  {
    var n := StepImport(c, k, p, Pick(p.stage), false);
    var rest := p.cr.finalizers - {RealmImport};
    assert rest == {} <==> p.cr.finalizers == {RealmImport};
    assert n.pass.Some? && n.pass.value.stage.AddFinalizer? && n.pass.value.cr.finalizers == rest;
    NoWayBack(n.cluster, k, n.pass.value, Pick(n.pass.value.stage));
    assert n.cluster.secrets == c.secrets && n.cluster.jobs == c.jobs;
    assert Cleared(n.cluster, k, p.cr) by {
      forall key | key in c.secrets ensures !MineInTarget(c.secrets[key].labels, key, k, p.cr) {
        assert key !in OwnedSecrets(c, k, p.cr);
      }
      forall key | key in c.jobs && MineInTarget(c.jobs[key].labels, key, k, p.cr) ensures c.jobs[key].terminating {
        assert key in OwnedJobs(c, k, p.cr);
      }
    }
  }

  lemma NoWayBack(c: Cluster, k: Key, p: Pass, pick: Key)
    requires p.stage.AddFinalizer? && RealmImport !in p.cr.finalizers
    requires k in c.imports ==> c.imports[k].deleting && RealmImport !in c.imports[k].finalizers
    ensures StepImport(c, k, p, pick, false) == Next(c, None)
  {
  }

  lemma {:induction false} RunDeletion(c: Cluster, k: Key, p: Pass)
    requires Underway(c, k, p)
    ensures var c' := RunPass(c, k, p); Partly(c, c', k, p.cr) && Cleared(c', k, p.cr) && Released(c', k, p.cr)
    decreases StageRank(p.stage), Remaining(p)
  {
    if p.stage.DropFinalizer? {
      RunRelease(c, k, p);
    } else {
      StepAdvances(c, k, p);
      if p.stage.CleanJobs? {
        JobMarked(c, k, p);
      } else if p.stage.CleanSecrets? {
        SecretDropped(c, k, p);
      } else {
        Listed(c, k, p);
      }
      var n := StepImport(c, k, p, Pick(p.stage), false);
      RunDeletion(n.cluster, k, n.pass.value);
      PartlyTransitive(c, n.cluster, RunPass(n.cluster, k, n.pass.value), k, p.cr);
    }
  }

  /** A deletion pass whose calls succeed removes exactly the Secrets and marks exactly the Jobs that
      the import owns in its present target namespace, and lets the import go. */
  lemma DeletionCompletes(c: Cluster, k: Key)
    requires k in c.imports && c.imports[k].deleting && RealmImport in c.imports[k].finalizers
    ensures var cr, c' := c.imports[k], QuietPass(c, k);
      Partly(c, c', k, cr) && Cleared(c', k, cr) && Released(c', k, cr)
  {
    RunDeletion(c, k, Pass(c.imports[k], CleanListJobs));
  }

  /** Why the target namespace must not be edited: a Secret or Job of the import in any other
      namespace outlives it. */
  lemma OldNamespaceIsForgotten(c: Cluster, k: Key, key: Key)
    requires k in c.imports && c.imports[k].deleting && c.imports[k].finalizers == {RealmImport}
    requires key.ns != c.imports[k].spec.target.ns
    ensures k !in QuietPass(c, k).imports
    ensures key in c.secrets ==> key in QuietPass(c, k).secrets && QuietPass(c, k).secrets[key] == c.secrets[key]
    ensures key in c.jobs ==> key in QuietPass(c, k).jobs && QuietPass(c, k).jobs[key] == c.jobs[key]
  {
    DeletionCompletes(c, k);
  }
}
