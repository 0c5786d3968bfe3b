/** Imports with different names never touch each other's artefacts; imports that share a name and
    a target namespace do. */
module Isolation {
  import opened Names
  import opened Cluster
  import opened Passes
  import opened System
  import opened Coherence

  /** An owner label tells the name of the object that carries it. */
  ghost predicate Named(c: Cluster) {
    && (forall key, n :: key in c.secrets && Carries(c.secrets[key].labels, Owner, Text(n)) ==> key.name == n)
    && (forall key, n :: key in c.jobs && Carries(c.jobs[key].labels, Owner, Text(n)) ==> key.name == JobName(n))
  }

  /** What a pass has listed lies in its target namespace and has the names of its import. */
  ghost predicate Targets(k: Key, p: Pass) {
    var t, ns := p.stage, p.cr.spec.target.ns;
    && (t.CleanJobs? ==> forall key :: key in t.todo ==> key == Key(ns, JobName(k.name)))
    && (t.CleanSecrets? ==> forall key :: key in t.todo ==> key == Key(ns, k.name))
    && (t.ScanJobs? ==> forall key :: key in t.jobs ==> key == Key(ns, JobName(k.name)))
  }

  ghost predicate Separate(s: State) {
    Named(s.c) && forall k :: k in s.passes ==> Targets(k, s.passes[k])
  }

  /** Outside the one Secret, the one Job and the import of `k`, nothing changes. */
  ghost predicate Confined(c: Cluster, c': Cluster, k: Key, ns: string) {
    && (forall key :: key != Key(ns, k.name) ==>
          (key in c'.secrets <==> key in c.secrets) && (key in c.secrets ==> c'.secrets[key] == c.secrets[key]))
    && (forall key :: key != Key(ns, JobName(k.name)) ==>
          (key in c'.jobs <==> key in c.jobs) && (key in c.jobs ==> c'.jobs[key] == c.jobs[key]))
    && (forall j :: j != k ==>
          (j in c'.imports <==> j in c.imports) && (j in c.imports ==> c'.imports[j] == c.imports[j]))
    && c'.keycloaks == c.keycloaks && c'.sets.Keys == c.sets.Keys
  }

  ghost predicate SameAnnotation(s: StatefulSet, s': StatefulSet, l: string) {
    (l in s'.annotations <==> l in s.annotations) && (l in s.annotations ==> s'.annotations[l] == s.annotations[l])
  }

  /** Annotations other than that of `k` are as they were. */
  ghost predicate OnlyAnnotates(c: Cluster, c': Cluster, k: Key) {
    forall q, l :: q in c.sets && q in c'.sets && l != AnnotationKey(k) ==> SameAnnotation(c.sets[q], c'.sets[q], l)
  }

  lemma JobNameInjective(a: string, b: string)
    ensures JobName(a) == JobName(b) <==> a == b
  {
    if JobName(a) == JobName(b) {
      assert |a| == |b|;
      assert JobName(a)[..|a|] == a && JobName(b)[..|b|] == b;
    }
  }

  lemma UnchangedConfined(c: Cluster, k: Key, ns: string)
    ensures Confined(c, c, k, ns) && OnlyAnnotates(c, c, k)
  {
  }

  /** Deleting a Job touches that Job only. */
  lemma DeleteConfined(c: Cluster, k: Key, ns: string)
    requires Named(c) && DeleteJob(c, Key(ns, JobName(k.name))).Done?
    ensures var c' := DeleteJob(c, Key(ns, JobName(k.name))).cluster;
      Named(c') && Confined(c, c', k, ns) && c'.sets == c.sets
  {
  }

  lemma DropSecretConfined(c: Cluster, k: Key, ns: string)
    requires Named(c)
    ensures var c' := DropSecret(c, Key(ns, k.name)); Named(c') && Confined(c, c', k, ns) && c'.sets == c.sets
  {
  }

  ghost predicate StaysConfined(c: Cluster, k: Key, ns: string, n: Next) {
    Named(n.cluster) && Confined(c, n.cluster, k, ns) && n.cluster.sets == c.sets &&
        (n.pass.Some? ==> Targets(k, n.pass.value))
  }

  lemma ListConfined(c: Cluster, k: Key, p: Pass, pick: Key, fault: bool)
    requires Named(c) && (p.stage.CleanListJobs? || p.stage.CleanListSecrets?)
    ensures StaysConfined(c, k, p.cr.spec.target.ns, StepCleaning(c, k, p.cr, p.stage, pick, fault))
  {
    UnchangedConfined(c, k, p.cr.spec.target.ns);
  }

  lemma CleanJobsConfined(c: Cluster, k: Key, p: Pass, pick: Key, fault: bool)
    requires Named(c) && Targets(k, p) && p.stage.CleanJobs?
    ensures StaysConfined(c, k, p.cr.spec.target.ns, StepCleaning(c, k, p.cr, p.stage, pick, fault))
  {
    var ns := p.cr.spec.target.ns;
    UnchangedConfined(c, k, ns);
    if pick in p.stage.todo && !fault && DeleteJob(c, pick).Done? {
      assert pick == Key(ns, JobName(k.name));
      DeleteConfined(c, k, ns);
    }
  }

  lemma CleanSecretsConfined(c: Cluster, k: Key, p: Pass, pick: Key, fault: bool)
    requires Named(c) && Targets(k, p) && p.stage.CleanSecrets?
    ensures StaysConfined(c, k, p.cr.spec.target.ns, StepCleaning(c, k, p.cr, p.stage, pick, fault))
  {
    var ns := p.cr.spec.target.ns;
    UnchangedConfined(c, k, ns);
    if pick in p.stage.todo && !fault && DeleteSecret(c, pick).Done? {
      assert pick == Key(ns, k.name);
      DropSecretConfined(c, k, ns);
    }
  }

  lemma SecretConfined(c: Cluster, k: Key, p: Pass, pick: Key, fault: bool)
    requires Named(c) && p.stage.WriteRealm?
    ensures StaysConfined(c, k, p.cr.spec.target.ns, StepArtefact(c, k, p.cr, p.stage, pick, fault))
  {
    UnchangedConfined(c, k, p.cr.spec.target.ns);
    StoreSecretConfined(c, k, p.cr.spec.target.ns, p.stage.data);
  }

  lemma StoreSecretConfined(c: Cluster, k: Key, ns: string, data: map<string, string>)
    requires Named(c)
    ensures var c' := StoreSecret(c, Key(ns, k.name), SecretLabels(k), data); Named(c') && Confined(c, c', k, ns)
  {
  }

  lemma Narrowed(k: Key, p: Pass, pick: Key)
    requires p.stage.ScanJobs? && Targets(k, p)
    ensures Targets(k, Pass(p.cr, AfterScan(p.stage.ctx, p.stage.version, p.stage.jobs - {pick})))
  {
  }

  /** The Job is examined and kept, or cannot be deleted: nothing changes. */
  lemma ScanKeeps(c: Cluster, k: Key, p: Pass, pick: Key, fault: bool)
    requires Named(c) && Targets(k, p) && p.stage.ScanJobs?
    requires pick !in p.stage.jobs || fault || DeleteJob(c, pick).Rejected? ||
             Carries(p.stage.jobs[pick].labels, VersionLabel(k), Version(p.stage.version))
    ensures StaysConfined(c, k, p.cr.spec.target.ns, StepArtefact(c, k, p.cr, p.stage, pick, fault))
  {
    UnchangedConfined(c, k, p.cr.spec.target.ns);
  }

  lemma ScanDeletes(c: Cluster, k: Key, p: Pass, pick: Key)
    requires Named(c) && Targets(k, p) && p.stage.ScanJobs? && pick in p.stage.jobs && DeleteJob(c, pick).Done?
    requires !Carries(p.stage.jobs[pick].labels, VersionLabel(k), Version(p.stage.version))
    ensures StaysConfined(c, k, p.cr.spec.target.ns, StepArtefact(c, k, p.cr, p.stage, pick, false))
  {
    assert pick == Key(p.cr.spec.target.ns, JobName(k.name));
    DeleteConfined(c, k, p.cr.spec.target.ns);
    Narrowed(k, p, pick);
  }

  lemma ScanConfined(c: Cluster, k: Key, p: Pass, pick: Key, fault: bool)
    requires Named(c) && Targets(k, p) && p.stage.ScanJobs?
    ensures StaysConfined(c, k, p.cr.spec.target.ns, StepArtefact(c, k, p.cr, p.stage, pick, fault))
  {
    if pick !in p.stage.jobs || fault || DeleteJob(c, pick).Rejected? ||
       Carries(p.stage.jobs[pick].labels, VersionLabel(k), Version(p.stage.version)) {
      ScanKeeps(c, k, p, pick, fault);
    } else {
      ScanDeletes(c, k, p, pick);
    }
  }

  lemma StartConfined(c: Cluster, k: Key, p: Pass, pick: Key, fault: bool)
    requires Named(c) && ValidKey(k) && p.stage.StartJob?
    ensures StaysConfined(c, k, p.cr.spec.target.ns, StepArtefact(c, k, p.cr, p.stage, pick, fault))
  {
    JobLabelsOwned(k, p.stage.version);
    StoreJobNamed(c, JobKey(k, p.cr), Job(0, JobLabels(k, p.stage.version), [], false));
  }

  lemma StoreJobNamed(c: Cluster, key: Key, job: Job)
    requires Named(c) && forall n :: Carries(job.labels, Owner, Text(n)) ==> key.name == JobName(n)
    ensures Named(StoreJob(c, key, job))
  {
  }

  lemma RolloutConfined(c: Cluster, k: Key, p: Pass, pick: Key, fault: bool)
    requires PassOk(c, k, p) && Named(c) && p.stage.Rollout?
    ensures var n := StepArtefact(c, k, p.cr, p.stage, pick, fault);
      Named(n.cluster) && Confined(c, n.cluster, k, p.cr.spec.target.ns) && OnlyAnnotates(c, n.cluster, k) &&
      (n.pass.Some? ==> Targets(k, n.pass.value))
  {
  }

  lemma ImportObjectConfined(c: Cluster, k: Key, p: Pass, fault: bool)
    requires Named(c) &&
      (p.stage.DropFinalizer? || p.stage.AddFinalizer? || p.stage.ReportError? || p.stage.ReportReady?)
    ensures StaysConfined(c, k, p.cr.spec.target.ns, StepImportObject(c, k, p.cr, p.stage, fault))
  {
    var ns := p.cr.spec.target.ns;
    UnchangedConfined(c, k, ns);
    ImportWrite(c, k, p.cr, p.stage, fault);
    var c' := StepImportObject(c, k, p.cr, p.stage, fault).cluster;
    if c' != c {
      if k in c'.imports { StoreImportConfined(c, k, c'.imports[k], ns); } else { DropImportConfined(c, k, ns); }
    }
  }

  lemma StoreImportConfined(c: Cluster, k: Key, i: Import, ns: string)
    requires Named(c)
    ensures var c' := StoreImport(c, k, i); Named(c') && Confined(c, c', k, ns)
  {
  }

  lemma DropImportConfined(c: Cluster, k: Key, ns: string)
    requires Named(c)
    ensures var c' := DropImport(c, k); Named(c') && Confined(c, c', k, ns)
  {
  }

  lemma SameSets(c: Cluster, c': Cluster, k: Key)
    requires c'.sets == c.sets
    ensures OnlyAnnotates(c, c', k)
  {
  }

  lemma CleaningConfined(c: Cluster, k: Key, p: Pass, pick: Key, fault: bool)
    requires Named(c) && Targets(k, p) && p.stage.Cleaning() && !p.stage.DropFinalizer?
    ensures StaysConfined(c, k, p.cr.spec.target.ns, StepCleaning(c, k, p.cr, p.stage, pick, fault))
  {
    if p.stage.CleanJobs? {
      CleanJobsConfined(c, k, p, pick, fault);
    } else if p.stage.CleanSecrets? {
      CleanSecretsConfined(c, k, p, pick, fault);
    } else {
      ListConfined(c, k, p, pick, fault);
    }
  }

  lemma OtherConfined(c: Cluster, k: Key, p: Pass, pick: Key, fault: bool)
    requires ValidKey(k) && Named(c) && Targets(k, p) && !p.stage.Rollout?
    ensures StaysConfined(c, k, p.cr.spec.target.ns, StepImport(c, k, p, pick, fault))
  {
    var t := p.stage;
    if t.Reading() {
      UnchangedConfined(c, k, p.cr.spec.target.ns);
    } else if t.Cleaning() && !t.DropFinalizer? {
      CleaningConfined(c, k, p, pick, fault);
    } else if t.WriteRealm? {
      SecretConfined(c, k, p, pick, fault);
    } else if t.ScanJobs? {
      ScanConfined(c, k, p, pick, fault);
    } else if t.StartJob? {
      StartConfined(c, k, p, pick, fault);
    } else {
      ImportObjectConfined(c, k, p, fault);
    }
  }

  /** One step of the pass of `k` stays within the artefacts of `k`. */
  lemma StepConfined(c: Cluster, k: Key, p: Pass, pick: Key, fault: bool)
    requires PassOk(c, k, p) && Named(c) && Targets(k, p)
    ensures var n := StepImport(c, k, p, pick, fault);
      Named(n.cluster) && Confined(c, n.cluster, k, p.cr.spec.target.ns) && OnlyAnnotates(c, n.cluster, k) &&
      (n.pass.Some? ==> Targets(k, n.pass.value))
  {
    if p.stage.Rollout? {
      RolloutConfined(c, k, p, pick, fault);
    } else {
      OtherConfined(c, k, p, pick, fault);
      SameSets(c, StepImport(c, k, p, pick, fault).cluster, k);
    }
  }

  lemma EnvironmentNamed(s: State, a: Action)
    requires Named(s.c) && Enabled(s, a) && !a.ByController()
    ensures Named(Environment(s.c, a))
  {
  }

  lemma KeycloakNamed(c: Cluster, q: Key, p: KeycloakPass, fault: bool, broken: bool)
    requires Named(c)
    ensures Named(StepKeycloak(c, q, p, fault, broken).cluster)
  {
    var c' := StepKeycloak(c, q, p, fault, broken).cluster;
    assert c'.secrets == c.secrets && c'.jobs == c.jobs;
  }

  lemma BegunSeparate(s: State, a: Action)
    requires Separate(s) && Enabled(s, a) && a.ByController() && !a.StepImportPass? && !a.StepKeycloakPass?
    ensures Separate(Apply(s, a))
  {
  }

  lemma SeparateStep(s: State, a: Action)
    requires Coherent(s) && Separate(s)
    ensures Separate(Apply(s, a))
  {
    if Enabled(s, a) {
      if a.StepImportPass? {
        StepConfined(s.c, a.k, s.passes[a.k], a.pick, a.fault);
      } else if a.StepKeycloakPass? {
        KeycloakNamed(s.c, a.q, s.keycloakPasses[a.q], a.fault, a.broken);
      } else if !a.ByController() {
        EnvironmentNamed(s, a);
      } else {
        BegunSeparate(s, a);
      }
    }
  }

  lemma {:induction false} ReachableSeparate(run: seq<Action>)
    ensures Separate(Exec(run))
  {
    if run != [] {
      ReachableSeparate(run[..|run| - 1]);
      ReachableCoherent(run[..|run| - 1]);
      SeparateStep(Exec(run[..|run| - 1]), run[|run| - 1]);
    }
  }

  /** What import `j` owns: the import itself, the Secrets and Jobs labelled with its name, and its
      annotations. */
  ghost predicate SameFor(c: Cluster, c': Cluster, j: Key) {
    && (j in c'.imports <==> j in c.imports) && (j in c.imports ==> c'.imports[j] == c.imports[j])
    && (forall key :: key in c.secrets && Carries(c.secrets[key].labels, Owner, Text(j.name)) ==>
          key in c'.secrets && c'.secrets[key] == c.secrets[key])
    && (forall key :: key in c'.secrets && Carries(c'.secrets[key].labels, Owner, Text(j.name)) ==> key in c.secrets)
    && (forall key :: key in c.jobs && Carries(c.jobs[key].labels, Owner, Text(j.name)) ==>
          key in c'.jobs && c'.jobs[key] == c.jobs[key])
    && (forall key :: key in c'.jobs && Carries(c'.jobs[key].labels, Owner, Text(j.name)) ==> key in c.jobs)
    && (forall q :: q in c.sets ==> q in c'.sets && SameAnnotation(c.sets[q], c'.sets[q], AnnotationKey(j)))
  }

  lemma ConfinedMeansSame(c: Cluster, c': Cluster, k: Key, ns: string, j: Key)
    requires Named(c) && Named(c') && Confined(c, c', k, ns) && OnlyAnnotates(c, c', k)
    requires ValidKey(j) && ValidKey(k) && j.name != k.name
    ensures SameFor(c, c', j)
  {
    JobNameInjective(j.name, k.name);
    AnnotationKeyInjective(j, k);
  }

  /** Isolation: a step of one import's pass leaves everything of a differently named import as it was. */
  lemma StepsAreIsolated(run: seq<Action>, k: Key, pick: Key, fault: bool, j: Key)
    requires ValidKey(j) && j.name != k.name
    ensures SameFor(Exec(run).c, Exec(run + [StepImportPass(k, pick, fault)]).c, j)
  {
    var s, a := Exec(run), StepImportPass(k, pick, fault);
    assert (run + [a])[..|run|] == run;
    if k in s.passes {
      ReachableSeparate(run);
      ReachableCoherent(run);
      assert PassOk(s.c, k, s.passes[k]) && Targets(k, s.passes[k]);
      StepConfined(s.c, k, s.passes[k], pick, fault);
      ConfinedMeansSame(s.c, Apply(s, a).c, k, s.passes[k].cr.spec.target.ns, j);
    }
  }

  /** The distinct names are needed. A pass of `j` that targets the namespace of a Job of `k` lists
      that Job exactly when the names agree, and keeps it exactly when it is its own Job at its own
      version: a namesake's Job is always deleted as stale. */
  lemma NamesakeJobs(c: Cluster, j: Key, k: Key, jcr: Import, key: Key, mine: nat, version: nat)
    requires ValidKey(j) && ValidKey(k) && VersionLabel(k) != Owner
    requires key in c.jobs && c.jobs[key].labels == JobLabels(k, version) && key.ns == jcr.spec.target.ns
    ensures key in ListedJobs(c, j, jcr) <==> j.name == k.name
    ensures Carries(JobLabels(k, version), VersionLabel(j), Version(mine)) <==> j == k && mine == version
    ensures forall ctx :: j.name == k.name && j != k && !c.jobs[key].terminating ==>
      StepArtefact(c, j, jcr, ScanJobs(ctx, mine, ListedJobs(c, j, jcr)), key, false).cluster.jobs[key].terminating
  {
    JobLabelsOwned(k, version);
    VersionLabelInjective(j, k);
  }
}
