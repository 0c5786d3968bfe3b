/** At most one import Job is ever created for each version of the import Secret. */
module Once {
  import opened Names
  import opened Cluster
  import opened Passes
  import opened System
  import opened Coherence
  import opened Rollouts
  import opened Isolation
  import opened Cleanup

  /** The Job of `k` in namespace `ns` is there and records `version`. */
  ghost predicate Holds(c: Cluster, k: Key, ns: string, version: nat) {
    var key := Key(ns, JobName(k.name));
    key in c.jobs && Carries(c.jobs[key].labels, Owner, Text(k.name)) &&
    Carries(c.jobs[key].labels, VersionLabel(k), Version(version))
  }

  ghost predicate InNamespace(s: State, k: Key, ns: string) {
    k in s.passes && s.passes[k].cr.spec.target.ns == ns
  }

  /** A Job never records a version ahead of the Secret or of the pass; a pass that took its version
      from the Secret found it labelled; a listed Job has the label the stored one has. */
  ghost predicate Tracked(s: State, k: Key, ns: string) {
    && (forall v: nat :: Holds(s.c, k, ns, v) ==>
          v <= s.c.rv && (Key(ns, k.name) in s.c.secrets ==> v <= s.c.secrets[Key(ns, k.name)].rv))
    && (InNamespace(s, k, ns) && s.passes[k].stage.HasVersion() ==>
          var t := s.passes[k].stage;
          && (forall v: nat :: Holds(s.c, k, ns, v) ==> v <= t.version)
          && (Key(ns, k.name) in s.c.secrets && s.c.secrets[Key(ns, k.name)].rv == t.version ==>
                OwnedBy(s.c.secrets[Key(ns, k.name)].labels, k)))
    && (InNamespace(s, k, ns) && s.passes[k].stage.ScanJobs? && Key(ns, JobName(k.name)) in s.passes[k].stage.jobs ==>
          forall v: nat :: Holds(s.c, k, ns, v) ==>
            Carries(s.passes[k].stage.jobs[Key(ns, JobName(k.name))].labels, VersionLabel(k), Version(v)))
  }

  /** A step of the pass of `k` that creates its Job for `version`. */
  ghost predicate Creates(s: State, a: Action, k: Key, ns: string, version: nat) {
    a.StepImportPass? && a.k == k && !a.fault && InNamespace(s, k, ns) && s.passes[k].stage.StartJob? &&
    s.passes[k].stage.version == version && Key(ns, JobName(k.name)) !in s.c.jobs
  }

  ghost predicate OwnStart(s: State, a: Action, k: Key) {
    a.StepImportPass? && a.k == k && k in s.passes && s.passes[k].stage.StartJob?
  }

  /** Versions are recorded on Jobs only when the pass of `k` creates one. */
  ghost predicate NoNewJob(c: Cluster, c': Cluster, k: Key, ns: string) {
    forall v: nat :: Holds(c', k, ns, v) ==> Holds(c, k, ns, v)
  }

  lemma CleaningNoNewJob(c: Cluster, j: Key, cr: Import, t: Stage, pick: Key, fault: bool, k: Key, ns: string)
    requires t.Cleaning() && !t.DropFinalizer?
    ensures NoNewJob(c, StepCleaning(c, j, cr, t, pick, fault).cluster, k, ns)
  {
  }

  lemma ArtefactNoNewJob(c: Cluster, j: Key, cr: Import, t: Stage, pick: Key, fault: bool, k: Key, ns: string)
    requires t.WriteRealm? || t.ScanJobs? || t.StartJob? || t.Rollout?
    requires ValidKey(j) && ValidKey(k) && (t.StartJob? ==> j != k)
    ensures NoNewJob(c, StepArtefact(c, j, cr, t, pick, fault).cluster, k, ns)
  {
    JobLabelsOwned(j, if t.StartJob? then t.version else 0);
  }

  lemma ImportObjectNoNewJob(c: Cluster, j: Key, cr: Import, t: Stage, fault: bool, k: Key, ns: string)
    requires t.DropFinalizer? || t.AddFinalizer? || t.ReportError? || t.ReportReady?
    ensures NoNewJob(c, StepImportObject(c, j, cr, t, fault).cluster, k, ns)
  {
    assert StepImportObject(c, j, cr, t, fault).cluster.jobs == c.jobs;
  }

  lemma EnvironmentNoNewJob(s: State, a: Action, k: Key, ns: string)
    requires Enabled(s, a)
    ensures NoNewJob(s.c, Environment(s.c, a), k, ns)
  {
    if a.EditsImport() { assert ImportEdited(s.c, a).jobs == s.c.jobs; }
  }

  lemma StepNoNewJob(s: State, a: Action, k: Key, ns: string)
    requires Coherent(s) && ValidKey(k) && !OwnStart(s, a, k)
    ensures NoNewJob(s.c, Apply(s, a).c, k, ns)
  {
    if Enabled(s, a) {
      if a.StepImportPass? {
        var p := s.passes[a.k];
        var t := p.stage;
        if t.Reading() {
        } else if t.Cleaning() && !t.DropFinalizer? {
          CleaningNoNewJob(s.c, a.k, p.cr, t, a.pick, a.fault, k, ns);
        } else if t.WriteRealm? || t.ScanJobs? || t.StartJob? || t.Rollout? {
          ArtefactNoNewJob(s.c, a.k, p.cr, t, a.pick, a.fault, k, ns);
        } else {
          ImportObjectNoNewJob(s.c, a.k, p.cr, t, a.fault, k, ns);
        }
      } else if a.StepKeycloakPass? {
        KeycloakFrame(s.c, a.q, s.keycloakPasses[a.q], a.fault, a.broken);
      } else if !a.ByController() {
        EnvironmentNoNewJob(s, a, k, ns);
      }
    }
  }

  lemma StepStamped(s: State, a: Action, k: Key)
    requires Coherent(s) && ValidKey(k)
    ensures SecretsStamped(s.c, Apply(s, a).c)
  {
    if OwnRollout(s, a, k) {
      assert Apply(s, a).c.secrets == s.c.secrets;
    } else {
      StepUnrecorded(s, a, k);
    }
  }

  /** Creating the Job records the version of the pass, and no other. */
  lemma StartHolds(s: State, a: Action, k: Key, ns: string)
    requires Coherent(s) && ValidKey(k) && OwnStart(s, a, k)
    ensures var c' := Apply(s, a).c;
      forall v: nat :: Holds(c', k, ns, v) ==>
          Holds(s.c, k, ns, v) || (InNamespace(s, k, ns) && v == s.passes[k].stage.version)
    ensures k in Apply(s, a).passes ==> Apply(s, a).passes[k].stage.ReportError?
  {
    JobLabelsOwned(k, s.passes[k].stage.version);
  }

  lemma OwnTracked(s: State, a: Action, k: Key, ns: string)
    requires Tracked(s, k, ns) && a.StepImportPass? && a.k == k && k in s.passes
    requires SecretsStamped(s.c, Apply(s, a).c) && NoNewJob(s.c, Apply(s, a).c, k, ns) && VersionOk(s.c, k, s.passes[k])
    ensures Tracked(Apply(s, a), k, ns)
  {
    StepHolds(s.c, k, s.passes[k], a.pick, a.fault);
  }

  lemma OthersTracked(s: State, s': State, k: Key, ns: string)
    requires Tracked(s, k, ns) && VersionsOk(s, k) && SecretsStamped(s.c, s'.c) && NoNewJob(s.c, s'.c, k, ns)
    requires k in s'.passes ==> (k in s.passes && s'.passes[k] == s.passes[k]) || !s'.passes[k].stage.HasVersion()
    ensures Tracked(s', k, ns)
  {
  }

  lemma StartTracked(s: State, a: Action, k: Key, ns: string)
    requires Coherent(s) && ValidKey(k) && VersionsOk(s, k) && Tracked(s, k, ns) && OwnStart(s, a, k)
    ensures Tracked(Apply(s, a), k, ns)
  {
    StepStamped(s, a, k);
    StartHolds(s, a, k, ns);
  }

  lemma TrackedStep(s: State, a: Action, k: Key, ns: string)
    requires Coherent(s) && ValidKey(k) && VersionsOk(s, k) && Tracked(s, k, ns)
    ensures Tracked(Apply(s, a), k, ns)
  {
    if OwnStart(s, a, k) {
      StartTracked(s, a, k, ns);
    } else {
      StepStamped(s, a, k);
      StepNoNewJob(s, a, k, ns);
      if a.StepImportPass? && a.k == k && k in s.passes {
        OwnTracked(s, a, k, ns);
      } else {
        Unmoving(s, a, k);
        OthersTracked(s, Apply(s, a), k, ns);
      }
    }
  }

  /** Whatever is not a step of the pass leaves the pass alone, or begins it. */
  lemma Unmoving(s: State, a: Action, k: Key)
    requires !(a.StepImportPass? && a.k == k && k in s.passes)
    ensures var s' := Apply(s, a);
      k in s'.passes ==> (k in s.passes && s'.passes[k] == s.passes[k]) || !s'.passes[k].stage.HasVersion()
  {
    if !(a.StepImportPass? && a.k == k) { PassFrame(s, a, k); }
  }

  // The assumptions: the target namespace is not edited once the import is being deleted, no import
  // of the same name works there, and nobody else deletes the Job.

  ghost predicate KeepsTargetInDeletion(s: State, a: Action, k: Key) {
    k in s.c.imports && s.c.imports[k].deleting ==> KeepsTarget(s, a, k)
  }

  ghost predicate NoRival(s: State, a: Action, k: Key, ns: string) {
    a.StepImportPass? && a.k in s.passes && a.k != k && a.k.name == k.name ==> s.passes[a.k].cr.spec.target.ns != ns
  }

  ghost predicate HandsOff(a: Action, k: Key, ns: string) {
    a.RemoveJob? ==> a.key != Key(ns, JobName(k.name))
  }

  ghost predicate Orderly(s: State, a: Action, k: Key, ns: string) {
    KeepsTargetInDeletion(s, a, k) && NoRival(s, a, k, ns) && HandsOff(a, k, ns)
  }

  ghost predicate OrderlyAt(run: seq<Action>, i: int, k: Key, ns: string)
    requires 0 <= i < |run|
  {
    Orderly(Exec(run[..i]), run[i], k, ns)
  }

  ghost predicate OrderlyRun(run: seq<Action>, k: Key, ns: string) {
    forall i :: 0 <= i < |run| ==> OrderlyAt(run, i, k, ns)
  }

  lemma OrderlyPrefix(run: seq<Action>, n: nat, k: Key, ns: string)
    requires OrderlyRun(run, k, ns) && n <= |run|
    ensures OrderlyRun(run[..n], k, ns)
    ensures n < |run| ==> Orderly(Exec(run[..n]), run[n], k, ns)
  {
    forall i | 0 <= i < n ensures OrderlyAt(run[..n], i, k, ns) {
      assert OrderlyAt(run, i, k, ns);
      assert run[..n][..i] == run[..i];
    }
    assert n < |run| ==> OrderlyAt(run, n, k, ns);
  }

  ghost predicate Present(c: Cluster, k: Key, ns: string, version: nat) {
    Holds(c, k, ns, version) && LiveJob(c, k, Key(ns, JobName(k.name)))
  }

  /** The version is no longer that of the Secret, nor of a pass. */
  ghost predicate Past(s: State, k: Key, ns: string, version: nat) {
    && (Key(ns, k.name) in s.c.secrets ==> s.c.secrets[Key(ns, k.name)].rv != version)
    && (InNamespace(s, k, ns) && s.passes[k].stage.HasVersion() ==> s.passes[k].stage.version != version)
  }

  /** The import is on its way out, and so is the Secret that still has the version. */
  ghost predicate Closing(s: State, k: Key, ns: string) {
    && Pinned(s.c, k) && s.c.imports[k].deleting && s.c.imports[k].spec.target.ns == ns
    && (k in s.passes ==> s.passes[k].cr.deleting)
  }

  /** A deletion pass looks at the stored target namespace, and does not miss the import Secret there. */
  ghost predicate Tidying(c: Cluster, k: Key, p: Pass, ns: string) {
    p.stage.Cleaning() ==>
      && Pinned(c, k) && p.cr.spec.target.ns == c.imports[k].spec.target.ns
      && (ns == p.cr.spec.target.ns && OwnedSecret(c, k, Key(ns, k.name)) ==>
            !p.stage.DropFinalizer? && (p.stage.CleanSecrets? ==> Key(ns, k.name) in p.stage.todo))
  }

  ghost predicate Tidy(s: State, k: Key, ns: string) {
    k in s.passes ==> Tidying(s.c, k, s.passes[k], ns)
  }

  lemma CleaningTidy(c: Cluster, k: Key, p: Pass, pick: Key, fault: bool, ns: string)
    requires Tidying(c, k, p, ns) && p.stage.Cleaning() && !p.stage.DropFinalizer?
    ensures var n := StepCleaning(c, k, p.cr, p.stage, pick, fault); n.pass.Some? ==>
      Tidying(n.cluster, k, n.pass.value, ns)
  {
    CleaningShrinks(c, k, p.cr, p.stage, pick, fault, k);
    assert OwnedSecret(c, k, Key(ns, k.name)) && ns == p.cr.spec.target.ns ==>
        Key(ns, k.name) in OwnedSecrets(c, k, p.cr);
  }

  lemma OwnTidy(c: Cluster, k: Key, p: Pass, pick: Key, fault: bool, ns: string)
    requires PassOk(c, k, p) && Tidying(c, k, p, ns)
    ensures var n := StepImport(c, k, p, pick, fault); n.pass.Some? ==> Tidying(n.cluster, k, n.pass.value, ns)
  {
    if p.stage.Cleaning() && !p.stage.DropFinalizer? {
      CleaningTidy(c, k, p, pick, fault, ns);
    } else {
      var n := StepImport(c, k, p, pick, fault);
      assert n.pass.Some? ==> !n.pass.value.stage.Cleaning();
    }
  }

  lemma TidyStep(s: State, a: Action, k: Key, ns: string)
    requires Coherent(s) && KeepsTargetInDeletion(s, a, k) && Tidy(s, k, ns)
    ensures Tidy(Apply(s, a), k, ns)
  {
    if a.StepImportPass? && a.k == k {
      if k in s.passes { OwnTidy(s.c, k, s.passes[k], a.pick, a.fault, ns); }
    } else {
      PassFrame(s, a, k);
      if k in s.passes && s.passes[k].stage.Cleaning() {
        assert PassOk(s.c, k, s.passes[k]);
        OthersShrink(s, a, k);
      }
    }
  }

  ghost predicate Spent(s: State, k: Key, ns: string, version: nat) {
    && version <= s.c.rv
    && (Key(ns, k.name) in s.c.secrets && s.c.secrets[Key(ns, k.name)].rv == version ==>
          OwnedSecret(s.c, k, Key(ns, k.name)))
    && (Present(s.c, k, ns, version) || Past(s, k, ns, version) || Closing(s, k, ns))
  }

  /** All the invariants a run keeps under these assumptions. */
  ghost predicate Sound(s: State, k: Key, ns: string) {
    Coherent(s) && Separate(s) && VersionsOk(s, k) && Tidy(s, k, ns) && Tracked(s, k, ns)
  }

  lemma PastStep(s: State, a: Action, k: Key, ns: string, version: nat)
    requires Coherent(s) && ValidKey(k) && Past(s, k, ns, version) && version <= s.c.rv
    ensures Past(Apply(s, a), k, ns, version)
  {
    StepStamped(s, a, k);
    if a.StepImportPass? && a.k == k {
      if k in s.passes { StepHolds(s.c, k, s.passes[k], a.pick, a.fault); }
    } else {
      PassFrame(s, a, k);
    }
  }

  lemma ForeignPresent(c: Cluster, j: Key, p: Pass, pick: Key, fault: bool, k: Key, ns: string, version: nat)
    requires PassOk(c, j, p) && Named(c) && Targets(j, p) && Present(c, k, ns, version)
    requires j.name == k.name ==> p.cr.spec.target.ns != ns
    ensures Present(StepImport(c, j, p, pick, fault).cluster, k, ns, version)
  {
    StepConfined(c, j, p, pick, fault);
    JobNameInjective(j.name, k.name);
    assert Key(ns, JobName(k.name)) != Key(p.cr.spec.target.ns, JobName(j.name));
  }

  lemma EnvironmentPresent(s: State, a: Action, k: Key, ns: string, version: nat)
    requires Enabled(s, a) && HandsOff(a, k, ns) && Present(s.c, k, ns, version)
    ensures Present(Environment(s.c, a), k, ns, version)
  {
    if a.EditsImport() { assert ImportEdited(s.c, a).jobs == s.c.jobs; }
  }

  /** Others cannot take the Job away. */
  lemma PresentElsewhere(s: State, a: Action, k: Key, ns: string, version: nat)
    requires Coherent(s) && Separate(s) && Orderly(s, a, k, ns) && Present(s.c, k, ns, version)
    requires !(a.StepImportPass? && a.k == k)
    ensures Present(Apply(s, a).c, k, ns, version)
  {
    if Enabled(s, a) {
      if a.StepImportPass? {
        ForeignPresent(s.c, a.k, s.passes[a.k], a.pick, a.fault, k, ns, version);
      } else if a.StepKeycloakPass? {
        KeycloakFrame(s.c, a.q, s.keycloakPasses[a.q], a.fault, a.broken);
      } else if !a.ByController() {
        EnvironmentPresent(s, a, k, ns, version);
      }
    }
  }

  lemma PresentScan(c: Cluster, k: Key, p: Pass, pick: Key, fault: bool, ns: string, version: nat)
    requires p.stage.ScanJobs? && Targets(k, p) && Present(c, k, ns, version)
    ensures var n := StepImport(c, k, p, pick, fault);
      n.cluster.secrets == c.secrets &&
      (Present(n.cluster, k, ns, version) ||
       (pick == Key(ns, JobName(k.name)) && pick in p.stage.jobs && p.cr.spec.target.ns == ns &&
        !Carries(p.stage.jobs[pick].labels, VersionLabel(k), Version(p.stage.version))))
  {
  }

  lemma PresentQuiet(c: Cluster, k: Key, p: Pass, pick: Key, fault: bool, ns: string, version: nat)
    requires !p.stage.ScanJobs? && !p.stage.CleanJobs? && Present(c, k, ns, version)
    ensures Present(StepImport(c, k, p, pick, fault).cluster, k, ns, version)
  {
    var c' := StepImport(c, k, p, pick, fault).cluster;
    if !p.stage.StartJob? { assert c'.jobs == c.jobs; }
  }

  /** A deletion pass takes the Job only in its own target namespace, and leaves the import as it is. */
  lemma CleanJobsTakes(c: Cluster, k: Key, p: Pass, pick: Key, fault: bool, ns: string, version: nat)
    requires p.stage.CleanJobs? && Targets(k, p) && Present(c, k, ns, version)
    ensures var n := StepImport(c, k, p, pick, fault);
      && (Present(n.cluster, k, ns, version) || p.cr.spec.target.ns == ns)
      && n.cluster.imports == c.imports && (n.pass.Some? ==> n.pass.value.cr == p.cr)
  {
    assert pick in p.stage.todo && p.cr.spec.target.ns != ns ==> pick != Key(ns, JobName(k.name));
  }

  /** Deleting the Job in a deletion pass leaves the import on its way out. */
  lemma PresentCleaning(s: State, a: Action, k: Key, ns: string, version: nat)
    requires Coherent(s) && Separate(s) && Tidy(s, k, ns) && Present(s.c, k, ns, version)
    requires a.StepImportPass? && a.k == k && k in s.passes && s.passes[k].stage.CleanJobs?
    ensures var s' := Apply(s, a); Present(s'.c, k, ns, version) || Closing(s', k, ns)
  {
    var p := s.passes[k];
    assert PassOk(s.c, k, p) && Targets(k, p);
    CleanJobsTakes(s.c, k, p, a.pick, a.fault, ns, version);
  }

  /** Deleting it in a working pass means that both the pass and the Secret are past the version. */
  lemma PresentScanned(s: State, a: Action, k: Key, ns: string, version: nat)
    requires Separate(s) && VersionsOk(s, k) && Tracked(s, k, ns) && Present(s.c, k, ns, version)
    requires a.StepImportPass? && a.k == k && k in s.passes && s.passes[k].stage.ScanJobs?
    ensures var s' := Apply(s, a); Present(s'.c, k, ns, version) || Past(s', k, ns, version)
  {
    var p := s.passes[k];
    assert Targets(k, p);
    PresentScan(s.c, k, p, a.pick, a.fault, ns, version);
    StepHolds(s.c, k, p, a.pick, a.fault);
  }

  /** The pass of `k` itself gives the Job up only for a newer version, or for good. */
  lemma PresentOwn(s: State, a: Action, k: Key, ns: string, version: nat)
    requires Sound(s, k, ns) && Present(s.c, k, ns, version)
    requires a.StepImportPass? && a.k == k && k in s.passes
    ensures var s' := Apply(s, a); Present(s'.c, k, ns, version) || Past(s', k, ns, version) || Closing(s', k, ns)
  {
    var p := s.passes[k];
    assert PassOk(s.c, k, p);
    if p.stage.CleanJobs? {
      PresentCleaning(s, a, k, ns, version);
    } else if p.stage.ScanJobs? {
      PresentScanned(s, a, k, ns, version);
    } else {
      PresentQuiet(s.c, k, p, a.pick, a.fault, ns, version);
    }
  }

  /** A deletion pass keeps the import pinned until nothing is left of it. */
  lemma ClosingOwn(c: Cluster, k: Key, p: Pass, pick: Key, fault: bool)
    requires PassOk(c, k, p) && p.cr.deleting && Pinned(c, k) && c.imports[k].deleting
    ensures var n := StepImport(c, k, p, pick, fault);
      && (n.pass.Some? ==> n.pass.value.cr.deleting && !n.pass.value.stage.HasVersion())
      && ((Pinned(n.cluster, k) && n.cluster.imports[k].deleting && n.cluster.imports[k].spec == c.imports[k].spec) ||
          (p.stage.DropFinalizer? && n.cluster.secrets == c.secrets))
  {
  }

  lemma ClosingStep(s: State, a: Action, k: Key, ns: string, version: nat)
    requires Coherent(s) && Tidy(s, k, ns) && KeepsTargetInDeletion(s, a, k) && Closing(s, k, ns)
    requires Key(ns, k.name) in s.c.secrets && s.c.secrets[Key(ns, k.name)].rv == version ==>
      OwnedSecret(s.c, k, Key(ns, k.name))
    ensures Closing(Apply(s, a), k, ns) || Past(Apply(s, a), k, ns, version)
  {
    if a.StepImportPass? && a.k == k {
      if k in s.passes {
        assert PassOk(s.c, k, s.passes[k]);
        ClosingOwn(s.c, k, s.passes[k], a.pick, a.fault);
      }
    } else {
      PassFrame(s, a, k);
      OthersShrink(s, a, k);
      StepEvolves(s, a, k);
    }
  }

  lemma EnvironmentKeepsPinned(s: State, a: Action, k: Key)
    requires Coherent(s) && Enabled(s, a) && !a.ByController() && Pinned(s.c, k) && s.c.imports[k].deleting
    ensures var c' := Environment(s.c, a); Pinned(c', k) && c'.imports[k].deleting
  {
    if a.EditsImport() { ImportEditedStep(s, a); } else { assert ObjectEdited(s.c, a).imports == s.c.imports; }
  }

  lemma StepEvolves(s: State, a: Action, k: Key)
    requires Coherent(s) && !(a.StepImportPass? && a.k == k) && Pinned(s.c, k) && s.c.imports[k].deleting
    ensures Pinned(Apply(s, a).c, k) && Apply(s, a).c.imports[k].deleting
  {
    if Enabled(s, a) {
      if a.StepImportPass? {
        ImportStep(s.c, a.k, s.passes[a.k], a.pick, a.fault);
      } else if a.StepKeycloakPass? {
        KeycloakFrame(s.c, a.q, s.keycloakPasses[a.q], a.fault, a.broken);
      } else if !a.ByController() {
        EnvironmentKeepsPinned(s, a, k);
      }
    }
  }

  lemma KeycloakFrame(c: Cluster, q: Key, p: KeycloakPass, fault: bool, broken: bool)
    ensures var c' := StepKeycloak(c, q, p, fault, broken).cluster;
      c'.jobs == c.jobs && c'.imports == c.imports && c'.secrets == c.secrets
  {
  }

  lemma SpentStep(s: State, a: Action, k: Key, ns: string, version: nat)
    requires Sound(s, k, ns) && ValidKey(k) && Orderly(s, a, k, ns) && Spent(s, k, ns, version)
    ensures Spent(Apply(s, a), k, ns, version)
  {
    StepStamped(s, a, k);
    if Past(s, k, ns, version) {
      PastStep(s, a, k, ns, version);
    } else if Closing(s, k, ns) {
      ClosingStep(s, a, k, ns, version);
    } else if !(a.StepImportPass? && a.k == k) {
      PresentElsewhere(s, a, k, ns, version);
    } else if k in s.passes {
      PresentOwn(s, a, k, ns, version);
    }
  }

  lemma CreationSpends(s: State, a: Action, k: Key, ns: string, version: nat)
    requires Coherent(s) && Tracked(s, k, ns) && VersionsOk(s, k) && ValidKey(k) && !Reserved(k) &&
      Creates(s, a, k, ns, version)
    ensures Spent(Apply(s, a), k, ns, version)
  {
    JobLabelsOwned(k, version);
    StartPresent(s.c, k, s.passes[k], a.pick, ns, version);
  }

  lemma StartPresent(c: Cluster, k: Key, p: Pass, pick: Key, ns: string, version: nat)
    requires ValidKey(k) && !Reserved(k) && p.stage.StartJob? && p.stage.version == version
    requires p.cr.spec.target.ns == ns && Key(ns, JobName(k.name)) !in c.jobs
    ensures var c' := StepImport(c, k, p, pick, false).cluster;
      c'.secrets == c.secrets && c.rv <= c'.rv && Present(c', k, ns, version)
  {
    JobLabelsOwned(k, version);
  }

  lemma SpentCreatesNothing(s: State, a: Action, k: Key, ns: string, version: nat)
    requires Coherent(s) && Spent(s, k, ns, version)
    ensures !Creates(s, a, k, ns, version)
  {
    assert k in s.passes ==> PassOk(s.c, k, s.passes[k]);
  }

  lemma {:induction false} ReachableSound(run: seq<Action>, k: Key, ns: string)
    requires ValidKey(k) && !Reserved(k)
    requires OrderlyRun(run, k, ns)
    ensures Sound(Exec(run), k, ns)
  {
    ReachableCoherent(run);
    ReachableSeparate(run);
    ReachableVersions(run, k);
    if run != [] {
      var before := run[..|run| - 1];
      OrderlyPrefix(run, |before|, k, ns);
      ReachableSound(before, k, ns);
      TrackedStep(Exec(before), run[|run| - 1], k, ns);
      TidyStep(Exec(before), run[|run| - 1], k, ns);
    }
  }

  /** Spent by a creation, and ever after. */
  lemma {:induction false} StaysSpent(before: seq<Action>, a: Action, after: seq<Action>, k: Key, ns: string,
      version: nat)
    requires ValidKey(k) && !Reserved(k) && OrderlyRun(before + [a] + after, k, ns) &&
      Creates(Exec(before), a, k, ns, version)
    ensures Spent(Exec(before + [a] + after), k, ns, version)
    decreases |after|
  {
    if after == [] {
      assert before + [a] + after == before + [a];
      RunSpent(before, a, k, ns, version, true);
    } else {
      var m := |after| - 1;
      assert before + [a] + after == before + [a] + after[..m] + [after[m]];
      assert (before + [a] + after)[..|before| + 1 + m] == before + [a] + after[..m];
      OrderlyPrefix(before + [a] + after, |before| + 1 + m, k, ns);
      StaysSpent(before, a, after[..m], k, ns, version);
      RunSpent(before + [a] + after[..m], after[m], k, ns, version, false);
    }
  }

  lemma RunSpent(run: seq<Action>, a: Action, k: Key, ns: string, version: nat, now: bool)
    requires ValidKey(k) && !Reserved(k) && OrderlyRun(run + [a], k, ns)
    requires if now then Creates(Exec(run), a, k, ns, version) else Spent(Exec(run), k, ns, version)
    ensures Spent(Exec(run + [a]), k, ns, version)
  {
    assert (run + [a])[..|run|] == run;
    OrderlyPrefix(run + [a], |run|, k, ns);
    ReachableSound(run, k, ns);
    SpentNext(Exec(run), a, k, ns, version, now);
  }

  lemma SpentNext(s: State, a: Action, k: Key, ns: string, version: nat, now: bool)
    requires Sound(s, k, ns) && ValidKey(k) && !Reserved(k) && Orderly(s, a, k, ns)
    requires if now then Creates(s, a, k, ns, version) else Spent(s, k, ns, version)
    ensures Spent(Apply(s, a), k, ns, version)
  {
    if now { CreationSpends(s, a, k, ns, version); } else { SpentStep(s, a, k, ns, version); }
  }

  /** The version a Job records is spent, from its creation on. */
  lemma {:induction false} HeldIsSpent(run: seq<Action>, k: Key, ns: string, version: nat)
    requires ValidKey(k) && !Reserved(k) && Holds(Exec(run).c, k, ns, version)
    requires OrderlyRun(run, k, ns)
    ensures Spent(Exec(run), k, ns, version)
  {
    if run != [] {
      var before, a := run[..|run| - 1], run[|run| - 1];
      OrderlyPrefix(run, |before|, k, ns);
      ReachableSound(before, k, ns);
      if Holds(Exec(before).c, k, ns, version) {
        HeldIsSpent(before, k, ns, version);
        SpentStep(Exec(before), a, k, ns, version);
      } else {
        NewlyHeld(Exec(before), a, k, ns, version);
        CreationSpends(Exec(before), a, k, ns, version);
      }
    }
  }

  lemma NewlyHeld(s: State, a: Action, k: Key, ns: string, version: nat)
    requires Coherent(s) && ValidKey(k) && !Holds(s.c, k, ns, version) && Holds(Apply(s, a).c, k, ns, version)
    ensures Creates(s, a, k, ns, version)
  {
    if OwnStart(s, a, k) {
      StartHolds(s, a, k, ns);
    } else {
      StepNoNewJob(s, a, k, ns);
    }
  }

  /** At most one Job per version: over any orderly run, a version for which the Job of an import has
      been created once never gets a second one. */
  lemma AtMostOneJobPerVersion(run: seq<Action>, first: nat, second: nat, k: Key, ns: string, version: nat)
    requires ValidKey(k) && !Reserved(k) && first < second < |run|
    requires OrderlyRun(run, k, ns)
    requires Creates(Exec(run[..first]), run[first], k, ns, version)
    ensures !Creates(Exec(run[..second]), run[second], k, ns, version)
  {
    var before := run[..second];
    OrderlyPrefix(run, second, k, ns);
    assert before == run[..first] + [run[first]] + run[first + 1..second];
    StaysSpent(run[..first], run[first], run[first + 1..second], k, ns, version);
    ReachableCoherent(before);
    SpentCreatesNothing(Exec(before), run[second], k, ns, version);
  }
}
