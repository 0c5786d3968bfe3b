/** What it means that an import is reported ready. */
module Readiness {
  import opened Names
  import opened Cluster
  import opened Passes
  import opened System
  import opened Coherence
  import opened Rollouts
  import opened Isolation
  import opened History

  /** While a pass is in progress, nobody else changes what its StatefulSet records for its import. */
  ghost predicate Agrees(c: Cluster, k: Key, p: Pass) {
    var t, q := p.stage, p.cr.spec.target;
    && (t.HasContext() ==>
          t.ctx.sts.uid <= c.rv &&
          (q in c.sets && c.sets[q].uid == t.ctx.sts.uid ==> SameAnnotation(t.ctx.sts, c.sets[q], AnnotationKey(k))))
    && (t.ReportReady? && IsJobCompleted(t.job.conditions) ==> Annotated(t.ctx.sts, k, t.version))
  }

  ghost predicate UidsOk(c: Cluster) {
    forall q :: q in c.sets ==> c.sets[q].uid <= c.rv
  }

  ghost predicate ReadyOk(s: State, k: Key) {
    UidsOk(s.c) && (k in s.passes ==> Agrees(s.c, k, s.passes[k]))
  }

  /** A StatefulSet keeps its uid for life, and a new one gets a fresh uid. */
  ghost predicate UidsKept(c: Cluster, c': Cluster) {
    c.rv <= c'.rv && forall q :: q in c'.sets ==>
        (q in c.sets && c'.sets[q].uid == c.sets[q].uid) || c.rv < c'.sets[q].uid <= c'.rv
  }

  lemma RolloutUids(c: Cluster, k: Key, p: Pass, pick: Key, fault: bool)
    requires p.stage.Rollout?
    ensures UidsKept(c, StepImport(c, k, p, pick, fault).cluster)
  {
  }

  lemma ObjectEditedUids(c: Cluster, a: Action)
    ensures UidsKept(c, ObjectEdited(c, a))
  {
  }

  lemma KeycloakUids(c: Cluster, q: Key, p: KeycloakPass, fault: bool, broken: bool)
    ensures UidsKept(c, StepKeycloak(c, q, p, fault, broken).cluster)
  {
  }

  lemma ImportStepUids(c: Cluster, k: Key, p: Pass, pick: Key, fault: bool)
    ensures UidsKept(c, StepImport(c, k, p, pick, fault).cluster)
  {
    if p.stage.Rollout? {
      RolloutUids(c, k, p, pick, fault);
    } else {
      StepUntouched(c, k, p, pick, fault);
    }
  }

  lemma ImportEditedUids(c: Cluster, a: Action)
    ensures UidsKept(c, ImportEdited(c, a))
  {
    assert ImportEdited(c, a).sets == c.sets;
  }

  lemma StepUids(s: State, a: Action)
    ensures UidsKept(s.c, Apply(s, a).c)
  {
    if Enabled(s, a) {
      if a.StepImportPass? {
        ImportStepUids(s.c, a.k, s.passes[a.k], a.pick, a.fault);
      } else if a.StepKeycloakPass? {
        KeycloakUids(s.c, a.q, s.keycloakPasses[a.q], a.fault, a.broken);
      } else if !a.ByController() {
        if a.EditsImport() { ImportEditedUids(s.c, a); } else { ObjectEditedUids(s.c, a); }
      }
    }
  }

  lemma OwnArtefactReady(c: Cluster, k: Key, p: Pass, pick: Key, fault: bool)
    requires PassOk(c, k, p) && Agrees(c, k, p) &&
      (p.stage.WriteRealm? || p.stage.ScanJobs? || p.stage.StartJob? || p.stage.Rollout?)
    ensures var n := StepArtefact(c, k, p.cr, p.stage, pick, fault);
      n.pass.Some? ==> Agrees(if p.stage.Rollout? then n.cluster else c, k, n.pass.value)
  {
  }

  lemma OwnReady(c: Cluster, k: Key, p: Pass, pick: Key, fault: bool)
    requires PassOk(c, k, p) && UidsOk(c) && Agrees(c, k, p)
    ensures var n := StepImport(c, k, p, pick, fault);
      n.pass.Some? ==> Agrees(if p.stage.Rollout? then n.cluster else c, k, n.pass.value)
  {
    var t := p.stage;
    if t.Reading() {
      ReadingHolds(c, k, p.cr, t, fault);
    } else if t.WriteRealm? || t.ScanJobs? || t.StartJob? || t.Rollout? {
      OwnArtefactReady(c, k, p, pick, fault);
    } else {
      var n := StepImport(c, k, p, pick, fault);
      assert n.pass.Some? ==> !n.pass.value.stage.HasContext();
    }
  }

  lemma AgreesKept(c: Cluster, c': Cluster, k: Key, p: Pass)
    requires UidsKept(c, c') && Unrecorded(c, c', k) && NoneLost(c, c', k) && UidsOk(c) && Agrees(c, k, p)
    ensures Agrees(c', k, p)
  {
    var q := p.cr.spec.target;
    if q in c.sets && q in c'.sets {
      assert Recorded(c, q, k) <==> Recorded(c', q, k);
    }
  }

  lemma ReadyStep(s: State, a: Action, k: Key)
    requires Coherent(s) && ValidKey(k) && ReadyOk(s, k)
    ensures ReadyOk(Apply(s, a), k)
  {
    var s' := Apply(s, a);
    StepUids(s, a);
    if a.StepImportPass? && a.k == k {
      if k in s.passes {
        var p := s.passes[k];
        OwnReady(s.c, k, p, a.pick, a.fault);
        if !p.stage.Rollout? && k in s'.passes {
          StepUnrecorded(s, a, k);
          AgreesKept(s.c, s'.c, k, s'.passes[k]);
        }
      }
    } else {
      StepUnrecorded(s, a, k);
      PassFrame(s, a, k);
      if k in s'.passes && k in s.passes { AgreesKept(s.c, s'.c, k, s.passes[k]); }
    }
  }

  lemma {:induction false} ReachableReady(run: seq<Action>, k: Key)
    requires ValidKey(k)
    ensures ReadyOk(Exec(run), k)
  {
    if run != [] {
      ReachableReady(run[..|run| - 1], k);
      ReachableCoherent(run[..|run| - 1]);
      ReadyStep(Exec(run[..|run| - 1]), run[|run| - 1], k);
    }
  }

  // What a pass has made of the StatefulSet it read.

  ghost predicate SetAt(s: State, q: Key, sts: StatefulSet) {
    q in s.c.sets && s.c.sets[q] == sts
  }

  /** The pass still holds the StatefulSet it read, or has just recorded its version on it. */
  ghost predicate MadeFrom(k: Key, t: Stage, read: StatefulSet)
    requires t.HasContext()
  {
    t.ctx.sts == read ||
    (t.ReportReady? && IsJobCompleted(t.job.conditions) && !Annotated(read, k, t.version) &&
        Annotated(t.ctx.sts, k, t.version))
  }

  ghost predicate SawSet(trace: seq<State>, k: Key, q: Key, t: Stage)
    requires t.HasContext()
  {
    exists n: nat, read :: Since(trace, k, n) && SetAt(trace[n], q, read) && MadeFrom(k, t, read)
  }

  ghost predicate SetWitnessed(trace: seq<State>, k: Key, p: Pass) {
    && (p.stage.HasContext() ==> SawSet(trace, k, p.cr.spec.target, p.stage))
    && (p.stage.Rollout? ==> !Annotated(p.stage.ctx.sts, k, p.stage.version) && IsJobCompleted(p.stage.job.conditions))
  }

  /** What becomes of the StatefulSet in one step of the pass. */
  lemma StepMakes(c: Cluster, k: Key, p: Pass, pick: Key, fault: bool)
    requires p.stage.Rollout? ==>
      !Annotated(p.stage.ctx.sts, k, p.stage.version) && IsJobCompleted(p.stage.job.conditions)
    ensures var n := StepImport(c, k, p, pick, fault);
      n.pass.Some? && n.pass.value.stage.HasContext() ==>
        var t, t' := p.stage, n.pass.value.stage;
        && n.pass.value.cr == p.cr
        && (t.FetchSet? || t.HasContext())
        && (t.FetchSet? ==> p.cr.spec.target in c.sets && t'.ctx.sts == c.sets[p.cr.spec.target])
        && (t.HasContext() ==> forall read :: MadeFrom(k, t, read) ==> MadeFrom(k, t', read))
        && (t'.Rollout? ==> !Annotated(t'.ctx.sts, k, t'.version) && IsJobCompleted(t'.job.conditions))
  {
    if p.stage.Reading() {
      ReadingMakes(c, k, p, fault);
    } else if p.stage.WriteRealm? || p.stage.ScanJobs? || p.stage.StartJob? || p.stage.Rollout? {
      ArtefactMakes(c, k, p, pick, fault);
    }
  }

  lemma ReadingMakes(c: Cluster, k: Key, p: Pass, fault: bool)
    requires p.stage.Reading()
    ensures var t, t' := p.stage, StepReading(c, k, p.cr, p.stage, fault);
      t'.HasContext() ==>
        && (t.FetchSet? || t.HasContext()) && !t'.Rollout? && !t'.ReportReady?
        && (t.FetchSet? ==> p.cr.spec.target in c.sets && t'.ctx.sts == c.sets[p.cr.spec.target])
        && (t.HasContext() ==> t'.ctx == t.ctx)
  {
  }

  lemma ArtefactMakes(c: Cluster, k: Key, p: Pass, pick: Key, fault: bool)
    requires p.stage.WriteRealm? || p.stage.ScanJobs? || p.stage.StartJob? || p.stage.Rollout?
    requires p.stage.Rollout? ==>
      !Annotated(p.stage.ctx.sts, k, p.stage.version) && IsJobCompleted(p.stage.job.conditions)
    ensures var n := StepArtefact(c, k, p.cr, p.stage, pick, fault);
      n.pass.Some? && n.pass.value.stage.HasContext() ==>
        var t, t' := p.stage, n.pass.value.stage;
        && n.pass.value.cr == p.cr
        && (t'.ctx.sts == t.ctx.sts ||
              (t.Rollout? && t'.ReportReady? && t'.job == t.job && t'.version == t.version &&
              Annotated(t'.ctx.sts, k, t'.version)))
        && (t'.Rollout? ==> !Annotated(t'.ctx.sts, k, t'.version) && IsJobCompleted(t'.job.conditions))
  {
  }

  lemma SetStep(trace: seq<State>, a: Action, k: Key)
    requires trace != []
    requires var s := trace[|trace| - 1]; k in s.passes ==> SetWitnessed(trace, k, s.passes[k])
    ensures var s' := Apply(trace[|trace| - 1], a); k in s'.passes ==> SetWitnessed(trace + [s'], k, s'.passes[k])
  {
    var s := trace[|trace| - 1];
    var s' := Apply(s, a);
    var longer := trace + [s'];
    if k in s'.passes {
      assert forall n: nat :: Since(trace, k, n) ==> Since(longer, k, n) && longer[n] == trace[n];
      if a.StepImportPass? && a.k == k {
        var p := s.passes[k];
        StepMakes(s.c, k, p, a.pick, a.fault);
        assert Since(longer, k, |trace| - 1) && longer[|trace| - 1] == s;
        var t' := s'.passes[k].stage;
        if t'.HasContext() {
          if p.stage.FetchSet? {
            assert SetAt(longer[|trace| - 1], p.cr.spec.target, t'.ctx.sts) && MadeFrom(k, t', t'.ctx.sts);
          } else {
            var n: nat, read :| Since(trace, k, n) && SetAt(trace[n], p.cr.spec.target, read) &&
                MadeFrom(k, p.stage, read);
            assert SetAt(longer[n], p.cr.spec.target, read) && MadeFrom(k, t', read);
          }
        }
      } else {
        PassFrame(s, a, k);
      }
    }
  }

  lemma {:induction false} ReachableSet(run: seq<Action>, k: Key)
    ensures k in Exec(run).passes ==> SetWitnessed(Trace(run), k, Exec(run).passes[k])
  {
    if run != [] {
      ReachableSet(run[..|run| - 1], k);
      SetStep(Trace(run[..|run| - 1]), run[|run| - 1], k);
    }
  }

  /** The evidence on which the pass of `k` in progress may report ready. */
  ghost predicate Evidence(trace: seq<State>, c: Cluster, k: Key, p: Pass)
    requires p.stage.ReportReady?
  {
    var t, q := p.stage, p.cr.spec.target;
    && SawKeycloak(trace, k, q, t.ctx.keycloak)
    && SawSecret(trace, k, SecretKey(k, p.cr), t.version)
    && SawJob(trace, k, q.ns, t.job) && Carries(t.job.labels, VersionLabel(k), Version(t.version))
    && (q in c.sets && c.sets[q].uid == t.ctx.sts.uid ==>
          ((AnnotationKey(k) in c.sets[q].annotations && c.sets[q].annotations[AnnotationKey(k)] == t.version) <==>
           RecordedOrDue(trace, k, q, t)))
  }

  /** The Job had completed, or the version had been recorded when the StatefulSet was read. */
  ghost predicate RecordedOrDue(trace: seq<State>, k: Key, q: Key, t: Stage)
    requires t.ReportReady?
  {
    exists n: nat, read :: Since(trace, k, n) && SetAt(trace[n], q, read) && MadeFrom(k, t, read) &&
      ((JobCondition(Complete, true) in t.job.conditions && IsJobCompleted(t.job.conditions)) ||
       (AnnotationKey(k) in read.annotations && read.annotations[AnnotationKey(k)] == t.version))
  }

  /** A pass about to report ready saw, since it began, a ready Keycloak, the import Secret at some
      version and a Job labelled with that version. Unless the StatefulSet has been deleted
      meanwhile, it records that version exactly when the Job was complete or the version was
      recorded already. Otherwise the Job has not completed, and ready is reported all the same. */
  lemma ReadyHasEvidence(run: seq<Action>, k: Key)
    requires ValidKey(k) && k in Exec(run).passes && Exec(run).passes[k].stage.ReportReady?
    ensures Evidence(Trace(run), Exec(run).c, k, Exec(run).passes[k])
  {
    ReachableHistory(run, k);
    ReachableReady(run, k);
    ReachableSet(run, k);
    FromHistory(Trace(run), Exec(run), k);
  }

  lemma FromHistory(trace: seq<State>, s: State, k: Key)
    requires k in s.passes && s.passes[k].stage.ReportReady?
    requires Witnessed(trace, k, s.passes[k]) && Agrees(s.c, k, s.passes[k]) && SetWitnessed(trace, k, s.passes[k])
    ensures Evidence(trace, s.c, k, s.passes[k])
  {
    var p := s.passes[k];
    ExactlyRecorded(trace, k, p.cr.spec.target, p.stage);
  }

  lemma ExactlyRecorded(trace: seq<State>, k: Key, q: Key, t: Stage)
    requires t.ReportReady? && SawSet(trace, k, q, t)
    requires IsJobCompleted(t.job.conditions) ==> Annotated(t.ctx.sts, k, t.version)
    ensures Annotated(t.ctx.sts, k, t.version) <==> RecordedOrDue(trace, k, q, t)
  {
    CompletedExactly(t.job.conditions);
    var n: nat, read :| Since(trace, k, n) && SetAt(trace[n], q, read) && MadeFrom(k, t, read);
  }

  /** So a pass that reports ready on a completed Job leaves exactly its version recorded. */
  lemma CompletedMeansRecorded(run: seq<Action>, k: Key)
    requires ValidKey(k) && k in Exec(run).passes && Exec(run).passes[k].stage.ReportReady?
    ensures var c, p := Exec(run).c, Exec(run).passes[k];
      var t, q := p.stage, p.cr.spec.target;
      IsJobCompleted(t.job.conditions) && q in c.sets && c.sets[q].uid == t.ctx.sts.uid ==>
        AnnotationKey(k) in c.sets[q].annotations && c.sets[q].annotations[AnnotationKey(k)] == t.version
  {
    ReachableReady(run, k);
  }

  ghost predicate IsReady(c: Cluster, k: Key) {
    k in c.imports && c.imports[k].status == Ready
  }

  lemma ImportObjectStatus(c: Cluster, j: Key, p: Pass, fault: bool, k: Key)
    requires PassOk(c, j, p) && (p.stage.DropFinalizer? || p.stage.AddFinalizer? || p.stage.ReportError?)
    ensures IsReady(StepImportObject(c, j, p.cr, p.stage, fault).cluster, k) ==> IsReady(c, k)
  {
  }

  lemma ReportStatus(c: Cluster, j: Key, p: Pass, fault: bool, k: Key)
    requires p.stage.ReportReady? && j != k
    ensures IsReady(StepImportObject(c, j, p.cr, p.stage, fault).cluster, k) ==> IsReady(c, k)
  {
  }

  lemma ArtefactStatus(c: Cluster, j: Key, p: Pass, pick: Key, fault: bool)
    requires p.stage.WriteRealm? || p.stage.ScanJobs? || p.stage.StartJob? || p.stage.Rollout?
    ensures StepArtefact(c, j, p.cr, p.stage, pick, fault).cluster.imports == c.imports
  {
  }

  lemma ImportStatusFrame(c: Cluster, j: Key, p: Pass, pick: Key, fault: bool, k: Key)
    requires PassOk(c, j, p) && !(j == k && p.stage.ReportReady?)
    ensures IsReady(StepImport(c, j, p, pick, fault).cluster, k) ==> IsReady(c, k)
  {
    var t := p.stage;
    if t.Reading() {
      assert StepImport(c, j, p, pick, fault).cluster == c;
    } else if t.Cleaning() && !t.DropFinalizer? {
      assert StepCleaning(c, j, p.cr, t, pick, fault).cluster.imports == c.imports;
    } else if t.WriteRealm? || t.ScanJobs? || t.StartJob? || t.Rollout? {
      ArtefactStatus(c, j, p, pick, fault);
    } else if t.ReportReady? {
      ReportStatus(c, j, p, fault, k);
    } else {
      ImportObjectStatus(c, j, p, fault, k);
    }
  }

  lemma EnvironmentStatus(s: State, a: Action, k: Key)
    requires Enabled(s, a) && !a.ByController()
    ensures IsReady(Environment(s.c, a), k) ==> IsReady(s.c, k)
  {
    if !a.EditsImport() {
      assert ObjectEdited(s.c, a).imports == s.c.imports;
    }
  }

  ghost predicate ReportsReady(s: State, a: Action, k: Key) {
    a.StepImportPass? && a.k == k && k in s.passes && s.passes[k].stage.ReportReady?
  }

  /** Only such a report makes an import ready. */
  lemma OnlyReportsMakeReady(run: seq<Action>, a: Action, k: Key)
    ensures !IsReady(Exec(run).c, k) && IsReady(Exec(run + [a]).c, k) ==> ReportsReady(Exec(run), a, k)
  {
    assert (run + [a])[..|run|] == run;
    ReachableCoherent(run);
    if !ReportsReady(Exec(run), a, k) { NoReport(Exec(run), a, k); }
  }

  lemma NoReport(s: State, a: Action, k: Key)
    requires Coherent(s) && !ReportsReady(s, a, k)
    ensures IsReady(Apply(s, a).c, k) ==> IsReady(s.c, k)
  {
    if Enabled(s, a) {
      if a.StepImportPass? {
        ImportStatusFrame(s.c, a.k, s.passes[a.k], a.pick, a.fault, k);
      } else if a.StepKeycloakPass? {
        assert StepKeycloak(s.c, a.q, s.keycloakPasses[a.q], a.fault, a.broken).cluster.imports == s.c.imports;
      } else if !a.ByController() {
        EnvironmentStatus(s, a, k);
      }
    }
  }

  // When a Keycloak is reported ready.

  ghost predicate KeycloakSince(trace: seq<State>, q: Key, n: nat) {
    n < |trace| && forall i :: n <= i < |trace| ==> q in trace[i].keycloakPasses
  }

  /** The StatefulSet of `q` was built for this spec and had all its replicas ready. */
  ghost predicate AllReady(s: State, q: Key, spec: nat) {
    q in s.c.sets && s.c.sets[q].workload.spec == spec && s.c.sets[q].readyReplicas == s.c.sets[q].replicas
  }

  ghost predicate SawAllReady(trace: seq<State>, q: Key, spec: nat) {
    exists n: nat :: KeycloakSince(trace, q, n) && AllReady(trace[n], q, spec)
  }

  ghost predicate KeycloakWitnessed(trace: seq<State>, q: Key, p: KeycloakPass) {
    p.Report? && p.ready ==> SawAllReady(trace, q, p.kc.spec)
  }

  lemma KeycloakReports(c: Cluster, q: Key, p: KeycloakPass, fault: bool, broken: bool)
    ensures var n := StepKeycloak(c, q, p, fault, broken);
      n.pass.Some? && n.pass.value.Report? && n.pass.value.ready ==>
        && q in n.cluster.sets && n.cluster.sets[q].readyReplicas == n.cluster.sets[q].replicas
        && n.pass.value.kc == p.kc && !p.Report? && (p.ReadSet? ==> n.cluster.sets[q].workload.spec == p.kc.spec)
        && (p.WriteSet? ==> n.cluster.sets[q].workload == p.workload)
  {
  }

  /** A pass about to write has the workload of its Keycloak in hand. */
  ghost predicate Desired(p: KeycloakPass) {
    p.WriteSet? ==> p.workload.spec == p.kc.spec
  }

  lemma KeycloakWitnessStep(trace: seq<State>, a: Action, q: Key)
    requires trace != []
    requires var s := trace[|trace| - 1];
      q in s.keycloakPasses ==> KeycloakWitnessed(trace, q, s.keycloakPasses[q]) && Desired(s.keycloakPasses[q])
    ensures var s' := Apply(trace[|trace| - 1], a);
      q in s'.keycloakPasses ==>
          KeycloakWitnessed(trace + [s'], q, s'.keycloakPasses[q]) && Desired(s'.keycloakPasses[q])
  {
    var s := trace[|trace| - 1];
    var s' := Apply(s, a);
    var longer := trace + [s'];
    if q in s'.keycloakPasses {
      assert forall n: nat :: KeycloakSince(trace, q, n) ==> KeycloakSince(longer, q, n) && longer[n] == trace[n];
      assert KeycloakSince(longer, q, |trace|) && longer[|trace|] == s';
      if a.StepKeycloakPass? && a.q == q {
        KeycloakReports(s.c, q, s.keycloakPasses[q], a.fault, a.broken);
        assert s'.keycloakPasses[q].Report? && s'.keycloakPasses[q].ready ==>
            AllReady(longer[|trace|], q, s'.keycloakPasses[q].kc.spec);
      }
    }
  }

  lemma {:induction false} ReachableKeycloak(run: seq<Action>, q: Key)
    ensures var s := Exec(run);
      q in s.keycloakPasses ==> KeycloakWitnessed(Trace(run), q, s.keycloakPasses[q]) && Desired(s.keycloakPasses[q])
  {
    if run != [] {
      ReachableKeycloak(run[..|run| - 1], q);
      KeycloakWitnessStep(Trace(run[..|run| - 1]), run[|run| - 1], q);
    }
  }

  ghost predicate KeycloakReady(c: Cluster, q: Key) {
    q in c.keycloaks && c.keycloaks[q].ready
  }

  lemma EditsKeepKeycloak(c: Cluster, a: Action, q: Key)
    ensures KeycloakReady(ObjectEdited(c, a), q) ==> KeycloakReady(c, q)
    ensures ImportEdited(c, a).keycloaks == c.keycloaks
  {
  }

  lemma OtherKeycloakReport(c: Cluster, r: Key, p: KeycloakPass, fault: bool, broken: bool, q: Key)
    requires r != q
    ensures KeycloakReady(StepKeycloak(c, r, p, fault, broken).cluster, q) ==> KeycloakReady(c, q)
  {
  }

  lemma NoKeycloakReport(s: State, a: Action, q: Key)
    requires !(a.StepKeycloakPass? && a.q == q)
    ensures KeycloakReady(Apply(s, a).c, q) ==> KeycloakReady(s.c, q)
  {
    if Enabled(s, a) {
      if a.StepImportPass? {
        KeycloaksUntouched(s.c, a.k, s.passes[a.k], a.pick, a.fault);
      } else if a.StepKeycloakPass? {
        OtherKeycloakReport(s.c, a.q, s.keycloakPasses[a.q], a.fault, a.broken, q);
      } else if !a.ByController() {
        EditsKeepKeycloak(s.c, a, q);
      }
    }
  }

  lemma KeycloaksUntouched(c: Cluster, k: Key, p: Pass, pick: Key, fault: bool)
    ensures StepImport(c, k, p, pick, fault).cluster.keycloaks == c.keycloaks
  {
    var t := p.stage;
    if t.Cleaning() && !t.DropFinalizer? {
      assert StepCleaning(c, k, p.cr, t, pick, fault).cluster.keycloaks == c.keycloaks;
    } else if t.WriteRealm? || t.ScanJobs? || t.StartJob? || t.Rollout? {
      assert StepArtefact(c, k, p.cr, t, pick, fault).cluster.keycloaks == c.keycloaks;
    } else if !t.Reading() {
      ImportWrite(c, k, p.cr, t, fault);
    }
  }

  /** Only a report that all replicas are ready turns a Keycloak ready. */
  lemma ReportTurnsReady(s: State, a: Action, q: Key)
    requires a.StepKeycloakPass? && a.q == q && !KeycloakReady(s.c, q) && KeycloakReady(Apply(s, a).c, q)
    ensures q in s.keycloakPasses && s.keycloakPasses[q].Report? && s.keycloakPasses[q].ready
  {
  }

  /** Whenever a Keycloak turns ready, it does so by the report of a pass which saw, since it began,
      the StatefulSet built for the spec it had read, with as many ready replicas as replicas. So it
      had a ready pod exactly if it had replicas at all. */
  lemma KeycloakReadyHasEvidence(run: seq<Action>, a: Action, q: Key)
    requires !KeycloakReady(Exec(run).c, q) && KeycloakReady(Exec(run + [a]).c, q)
    ensures a.StepKeycloakPass? && a.q == q && q in Exec(run).keycloakPasses && Exec(run).keycloakPasses[q].Report?
    ensures exists n: nat ::
      && KeycloakSince(Trace(run), q, n) && AllReady(Trace(run)[n], q, Exec(run).keycloakPasses[q].kc.spec)
      && (Trace(run)[n].c.sets[q].readyReplicas > 0 <==> Trace(run)[n].c.sets[q].replicas > 0)
  {
    assert (run + [a])[..|run|] == run;
    TurnsReady(Exec(run), a, q);
    ReachableKeycloak(run, q);
  }

  lemma TurnsReady(s: State, a: Action, q: Key)
    requires !KeycloakReady(s.c, q) && KeycloakReady(Apply(s, a).c, q)
    ensures a.StepKeycloakPass? && a.q == q
    ensures q in s.keycloakPasses && s.keycloakPasses[q].Report? && s.keycloakPasses[q].ready
  {
    if a.StepKeycloakPass? && a.q == q {
      ReportTurnsReady(s, a, q);
    } else {
      NoKeycloakReport(s, a, q);
      assert false;
    }
  }
}
