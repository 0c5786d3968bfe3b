/** What passes have witnessed. A version is recorded on a pod template only after a Job of that
    import labelled with it had completed, and a pass reports ready only on the evidence it saw. */
module History {
  import opened Names
  import opened Cluster
  import opened Passes
  import opened System
  import opened Coherence
  import opened Rollouts

  /** The states of a run, from the empty cluster on. */
  ghost function Trace(run: seq<Action>): (t: seq<State>)
    ensures |t| == |run| + 1 && t[|run|] == Exec(run)
  {
    if run == [] then [Initial()]
    else Trace(run[..|run| - 1]) + [Exec(run)]
  }

  /** The pass of `k` that is in progress now was already in progress in state `n`. */
  ghost predicate Since(trace: seq<State>, k: Key, n: nat) {
    n < |trace| && forall i :: n <= i < |trace| ==> k in trace[i].passes
  }

  ghost predicate KeycloakAt(s: State, q: Key, kc: Keycloak) {
    q in s.c.keycloaks && s.c.keycloaks[q] == kc && kc.ready
  }

  ghost predicate SecretAt(s: State, key: Key, k: Key, version: nat) {
    key in s.c.secrets && s.c.secrets[key].rv == version && s.c.secrets[key].labels == SecretLabels(k)
  }

  ghost predicate JobAt(s: State, ns: string, k: Key, job: Job) {
    Carries(job.labels, Owner, Text(k.name)) &&
    exists key :: key in s.c.jobs && key.ns == ns && s.c.jobs[key] == job
  }

  /** The pass in progress read this, at some point since it began. */
  ghost predicate SawKeycloak(trace: seq<State>, k: Key, q: Key, kc: Keycloak) {
    exists n: nat :: Since(trace, k, n) && KeycloakAt(trace[n], q, kc)
  }

  ghost predicate SawSecret(trace: seq<State>, k: Key, key: Key, version: nat) {
    exists n: nat :: Since(trace, k, n) && SecretAt(trace[n], key, k, version)
  }

  ghost predicate SawJob(trace: seq<State>, k: Key, ns: string, job: Job) {
    exists n: nat :: Since(trace, k, n) && JobAt(trace[n], ns, k, job)
  }

  /** At some point of the run, a completed Job of `k` labelled `version` was in namespace `ns`. */
  ghost predicate HadCompleted(trace: seq<State>, ns: string, k: Key, version: nat) {
    exists n, job :: 0 <= n < |trace| && JobAt(trace[n], ns, k, job) &&
      Carries(job.labels, VersionLabel(k), Version(version)) &&
      IsJobCompleted(job.conditions) && JobCondition(Complete, true) in job.conditions
  }

  /** Everything a pass holds, it saw. */
  ghost predicate Witnessed(trace: seq<State>, k: Key, p: Pass) {
    var t := p.stage;
    && (t.FetchSet? ==> SawKeycloak(trace, k, p.cr.spec.target, t.keycloak))
    && (t.HasContext() ==> SawKeycloak(trace, k, p.cr.spec.target, t.ctx.keycloak))
    && (t.HasVersion() ==> SawSecret(trace, k, SecretKey(k, p.cr), t.version))
    && (t.ScanJobs? ==> forall key :: key in t.jobs ==> SawJob(trace, k, p.cr.spec.target.ns, t.jobs[key]))
    && (t.Rollout? || t.ReportReady? ==>
          SawJob(trace, k, p.cr.spec.target.ns, t.job) && Carries(t.job.labels, VersionLabel(k), Version(t.version)))
    && (t.Rollout? ==> IsJobCompleted(t.job.conditions))
  }

  ghost predicate HistoryOk(trace: seq<State>, k: Key)
    requires trace != []
  {
    var s := trace[|trace| - 1];
    && (forall q :: Recorded(s.c, q, k) ==> HadCompleted(trace, q.ns, k, RecordedVersion(s.c, q, k)))
    && (k in s.passes ==> Witnessed(trace, k, s.passes[k]))
  }

  /** What was witnessed stays witnessed while the pass goes on. */
  lemma StillSeen(trace: seq<State>, s': State, k: Key)
    requires trace != [] && k in s'.passes
    ensures k in trace[|trace| - 1].passes ==> Since(trace + [s'], k, |trace| - 1)
    ensures forall q, kc :: SawKeycloak(trace, k, q, kc) ==> SawKeycloak(trace + [s'], k, q, kc)
    ensures forall key, v :: SawSecret(trace, k, key, v) ==> SawSecret(trace + [s'], k, key, v)
    ensures forall ns, job :: SawJob(trace, k, ns, job) ==> SawJob(trace + [s'], k, ns, job)
  {
    assert forall n: nat :: Since(trace, k, n) ==> Since(trace + [s'], k, n) && (trace + [s'])[n] == trace[n];
  }

  lemma StillCompleted(trace: seq<State>, s': State, k: Key)
    ensures forall ns, v :: HadCompleted(trace, ns, k, v) ==> HadCompleted(trace + [s'], ns, k, v)
  {
    assert forall n :: 0 <= n < |trace| ==> (trace + [s'])[n] == trace[n];
  }

  lemma WitnessedReading(trace: seq<State>, s': State, k: Key, p: Pass, fault: bool)
    requires trace != [] && trace[|trace| - 1].passes.Keys >= {k} && k in s'.passes
    requires Witnessed(trace, k, p) && p.stage.Reading()
    ensures Witnessed(trace + [s'], k, Pass(p.cr, StepReading(trace[|trace| - 1].c, k, p.cr, p.stage, fault)))
  {
    StillSeen(trace, s', k);
    assert (trace + [s'])[|trace| - 1] == trace[|trace| - 1];
    ReadingHolds(trace[|trace| - 1].c, k, p.cr, p.stage, fault);
  }

  lemma WitnessedArtefact(trace: seq<State>, s': State, k: Key, p: Pass, pick: Key, fault: bool)
    requires trace != [] && k in s'.passes && Witnessed(trace, k, p)
    requires p.stage.WriteRealm? || p.stage.ScanJobs? || p.stage.StartJob? || p.stage.Rollout?
    requires s'.c == StepArtefact(trace[|trace| - 1].c, k, p.cr, p.stage, pick, fault).cluster
    ensures var n := StepArtefact(trace[|trace| - 1].c, k, p.cr, p.stage, pick, fault);
            n.pass.Some? ==> Witnessed(trace + [s'], k, n.pass.value)
  {
    StillSeen(trace, s', k);
    assert (trace + [s'])[|trace|] == s' && Since(trace + [s'], k, |trace|);
    ArtefactHolds(trace[|trace| - 1].c, k, p.cr, p.stage, pick, fault);
  }

  lemma WitnessedStep(trace: seq<State>, k: Key, pick: Key, fault: bool)
    requires trace != []
    requires var s := trace[|trace| - 1]; k in s.passes && Witnessed(trace, k, s.passes[k])
    ensures var s' := Apply(trace[|trace| - 1], StepImportPass(k, pick, fault));
            k in s'.passes ==> Witnessed(trace + [s'], k, s'.passes[k])
  {
    var s := trace[|trace| - 1];
    var s' := Apply(s, StepImportPass(k, pick, fault));
    if k in s'.passes {
      var p := s.passes[k];
      if p.stage.Reading() {
        WitnessedReading(trace, s', k, p, fault);
      } else if p.stage.WriteRealm? || p.stage.ScanJobs? || p.stage.StartJob? || p.stage.Rollout? {
        WitnessedArtefact(trace, s', k, p, pick, fault);
      }
    }
  }

  /** A rollout records the version of the pass on its target, and nothing else. */
  lemma RolloutRecordsVersion(c: Cluster, k: Key, p: Pass, pick: Key, fault: bool)
    requires PassOk(c, k, p) && p.stage.Rollout?
    ensures var c' := StepImport(c, k, p, pick, fault).cluster;
            forall q :: Recorded(c', q, k) ==>
              (Recorded(c, q, k) && RecordedVersion(c, q, k) == RecordedVersion(c', q, k)) ||
              (q == p.cr.spec.target && RecordedVersion(c', q, k) == p.stage.version)
  {
  }

  lemma JobHadCompleted(trace: seq<State>, k: Key, p: Pass)
    requires p.stage.Rollout? && Witnessed(trace, k, p)
    ensures HadCompleted(trace, p.cr.spec.target.ns, k, p.stage.version)
  {
    CompletedExactly(p.stage.job.conditions);
    var n: nat :| Since(trace, k, n) && JobAt(trace[n], p.cr.spec.target.ns, k, p.stage.job);
  }

  lemma RecordedStep(trace: seq<State>, a: Action, k: Key)
    requires trace != [] && Coherent(trace[|trace| - 1]) && ValidKey(k) && HistoryOk(trace, k)
    ensures var s' := Apply(trace[|trace| - 1], a);
            forall q :: Recorded(s'.c, q, k) ==> HadCompleted(trace + [s'], q.ns, k, RecordedVersion(s'.c, q, k))
  {
    var s := trace[|trace| - 1];
    var s' := Apply(s, a);
    StillCompleted(trace, s', k);
    if OwnRollout(s, a, k) {
      var p := s.passes[k];
      RolloutRecordsVersion(s.c, k, p, a.pick, a.fault);
      JobHadCompleted(trace, k, p);
    } else {
      StepUnrecorded(s, a, k);
    }
  }

  lemma PassStep(trace: seq<State>, a: Action, k: Key)
    requires trace != [] && HistoryOk(trace, k)
    ensures var s' := Apply(trace[|trace| - 1], a);
            k in s'.passes ==> Witnessed(trace + [s'], k, s'.passes[k])
  {
    var s' := Apply(trace[|trace| - 1], a);
    if k in s'.passes {
      if a.StepImportPass? && a.k == k {
        WitnessedStep(trace, k, a.pick, a.fault);
      } else {
        PassFrame(trace[|trace| - 1], a, k);
        StillSeen(trace, s', k);
      }
    }
  }

  lemma {:induction false} ReachableHistory(run: seq<Action>, k: Key)
    requires ValidKey(k)
    ensures HistoryOk(Trace(run), k)
  {
    if run != [] {
      var before, a := run[..|run| - 1], run[|run| - 1];
      ReachableHistory(before, k);
      ReachableCoherent(before);
      RecordedStep(Trace(before), a, k);
      PassStep(Trace(before), a, k);
      assert Trace(run) == Trace(before) + [Apply(Exec(before), a)];
    }
  }

  /** Rollout safety: the pod template carries version `v` for an import only if a Job of that import
      labelled `v` had completed, in the namespace of the StatefulSet. */
  lemma RolloutSafety(run: seq<Action>, q: Key, k: Key)
    requires ValidKey(k) && Recorded(Exec(run).c, q, k)
    ensures HadCompleted(Trace(run), q.ns, k, RecordedVersion(Exec(run).c, q, k))
  {
    ReachableHistory(run, k);
  }
}
