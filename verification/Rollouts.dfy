/** No lost rollout: under every interleaving, the version recorded for an import on the pod
    template survives and never decreases while the StatefulSet exists. */
module Rollouts {
  import opened Names
  import opened Cluster
  import opened Passes
  import opened System
  import opened Coherence

  ghost predicate Recorded(c: Cluster, q: Key, k: Key) {
    q in c.sets && AnnotationKey(k) in c.sets[q].annotations
  }

  ghost function RecordedVersion(c: Cluster, q: Key, k: Key): nat
    requires Recorded(c, q, k)
  {
    c.sets[q].annotations[AnnotationKey(k)]
  }

  /** A recorded version never exceeds that of the import Secret next to it. */
  ghost predicate Bounded(c: Cluster, k: Key) {
    forall q :: Recorded(c, q, k) ==>
      RecordedVersion(c, q, k) <= c.rv &&
      (Key(q.ns, k.name) in c.secrets ==> RecordedVersion(c, q, k) <= c.secrets[Key(q.ns, k.name)].rv)
  }

  /** The version a pass works for lies between what is recorded and what the Secret has become. */
  ghost predicate VersionOk(c: Cluster, k: Key, p: Pass) {
    p.stage.HasVersion() ==>
      && p.stage.version <= c.rv
      && (SecretKey(k, p.cr) in c.secrets ==> p.stage.version <= c.secrets[SecretKey(k, p.cr)].rv)
      && (forall q :: Recorded(c, q, k) && q.ns == p.cr.spec.target.ns ==> RecordedVersion(c, q, k) <= p.stage.version)
  }

  ghost predicate VersionsOk(s: State, k: Key) {
    Bounded(s.c, k) && (k in s.passes ==> VersionOk(s.c, k, s.passes[k]))
  }

  /** Every Secret that changed got a fresh version, and nothing is newly recorded for `k`. */
  ghost predicate Unrecorded(c: Cluster, c': Cluster, k: Key) {
    && SecretsStamped(c, c')
    && (forall q :: Recorded(c', q, k) ==> Recorded(c, q, k) && RecordedVersion(c, q, k) == RecordedVersion(c', q, k))
  }

  /** Nothing recorded for `k` disappears while the StatefulSet stays, and versions only grow. */
  ghost predicate NoneLost(c: Cluster, c': Cluster, k: Key) {
    forall q :: Recorded(c, q, k) && q in c'.sets ==>
      Recorded(c', q, k) && RecordedVersion(c, q, k) <= RecordedVersion(c', q, k)
  }

  lemma UnrecordedKeeps(c: Cluster, c': Cluster, k: Key)
    requires Unrecorded(c, c', k) && Bounded(c, k)
    ensures Bounded(c', k)
    ensures forall p :: VersionOk(c, k, p) ==> VersionOk(c', k, p)
  {
  }

  /** The only call that records a version for `k` is the rollout of the pass of `k`. */
  ghost predicate OwnRollout(s: State, a: Action, k: Key) {
    a.StepImportPass? && a.k == k && k in s.passes && s.passes[k].stage.Rollout?
  }

  lemma ForeignRollout(c: Cluster, j: Key, p: Pass, pick: Key, fault: bool, k: Key)
    requires PassOk(c, j, p) && p.stage.Rollout? && ValidKey(k) && j != k
    ensures Unrecorded(c, StepImport(c, j, p, pick, fault).cluster, k)
    ensures NoneLost(c, StepImport(c, j, p, pick, fault).cluster, k)
  {
    AnnotationKeyInjective(j, k);
  }

  ghost predicate SetsUntouched(c: Cluster, c': Cluster) {
    SecretsStamped(c, c') && c'.sets == c.sets
  }

  lemma CleaningUntouched(c: Cluster, k: Key, cr: Import, t: Stage, pick: Key, fault: bool)
    requires t.Cleaning() && !t.DropFinalizer?
    ensures SetsUntouched(c, StepCleaning(c, k, cr, t, pick, fault).cluster)
  {
  }

  lemma ArtefactUntouched(c: Cluster, k: Key, cr: Import, t: Stage, pick: Key, fault: bool)
    requires t.WriteRealm? || t.ScanJobs? || t.StartJob?
    ensures SetsUntouched(c, StepArtefact(c, k, cr, t, pick, fault).cluster)
  {
  }

  lemma ImportObjectUntouched(c: Cluster, k: Key, cr: Import, t: Stage, fault: bool)
    requires t.DropFinalizer? || t.AddFinalizer? || t.ReportError? || t.ReportReady?
    ensures SetsUntouched(c, StepImportObject(c, k, cr, t, fault).cluster)
  {
  }

  lemma StepUntouched(c: Cluster, k: Key, p: Pass, pick: Key, fault: bool)
    requires !p.stage.Rollout?
    ensures SetsUntouched(c, StepImport(c, k, p, pick, fault).cluster)
  {
    var t := p.stage;
    if t.Reading() {
    } else if t.Cleaning() && !t.DropFinalizer? {
      CleaningUntouched(c, k, p.cr, t, pick, fault);
    } else if t.WriteRealm? || t.ScanJobs? || t.StartJob? {
      ArtefactUntouched(c, k, p.cr, t, pick, fault);
    } else {
      ImportObjectUntouched(c, k, p.cr, t, fault);
    }
  }

  lemma WriteSetUnrecorded(c: Cluster, q: Key, p: KeycloakPass, fault: bool, broken: bool, k: Key)
    requires KeycloakPassOk(c, q, p) && p.WriteSet?
    ensures var c' := StepKeycloak(c, q, p, fault, broken).cluster; Unrecorded(c, c', k) && NoneLost(c, c', k)
  {
    assert StepKeycloak(c, q, p, fault, broken).cluster.secrets == c.secrets;
  }

  lemma KeycloakUnrecorded(c: Cluster, q: Key, p: KeycloakPass, fault: bool, broken: bool, k: Key)
    requires KeycloakPassOk(c, q, p)
    ensures var c' := StepKeycloak(c, q, p, fault, broken).cluster; Unrecorded(c, c', k) && NoneLost(c, c', k)
  {
    if p.WriteSet? {
      WriteSetUnrecorded(c, q, p, fault, broken, k);
    } else {
      var c' := StepKeycloak(c, q, p, fault, broken).cluster;
      assert c'.secrets == c.secrets && c'.sets == c.sets;
    }
  }

  lemma SetEditedUnrecorded(c: Cluster, a: Action, k: Key)
    requires a.RemoveSet? || a.SetReplicas?
    ensures Unrecorded(c, ObjectEdited(c, a), k) && NoneLost(c, ObjectEdited(c, a), k)
  {
    ObjectTouches(c, a);
  }

  lemma ObjectEditedUnrecorded(c: Cluster, a: Action, k: Key)
    ensures Unrecorded(c, ObjectEdited(c, a), k) && NoneLost(c, ObjectEdited(c, a), k)
  {
    ObjectTouches(c, a);
    if a.RemoveSet? || a.SetReplicas? {
      SetEditedUnrecorded(c, a, k);
    } else {
      ObjectStamped(c, a);
    }
  }

  lemma ObjectStamped(c: Cluster, a: Action)
    ensures SecretsStamped(c, ObjectEdited(c, a))
  {
    ObjectTouches(c, a);
  }

  lemma ImportEditedUnrecorded(c: Cluster, a: Action, k: Key)
    ensures Unrecorded(c, ImportEdited(c, a), k) && NoneLost(c, ImportEdited(c, a), k)
  {
    assert ImportEdited(c, a).sets == c.sets && ImportEdited(c, a).secrets == c.secrets;
  }

  lemma StepUnrecorded(s: State, a: Action, k: Key)
    requires Coherent(s) && ValidKey(k) && !OwnRollout(s, a, k)
    ensures Unrecorded(s.c, Apply(s, a).c, k) && NoneLost(s.c, Apply(s, a).c, k)
  {
    if Enabled(s, a) {
      if a.StepImportPass? {
        var p := s.passes[a.k];
        if p.stage.Rollout? {
          ForeignRollout(s.c, a.k, p, a.pick, a.fault, k);
        } else {
          StepUntouched(s.c, a.k, p, a.pick, a.fault);
        }
      } else if a.StepKeycloakPass? {
        KeycloakUnrecorded(s.c, a.q, s.keycloakPasses[a.q], a.fault, a.broken, k);
      } else if !a.ByController() {
        if a.EditsImport() { ImportEditedUnrecorded(s.c, a, k); } else { ObjectEditedUnrecorded(s.c, a, k); }
      }
    }
  }

  /** Settling the import Secret fixes the version of the pass. */
  lemma SecretSettled(c: Cluster, k: Key, p: Pass, pick: Key, fault: bool)
    requires StoreOk(c) && Bounded(c, k) && (p.stage.ReadSecret? || p.stage.WriteRealm?)
    ensures var n := StepImport(c, k, p, pick, fault);
            n.pass.Some? ==> VersionOk(n.cluster, k, n.pass.value)
  {
  }

  lemma OtherStages(c: Cluster, k: Key, p: Pass, pick: Key, fault: bool)
    requires VersionOk(c, k, p) && !p.stage.ReadSecret? && !p.stage.WriteRealm? && !p.stage.Rollout?
    ensures var n := StepImport(c, k, p, pick, fault);
            n.pass.Some? ==> VersionOk(c, k, n.pass.value)
  {
    var n := StepImport(c, k, p, pick, fault);
    assert n.pass.Some? && n.pass.value.stage.HasVersion() ==>
        p.stage.HasVersion() && n.pass.value.stage.version == p.stage.version && n.pass.value.cr == p.cr;
  }

  lemma RolloutRecords(c: Cluster, k: Key, p: Pass, pick: Key, fault: bool)
    requires PassOk(c, k, p) && VersionOk(c, k, p) && Bounded(c, k) && p.stage.Rollout?
    ensures var n := StepImport(c, k, p, pick, fault);
            NoneLost(c, n.cluster, k) && Bounded(n.cluster, k) &&
                (n.pass.Some? ==> VersionOk(n.cluster, k, n.pass.value))
  {
  }

  lemma OwnVersion(c: Cluster, k: Key, p: Pass, pick: Key, fault: bool)
    requires StoreOk(c) && Bounded(c, k) && VersionOk(c, k, p) && !p.stage.Rollout?
    requires Unrecorded(c, StepImport(c, k, p, pick, fault).cluster, k)
    ensures var n := StepImport(c, k, p, pick, fault);
            n.pass.Some? ==> VersionOk(n.cluster, k, n.pass.value)
  {
    UnrecordedKeeps(c, StepImport(c, k, p, pick, fault).cluster, k);
    if p.stage.ReadSecret? || p.stage.WriteRealm? {
      SecretSettled(c, k, p, pick, fault);
    } else {
      OtherStages(c, k, p, pick, fault);
    }
  }

  lemma VersionsStep(s: State, a: Action, k: Key)
    requires Coherent(s) && ValidKey(k) && VersionsOk(s, k)
    ensures VersionsOk(Apply(s, a), k) && NoneLost(s.c, Apply(s, a).c, k)
  {
    var s' := Apply(s, a);
    if OwnRollout(s, a, k) {
      RolloutRecords(s.c, k, s.passes[k], a.pick, a.fault);
    } else {
      StepUnrecorded(s, a, k);
      UnrecordedKeeps(s.c, s'.c, k);
      if a.StepImportPass? && a.k == k {
        if k in s.passes { OwnVersion(s.c, k, s.passes[k], a.pick, a.fault); }
      } else {
        PassFrame(s, a, k);
      }
    }
  }

  lemma {:induction false} ReachableVersions(run: seq<Action>, k: Key)
    requires ValidKey(k)
    ensures VersionsOk(Exec(run), k)
  {
    if run != [] {
      var before := run[..|run| - 1];
      ReachableVersions(before, k);
      ReachableCoherent(before);
      VersionsStep(Exec(before), run[|run| - 1], k);
    }
  }

  /** No call of anybody drops a recorded version or lowers it, unless it deletes the StatefulSet. */
  lemma NoLostRollout(run: seq<Action>, a: Action, k: Key)
    requires ValidKey(k)
    ensures NoneLost(Exec(run).c, Exec(run + [a]).c, k)
  {
    ReachableVersions(run, k);
    ReachableCoherent(run);
    VersionsStep(Exec(run), a, k);
    assert (run + [a])[..|run|] == run;
  }

  /** Over whole runs: while the StatefulSet exists, what was recorded for an import stays recorded
      and its version never decreases. */
  lemma {:induction false} NoLostRolloutOverRuns(run: seq<Action>, since: nat, q: Key, k: Key)
    requires ValidKey(k) && since <= |run| && Recorded(Exec(run[..since]).c, q, k)
    requires forall i :: since <= i <= |run| ==> q in Exec(run[..i]).c.sets
    ensures Recorded(Exec(run).c, q, k)
    ensures RecordedVersion(Exec(run[..since]).c, q, k) <= RecordedVersion(Exec(run).c, q, k)
    decreases |run|
  {
    assert run[..|run|] == run;
    if since < |run| {
      var before := run[..|run| - 1];
      assert before[..since] == run[..since];
      assert forall i :: since <= i <= |before| ==> before[..i] == run[..i];
      NoLostRolloutOverRuns(before, since, q, k);
      NoLostRollout(before, run[|run| - 1], k);
      assert before + [run[|run| - 1]] == run;
    }
  }

  /** From some point on, neither the import Secret in `ns` nor a pass has a version below `floor`. */
  ghost predicate AtLeast(s: State, k: Key, ns: string, floor: nat) {
    && floor <= s.c.rv
    && (Key(ns, k.name) in s.c.secrets ==> floor <= s.c.secrets[Key(ns, k.name)].rv)
    && (k in s.passes && s.passes[k].stage.HasVersion() && s.passes[k].cr.spec.target.ns == ns ==>
          floor <= s.passes[k].stage.version)
  }

  lemma OwnAtLeast(s: State, a: Action, k: Key, ns: string, floor: nat)
    requires AtLeast(s, k, ns, floor) && a.StepImportPass? && a.k == k && k in s.passes
    requires var c' := Apply(s, a).c;
      floor <= c'.rv && (Key(ns, k.name) in c'.secrets ==> floor <= c'.secrets[Key(ns, k.name)].rv)
    ensures AtLeast(Apply(s, a), k, ns, floor)
  {
    StepHolds(s.c, k, s.passes[k], a.pick, a.fault);
  }

  lemma AtLeastStep(s: State, a: Action, k: Key, ns: string, floor: nat)
    requires Coherent(s) && ValidKey(k) && AtLeast(s, k, ns, floor)
    ensures AtLeast(Apply(s, a), k, ns, floor)
  {
    if OwnRollout(s, a, k) {
      assert StepImport(s.c, k, s.passes[k], a.pick, a.fault).cluster.secrets == s.c.secrets;
    } else {
      StepUnrecorded(s, a, k);
    }
    if a.StepImportPass? && a.k == k {
      if k in s.passes { OwnAtLeast(s, a, k, ns, floor); }
    } else {
      PassFrame(s, a, k);
    }
  }

  /** A Job made stale by a newer Secret is never rolled out: a pass that began after the Secret
      reached version `floor` rolls out no version below it. */
  lemma {:induction false} StaleJobNeverRolledOut(run: seq<Action>, since: nat, k: Key, ns: string, floor: nat)
    requires ValidKey(k) && since <= |run| && k !in Exec(run[..since]).passes
    requires Key(ns, k.name) in Exec(run[..since]).c.secrets &&
      Exec(run[..since]).c.secrets[Key(ns, k.name)].rv == floor
    ensures AtLeast(Exec(run), k, ns, floor)
    ensures var s := Exec(run);
            k in s.passes && s.passes[k].stage.Rollout? && s.passes[k].cr.spec.target.ns == ns ==>
                floor <= s.passes[k].stage.version
    decreases |run|
  {
    assert run[..|run|] == run;
    if since == |run| {
      ReachableCoherent(run);
    } else {
      var before := run[..|run| - 1];
      assert before[..since] == run[..since];
      StaleJobNeverRolledOut(before, since, k, ns, floor);
      ReachableCoherent(before);
      AtLeastStep(Exec(before), run[|run| - 1], k, ns, floor);
    }
  }
}
