/** Convergence, one pass at a time: how far an import is from its final state, and what an
    undisturbed pass, the collection of its Job or the success of its Job does about it. */
module Convergence {
  import opened Names
  import opened Cluster
  import opened Passes
  import opened RealmDocument
  import opened QuietPasses

  /** The import exists and is to stay, its inputs are there and expand to `data`, none of them is
      the import Secret itself, and its Job is its own, not made for a future version and, if it is
      current, neither on its way out nor failed. */
  ghost predicate Settled(c: Cluster, k: Key, data: map<string, string>) {
    && ValidKey(k) && !Reserved(k) && k in c.imports && !c.imports[k].deleting
    && var cr := c.imports[k];
    && Inputs(c, k, cr, data) && JobsClear(c, k, cr)
    && (forall i :: 0 <= i < |cr.spec.subs| ==> Key(k.ns, cr.spec.subs[i].secretName) != SecretKey(k, cr))
    && (JobKey(k, cr) in c.jobs ==>
          forall v: nat :: Carries(c.jobs[JobKey(k, cr)].labels, VersionLabel(k), Version(v)) ==> v <= c.rv)
    && (SecretKey(k, cr) in c.secrets ==> c.secrets[SecretKey(k, cr)].rv <= c.rv)
    && (Matching(c, k, data) ==> !c.jobs[JobKey(k, cr)].terminating && !IsJobFailed(c.jobs[JobKey(k, cr)].conditions))
  }

  /** The Job imports the current version of a fresh Secret. */
  ghost predicate Matching(c: Cluster, k: Key, data: map<string, string>)
    requires k in c.imports
  {
    var cr := c.imports[k];
    SecretFresh(c, k, cr, data) && JobKey(k, cr) in c.jobs &&
    Carries(c.jobs[JobKey(k, cr)].labels, VersionLabel(k), Version(c.secrets[SecretKey(k, cr)].rv))
  }

  /** How much is left to do about the Job and the annotation. */
  ghost function JobRank(c: Cluster, k: Key, data: map<string, string>): nat
    requires Settled(c, k, data)
  {
    var cr := c.imports[k];
    var key := JobKey(k, cr);
    if key !in c.jobs then 3
    else if !Matching(c, k, data) then if c.jobs[key].terminating then 4 else 5
    else if !IsJobCompleted(c.jobs[key].conditions) then 2
    else if !(AnnotationKey(k) in c.sets[cr.spec.target].annotations &&
              c.sets[cr.spec.target].annotations[AnnotationKey(k)] == c.secrets[SecretKey(k, cr)].rv) then 1
    else 0
  }

  ghost predicate Finalized(c: Cluster, k: Key)
    requires k in c.imports
  {
    RealmImport in c.imports[k].finalizers
  }

  /** How much is left to do in all. */
  ghost function Todo(c: Cluster, k: Key, data: map<string, string>): nat
    requires Settled(c, k, data)
  {
    JobRank(c, k, data) + (if Finalized(c, k) then 0 else 1) + (if SecretFresh(c, k, c.imports[k], data) then 0 else 1)
  }

  /** The rank weighs what is left to do above the report that it is done. */
  ghost function Rank(c: Cluster, k: Key, data: map<string, string>): nat
    requires Settled(c, k, data)
  {
    2 * Todo(c, k, data) + (if c.imports[k].status == Ready then 0 else 1)
  }

  /** The final state: finalizer stored, Secret equal to the expansion, a completed Job and the
      annotation both at its version, and the import reported ready. */
  ghost predicate Final(c: Cluster, k: Key, data: map<string, string>) {
    k in c.imports && var cr := c.imports[k];
    && RealmImport in cr.finalizers && cr.status == Ready
    && SecretFresh(c, k, cr, data)
    && var version := c.secrets[SecretKey(k, cr)].rv;
    && JobKey(k, cr) in c.jobs && !c.jobs[JobKey(k, cr)].terminating
    && Carries(c.jobs[JobKey(k, cr)].labels, VersionLabel(k), Version(version))
    && IsJobCompleted(c.jobs[JobKey(k, cr)].conditions)
    && JobCondition(Complete, true) in c.jobs[JobKey(k, cr)].conditions
    && cr.spec.target in c.sets && AnnotationKey(k) in c.sets[cr.spec.target].annotations
    && c.sets[cr.spec.target].annotations[AnnotationKey(k)] == version
  }

  lemma RankZeroIsFinal(c: Cluster, k: Key, data: map<string, string>)
    requires Settled(c, k, data)
    ensures Rank(c, k, data) == 0 <==> Final(c, k, data)
    ensures Rank(c, k, data) <= 15
  {
    if JobKey(k, c.imports[k]) in c.jobs {
      CompletedExactly(c.jobs[JobKey(k, c.imports[k])].conditions);
    }
  }

  // One pass: finalizer, Secret, then Job or annotation.

  lemma {:induction false} FetchedFrame(c: Cluster, c': Cluster, k: Key, cr: Import, cr': Import, next: nat,
      values: map<string, string>)
    requires cr'.spec == cr.spec
    requires forall i :: 0 <= i < |cr.spec.subs| ==>
      var key := Key(k.ns, cr.spec.subs[i].secretName);
      (key in c.secrets <==> key in c'.secrets) && (key in c.secrets ==> c'.secrets[key] == c.secrets[key])
    ensures Fetched(c', k, cr', next, values) == Fetched(c, k, cr, next, values)
    decreases |cr.spec.subs| - next
  {
    if next < |cr.spec.subs| {
      var sub := cr.spec.subs[next];
      var key := Key(k.ns, sub.secretName);
      if key in c.secrets {
        FetchedFrame(c, c', k, cr, cr', next + 1,
            values[sub.name := EscapeString(SubstitutionValue(c.secrets[key], sub))]);
      }
    }
  }

  ghost function WithFinalizer(c: Cluster, k: Key): Cluster
    requires k in c.imports
  {
    if Finalized(c, k) then c
    else StoreImport(c, k, c.imports[k].(finalizers := c.imports[k].finalizers + {RealmImport}))
  }

  /** Writing the import's own metadata and status changes nothing that matters here. */
  lemma ImportWritten(c: Cluster, k: Key, data: map<string, string>, i: Import)
    requires Settled(c, k, data) && i.spec == c.imports[k].spec && !i.deleting
    ensures var c' := StoreImport(c, k, i);
      Settled(c', k, data) && JobRank(c', k, data) == JobRank(c, k, data) &&
      (SecretFresh(c', k, c'.imports[k], data) <==> SecretFresh(c, k, c.imports[k], data))
  {
    FetchedFrame(c, StoreImport(c, k, i), k, c.imports[k], StoreImport(c, k, i).imports[k], 0, map[]);
  }

  /** Writing the Secret makes it fresh, and the Job stale if there is one. */
  lemma SecretWritten(c: Cluster, k: Key, data: map<string, string>)
    requires Settled(c, k, data) && !SecretFresh(c, k, c.imports[k], data)
    ensures var c' := StoreSecret(c, SecretKey(k, c.imports[k]), SecretLabels(k), data);
            Settled(c', k, data) && SecretFresh(c', k, c'.imports[k], data) &&
                JobRank(c', k, data) == JobRank(c, k, data)
  {
    var c' := StoreSecret(c, SecretKey(k, c.imports[k]), SecretLabels(k), data);
    FetchedFrame(c, c', k, c.imports[k], c'.imports[k], 0, map[]);
  }

  lemma JobCreated(c: Cluster, k: Key, data: map<string, string>)
    requires Settled(c, k, data) && SecretFresh(c, k, c.imports[k], data) && JobKey(k, c.imports[k]) !in c.jobs
    ensures var version := c.secrets[SecretKey(k, c.imports[k])].rv;
      var c' := StoreJob(c, JobKey(k, c.imports[k]), Job(0, JobLabels(k, version), [], false));
      Settled(c', k, data) && SecretFresh(c', k, c'.imports[k], data) && JobRank(c', k, data) == 2
  {
    var version := c.secrets[SecretKey(k, c.imports[k])].rv;
    var c' := StoreJob(c, JobKey(k, c.imports[k]), Job(0, JobLabels(k, version), [], false));
    JobLabelsOwned(k, version);
    FetchedFrame(c, c', k, c.imports[k], c'.imports[k], 0, map[]);
  }

  lemma JobDropped(c: Cluster, k: Key, data: map<string, string>)
    requires Settled(c, k, data) && JobKey(k, c.imports[k]) in c.jobs && !Matching(c, k, data)
    ensures var c' := DeleteJob(c, JobKey(k, c.imports[k])).cluster;
      Settled(c', k, data) && JobRank(c', k, data) == 4 &&
          (SecretFresh(c', k, c'.imports[k], data) <==> SecretFresh(c, k, c.imports[k], data))
  {
    var c' := DeleteJob(c, JobKey(k, c.imports[k])).cluster;
    FetchedFrame(c, c', k, c.imports[k], c'.imports[k], 0, map[]);
  }

  lemma RolledOut(c: Cluster, k: Key, data: map<string, string>)
    requires Settled(c, k, data) && JobRank(c, k, data) == 1
    ensures var q, version := c.imports[k].spec.target, c.secrets[SecretKey(k, c.imports[k])].rv;
      var c' := StoreSet(c, q, c.sets[q].(annotations := c.sets[q].annotations[AnnotationKey(k) := version]));
      Settled(c', k, data) && JobRank(c', k, data) == 0 && SecretFresh(c', k, c'.imports[k], data)
  {
    var q, version := c.imports[k].spec.target, c.secrets[SecretKey(k, c.imports[k])].rv;
    var c' := StoreSet(c, q, c.sets[q].(annotations := c.sets[q].annotations[AnnotationKey(k) := version]));
    FetchedFrame(c, c', k, c.imports[k], c'.imports[k], 0, map[]);
  }

  /** The closed form of a pass over a settled import. */
  lemma QuietPassForm(c: Cluster, k: Key, data: map<string, string>)
    requires Settled(c, k, data)
    ensures var c0 := WithFinalizer(c, k);
      Settled(c0, k, data) &&
      QuietPass(c, k) == AfterSecret(SettledSecret(c0, k, c0.imports[k], data), k, c0.imports[k],
                                     Context(c0.keycloaks[c0.imports[k].spec.target],
                                         c0.sets[c0.imports[k].spec.target]),
                                     SettledVersion(c0, k, c0.imports[k], data))
  {
    var cr := c.imports[k];
    if !Finalized(c, k) {
      ImportWritten(c, k, data, cr.(finalizers := cr.finalizers + {RealmImport}));
    }
    var c0 := WithFinalizer(c, k);
    RunWork(c0, k, c0.imports[k], data);
  }

  /** What a pass does to the Job rank. */
  ghost function NextRank(r: nat): nat {
    match r
    case 5 => 4
    case 3 => 2
    case 1 => 0
    case _ => r
  }

  /** The Job of the current version has completed: a pass over the import has something to record. */
  ghost predicate CurrentJobDone(c: Cluster, k: Key, data: map<string, string>)
    requires k in c.imports
  {
    Matching(c, k, data) && IsJobCompleted(c.jobs[JobKey(k, c.imports[k])].conditions)
  }

  /** The pod template carries the version of the import Secret, whatever it carried before. */
  ghost predicate RecordsCurrent(c: Cluster, k: Key) {
    k in c.imports && var cr := c.imports[k];
    && cr.spec.target in c.sets && SecretKey(k, cr) in c.secrets
    && AnnotationKey(k) in c.sets[cr.spec.target].annotations
    && c.sets[cr.spec.target].annotations[AnnotationKey(k)] == c.secrets[SecretKey(k, cr)].rv
  }

  /** The last part of a pass, from a stored finalizer and a fresh Secret on. */
  lemma LastPart(c: Cluster, k: Key, data: map<string, string>)
    requires Settled(c, k, data) && Finalized(c, k) && SecretFresh(c, k, c.imports[k], data)
    ensures var cr := c.imports[k];
      var c' := AfterSecret(c, k, cr, Context(c.keycloaks[cr.spec.target], c.sets[cr.spec.target]),
          c.secrets[SecretKey(k, cr)].rv);
      && Settled(c', k, data) && Finalized(c', k) && SecretFresh(c', k, c'.imports[k], data)
      && JobRank(c', k, data) == NextRank(JobRank(c, k, data))
      && (JobRank(c, k, data) <= 2 ==> c'.imports[k].status == Ready)
      && (JobRank(c, k, data) >= 4 ==> c'.imports[k].status == cr.status)
      && (JobRank(c, k, data) >= 2 ==> c'.sets == c.sets)
      && (JobRank(c, k, data) == 0 ==> c' == StoreImport(c, k, cr.(status := Ready)))
      && (CurrentJobDone(c, k, data) ==> RecordsCurrent(c', k))
  {
    var cr := c.imports[k];
    var q := cr.spec.target;
    var version := c.secrets[SecretKey(k, cr)].rv;
    if JobKey(k, cr) !in c.jobs {
      JobCreated(c, k, data);
      ImportWritten(StoreJob(c, JobKey(k, cr), Job(0, JobLabels(k, version), [], false)), k, data,
          cr.(status := NotReady(WaitForJob)));
    } else if !Matching(c, k, data) {
      JobDropped(c, k, data);
    } else if JobRank(c, k, data) == 1 {
      RolledOut(c, k, data);
      ImportWritten(StoreSet(c, q, c.sets[q].(annotations := c.sets[q].annotations[AnnotationKey(k) := version])), k,
          data, cr.(status := Ready));
    } else {
      ImportWritten(c, k, data, cr.(status := Ready));
    }
  }

  lemma FinalizerPart(c: Cluster, k: Key, data: map<string, string>)
    requires Settled(c, k, data)
    ensures var c0 := WithFinalizer(c, k);
      && Settled(c0, k, data) && Finalized(c0, k) && JobRank(c0, k, data) == JobRank(c, k, data)
      && (SecretFresh(c0, k, c0.imports[k], data) <==> SecretFresh(c, k, c.imports[k], data))
      && c0.imports[k].status == c.imports[k].status && (Finalized(c, k) ==> c0 == c)
  {
    var cr := c.imports[k];
    if !Finalized(c, k) {
      ImportWritten(c, k, data, cr.(finalizers := cr.finalizers + {RealmImport}));
    }
  }

  lemma SecretPart(c: Cluster, k: Key, data: map<string, string>)
    requires Settled(c, k, data)
    ensures var cr := c.imports[k]; var c1 := SettledSecret(c, k, cr, data);
      && Settled(c1, k, data) && c1.imports == c.imports && c1.keycloaks == c.keycloaks && c1.sets == c.sets
      && SecretFresh(c1, k, cr, data) && c1.secrets[SecretKey(k, cr)].rv == SettledVersion(c, k, cr, data)
      && JobRank(c1, k, data) == JobRank(c, k, data)
      && (SecretFresh(c, k, cr, data) ==> c1 == c)
  {
    if !SecretFresh(c, k, c.imports[k], data) {
      SecretWritten(c, k, data);
    }
  }

  /** What one pass achieves. */
  lemma PassProgress(c: Cluster, k: Key, data: map<string, string>)
    requires Settled(c, k, data)
    ensures var c' := QuietPass(c, k);
      && Settled(c', k, data) && Finalized(c', k) && SecretFresh(c', k, c'.imports[k], data)
      && JobRank(c', k, data) == NextRank(JobRank(c, k, data))
      && (JobRank(c, k, data) <= 2 ==> c'.imports[k].status == Ready)
      && (JobRank(c, k, data) >= 4 ==> c'.imports[k].status == c.imports[k].status)
      && (JobRank(c, k, data) >= 2 ==> c'.sets == c.sets)
      && (Todo(c, k, data) == 0 ==> c' == StoreImport(c, k, c.imports[k].(status := Ready)))
      && (CurrentJobDone(c, k, data) ==> RecordsCurrent(c', k))
  {
    QuietPassForm(c, k, data);
    FinalizerPart(c, k, data);
    var c0 := WithFinalizer(c, k);
    SecretPart(c0, k, data);
    LastPart(SettledSecret(c0, k, c0.imports[k], data), k, data);
  }

  /** Once nothing is left to do, the next pass reports the import ready and rewrites nothing but the
      status. */
  lemma FinalIsStable(c: Cluster, k: Key, data: map<string, string>)
    requires Settled(c, k, data) && Todo(c, k, data) == 0
    ensures QuietPass(c, k) == StoreImport(c, k, c.imports[k].(status := Ready))
    ensures Final(QuietPass(c, k), k, data)
  {
    PassProgress(c, k, data);
    RankZeroIsFinal(QuietPass(c, k), k, data);
  }

  /** A Job of the current version that has not completed is never replaced, not even when it has
      failed: every pass leaves it alone, records nothing and reports the import ready. */
  lemma UnfinishedJobReportedReady(c: Cluster, k: Key, data: map<string, string>)
    requires k in c.imports && !c.imports[k].deleting && Inputs(c, k, c.imports[k], data) &&
      JobsClear(c, k, c.imports[k])
    requires Finalized(c, k) && Matching(c, k, data) && !IsJobCompleted(c.jobs[JobKey(k, c.imports[k])].conditions)
    ensures QuietPass(c, k) == StoreImport(c, k, c.imports[k].(status := Ready))
  {
    RunWork(c, k, c.imports[k], data);
  }

  /** A pass with an unchanged expansion writes no new version, and leaves a Job that has the current
      version alone, whether or not that Job has completed. */
  lemma UnchangedExpansion(c: Cluster, k: Key, data: map<string, string>)
    requires Settled(c, k, data) && SecretFresh(c, k, c.imports[k], data)
    ensures QuietPass(c, k).secrets == c.secrets
    ensures Matching(c, k, data) ==> QuietPass(c, k).jobs == c.jobs
  {
    QuietPassForm(c, k, data);
    FinalizerPart(c, k, data);
    var c0 := WithFinalizer(c, k);
    assert c0.secrets == c.secrets && c0.jobs == c.jobs;
    SecretPart(c0, k, data);
  }

  /** For instance a Job that has failed and has no Complete condition at all. */
  lemma FailedJobReportedReady(c: Cluster, k: Key, data: map<string, string>)
    requires k in c.imports && !c.imports[k].deleting && Inputs(c, k, c.imports[k], data)
    requires JobsClear(c, k, c.imports[k]) && Finalized(c, k) && Matching(c, k, data)
    requires var conditions := c.jobs[JobKey(k, c.imports[k])].conditions;
      JobCondition(Failed, true) in conditions && forall i :: 0 <= i < |conditions| ==> conditions[i].kind != Complete
    ensures QuietPass(c, k) == StoreImport(c, k, c.imports[k].(status := Ready))
  {
    CompletedExactly(c.jobs[JobKey(k, c.imports[k])].conditions);
    assert forall i :: !CompletedAt(c.jobs[JobKey(k, c.imports[k])].conditions, i);
    UnfinishedJobReportedReady(c, k, data);
  }

  // The other two things an import waits for.

  lemma JobCollected(c: Cluster, k: Key, data: map<string, string>)
    requires Settled(c, k, data) && JobKey(k, c.imports[k]) in c.jobs && c.jobs[JobKey(k, c.imports[k])].terminating
    ensures var c' := DropJob(c, JobKey(k, c.imports[k]));
      Settled(c', k, data) && JobRank(c, k, data) == 4 && JobRank(c', k, data) == 3
  {
    var c' := DropJob(c, JobKey(k, c.imports[k]));
    FetchedFrame(c, c', k, c.imports[k], c'.imports[k], 0, map[]);
  }

  lemma JobSucceeds(c: Cluster, k: Key, data: map<string, string>, job: Job)
    requires Settled(c, k, data) && JobKey(k, c.imports[k]) in c.jobs
    requires !IsJobCompleted(c.jobs[JobKey(k, c.imports[k])].conditions)
    requires job == c.jobs[JobKey(k, c.imports[k])].(conditions := [JobCondition(Complete, true)])
    ensures var c' := StoreJob(c, JobKey(k, c.imports[k]), job);
      && Settled(c', k, data)
      && (if JobRank(c, k, data) == 2 then JobRank(c', k, data) < 2 else JobRank(c', k, data) == JobRank(c, k, data))
  {
    var c' := StoreJob(c, JobKey(k, c.imports[k]), job);
    assert IsJobCompleted(job.conditions);
    FetchedFrame(c, c', k, c.imports[k], c'.imports[k], 0, map[]);
    assert Inputs(c', k, c'.imports[k], data) && JobsClear(c', k, c'.imports[k]);
  }
}
