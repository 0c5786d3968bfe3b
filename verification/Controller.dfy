/** The import controller as the imperative program it is, running against an API server that
    changes under its feet. It computes every request itself and is proved to make those of the pass
    machine, in that order, so that everything proved about runs holds for this program. */
module Controller {
  import opened Names
  import opened Cluster
  import opened Passes
  import opened RealmDocument
  import opened System
  import opened ApiServer

  /** The import Secret being built, with the values fetched for its template. */
  class ImportRealmSecret {
    const k: Key
    const cr: Import
    var substitutions: map<string, string>
    var version: nat

    constructor (k: Key, cr: Import)
      ensures this.k == k && this.cr == cr
    {
      this.k, this.cr, this.substitutions, this.version := k, cr, map[], 0;
    }

    /** Fetches and escapes every value, then creates, updates or keeps the Secret. On success
        `version` is the resourceVersion of the Secret, which at moment `m` of the run had the owner
        labels, the label under which it is watched, and the expansion of the template as its one file. */
    method CreateOrUpdate(w: World, ghost ctx: Context) returns (ok: bool, ghost m: nat)
      requires w.At(k, cr, AfterValues(cr, ctx, 0, map[]))
      modifies this, w
      ensures Continues(old(w.log), w.log, k)
      ensures w.At(k, cr, if ok then ListJobs(ctx, version) else ReportError(SecretNotReady))
      ensures ok ==> |old(w.log)| <= m <= |w.log| && Expand(cr.spec.json, substitutions).Some?
      ensures ok ==>
        var labels := map[Owner := Text(k.name), OwnerNamespace := Text(k.ns), Watched := Text("true")];
        var data := map[k.name + "-realm.json" := Expand(cr.spec.json, substitutions).value];
        HasSecret(Exec(w.log[..m]).c, Key(cr.spec.target.ns, k.name), Secret(version, labels, data))
    {
      substitutions := map[];
      var next := 0;
      while next < |cr.spec.subs|
        invariant next <= |cr.spec.subs| && Continues(old(w.log), w.log, k)
        invariant w.At(k, cr, AfterValues(cr, ctx, next, substitutions))
      {
        var sub := cr.spec.subs[next];
        var secret := w.GetValueSecret(k, Key(k.ns, sub.secretName), cr, ctx, next, substitutions);
        if secret.None? { return false, 0; }
        substitutions := substitutions[sub.name := EscapeString(SubstitutionValue(secret.value, sub))];
        next := next + 1;
      }

      var key := Key(cr.spec.target.ns, k.name);
      var failed, existing := w.GetImportSecret(k, key, cr, ctx, substitutions);
      if failed { return false, 0; }
      m := |w.log|;
      assert w.log[..m] == w.log;
      var realm := RealmData(k, cr, substitutions);
      if realm.None? { return false, 0; }
      var seen: Option<nat> := None;
      if existing.Some? {
        if existing.value.labels == SecretLabels(k) && existing.value.data == realm.value {
          version := existing.value.rv;
          return true, m;
        }
        seen := Some(existing.value.rv);
      }
      var written := w.PutSecret(k, key, seen, SecretLabels(k), realm.value, cr, ctx);
      if written.None? { return false, 0; }
      version := written.value;
      m := |w.log|;
      assert w.log[..m] == w.log;
      return true, m;
    }
  }

  ghost predicate HasSecret(c: Cluster, key: Key, secret: Secret) {
    key in c.secrets && c.secrets[key] == secret
  }

  /** The keys of a list of Jobs. */
  ghost function KeysOf(jobs: seq<(Key, Job)>): seq<Key> {
    seq(|jobs|, i requires 0 <= i < |jobs| => jobs[i].0)
  }

  lemma {:induction false} AsMapDrop(items: seq<(Key, Job)>)
    requires Distinct(items) && items != []
    ensures AsMap(items[1..]) == AsMap(items) - {items[0].0}
    ensures items[0].0 in AsMap(items) && AsMap(items)[items[0].0] == items[0].1
  {
    var n := |items| - 1;
    AsMapKeys(items);
    if n > 0 {
      var front, last := items[..n], items[n];
      AsMapDrop(front);
      assert items[1..][..n - 1] == front[1..] && items[1..][n - 1] == last;
      assert last.0 != items[0].0;
    } else {
      assert AsMap(items[..0]) == map[];
    }
  }

  lemma NextJob(jobs: seq<(Key, Job)>, n: nat)
    requires Distinct(jobs) && n < |jobs|
    ensures AsMap(jobs[n + 1..]) == AsMap(jobs[n..]) - {jobs[n].0}
    ensures jobs[n].0 in AsMap(jobs[n..]) && AsMap(jobs[n..])[jobs[n].0] == jobs[n].1
    ensures KeysOf(jobs)[..n + 1] == KeysOf(jobs)[..n] + [jobs[n].0]
  {
    var rest := jobs[n..];
    assert rest[0] == jobs[n] && rest[1..] == jobs[n + 1..] && Distinct(rest);
    AsMapDrop(rest);
  }

  /** The loop over the listed Jobs: deletes exactly those before the first one that matches the
      version, in order, and never that one. `handled` counts the Jobs deleted. */
  method FindJob(w: World, k: Key, ghost cr: Import, ghost ctx: Context, version: nat, jobs: seq<(Key, Job)>)
    returns (found: Option<Job>, failed: bool, handled: nat)
    requires Distinct(jobs) && w.At(k, cr, AfterScan(ctx, version, AsMap(jobs)))
    modifies w
    ensures handled <= |jobs| && (found.Some? || failed ==> handled < |jobs|)
    ensures Moves(old(w.log), w.log, k, KeysOf(jobs)[..if found.Some? || failed then handled + 1 else handled])
    ensures forall i :: 0 <= i < handled ==> !Carries(jobs[i].1.labels, VersionLabel(k), Version(version))
    ensures failed ==> found.None? && w.At(k, cr, ReportError(OldJobNotDeleted)) &&
                       !Carries(jobs[handled].1.labels, VersionLabel(k), Version(version))
    ensures found.Some? ==> found.value == jobs[handled].1 && w.At(k, cr, AfterFound(k, ctx, version, found.value)) &&
                            Carries(found.value.labels, VersionLabel(k), Version(version))
    ensures !failed && found.None? ==> handled == |jobs| && w.At(k, cr, StartJob(ctx, version))
  {
    found, failed, handled := None, false, 0;
    ghost var keys := KeysOf(jobs);
    assert jobs[0..] == jobs && w.log[|w.log|..] == [];
    while handled < |jobs|
      invariant handled <= |jobs| && Moves(old(w.log), w.log, k, keys[..handled])
      invariant forall i :: 0 <= i < handled ==> !Carries(jobs[i].1.labels, VersionLabel(k), Version(version))
      invariant w.At(k, cr, AfterScan(ctx, version, AsMap(jobs[handled..])))
    {
      var key, job := jobs[handled].0, jobs[handled].1;
      ghost var rest, before := jobs[handled..], w.log;
      NextJob(jobs, handled);
      if Carries(job.labels, VersionLabel(k), Version(version)) {
        w.Settle(k, cr, ctx, version, AsMap(rest), key);
        MovesConcat(old(w.log), before, w.log, k, keys[..handled], [key]);
        found := Some(job);
        return;
      }
      var ok := w.DeleteStaleJob(k, key, cr, ctx, version, AsMap(rest));
      MovesConcat(old(w.log), before, w.log, k, keys[..handled], [key]);
      if !ok {
        failed := true;
        return;
      }
      handled := handled + 1;
    }
    assert jobs[handled..] == [];
  }

  lemma AsSetDrop(keys: seq<Key>)
    requires NoRepeats(keys) && keys != []
    ensures AsSet(keys[1..]) == AsSet(keys) - {keys[0]} && NoRepeats(keys[1..]) && AsSet(keys) != {}
  {
    assert keys[0] in AsSet(keys);
    assert keys == [keys[0]] + keys[1..];
  }

  lemma NextKey(keys: seq<Key>, i: nat)
    requires i < |keys| && NoRepeats(keys[i..])
    ensures AsSet(keys[i + 1..]) == AsSet(keys[i..]) - {keys[i]} && keys[i] in AsSet(keys[i..])
    ensures NoRepeats(keys[i + 1..]) && keys[..i + 1] == keys[..i] + [keys[i]]
  {
    AsSetDrop(keys[i..]);
    assert keys[i..][0] == keys[i] && keys[i..][1..] == keys[i + 1..];
  }

  /** Deletes the Jobs and then the Secrets of an import: all that the import owned in its target
      namespace when they were listed, at moments `m` and `n` of the run, one by one in list order. */
  method CleanupExternalResources(w: World, k: Key, cr: Import)
    returns (ok: bool, ghost jobs: seq<Key>, ghost secrets: seq<Key>, ghost m: nat, ghost n: nat)
    requires w.At(k, cr, CleanListJobs)
    modifies w
    ensures Continues(old(w.log), w.log, k)
    ensures if ok then w.At(k, cr, DropFinalizer) else w.Over(k)
    ensures ok ==> Moves(old(w.log), w.log, k, [k] + jobs + [k] + secrets) && |old(w.log)| <= m <= n <= |w.log|
    ensures ok ==>
      AsSet(jobs) == OwnedJobs(Exec(w.log[..m]).c, k, cr) && AsSet(secrets) == OwnedSecrets(Exec(w.log[..n]).c, k, cr)
  {
    jobs, secrets, m, n := [], [], 0, 0;
    var deleted: bool;
    deleted, jobs, m := CleanupJobs(w, k, cr);
    if !deleted { return false, [], [], 0, 0; }
    ghost var middle := w.log;
    deleted, secrets, n := CleanupSecrets(w, k, cr);
    if !deleted { return false, [], [], 0, 0; }
    MovesConcat(old(w.log), middle, w.log, k, [k] + jobs, [k] + secrets);
    assert [k] + jobs + ([k] + secrets) == [k] + jobs + [k] + secrets;
    assert w.log[..m] == middle[..m];
    ok := true;
  }

  method CleanupJobs(w: World, k: Key, cr: Import) returns (ok: bool, ghost jobs: seq<Key>, ghost m: nat)
    requires w.At(k, cr, CleanListJobs)
    modifies w
    ensures Continues(old(w.log), w.log, k)
    ensures if ok then w.At(k, cr, CleanListSecrets) else w.Over(k)
    ensures ok ==> Moves(old(w.log), w.log, k, [k] + jobs) && |old(w.log)| <= m <= |w.log|
    ensures ok ==> AsSet(jobs) == OwnedJobs(Exec(w.log[..m]).c, k, cr)
  {
    jobs, m := [], 0;
    var listed := w.ListOwnedJobs(k, cr.spec.target.ns, OwnerLabels(k), cr);
    if listed.None? { return false, [], 0; }
    var keys := listed.value;
    jobs, m := keys, |w.log|;
    ghost var start := w.log;
    assert start[..m] == start && w.log[|start|..] == [] && keys[0..] == keys;
    var i := 0;
    while i < |keys|
      invariant i <= |keys| && Moves(start, w.log, k, keys[..i]) && NoRepeats(keys[i..])
      invariant w.At(k, cr, AfterJobs(AsSet(keys[i..])))
    {
      ghost var before := w.log;
      NextKey(keys, i);
      ok := w.DeleteOwnedJob(k, keys[i], cr, AsSet(keys[i..]));
      MovesConcat(start, before, w.log, k, keys[..i], [keys[i]]);
      if !ok { return false, [], 0; }
      i := i + 1;
    }
    assert AsSet(keys[i..]) == {} && keys[..i] == keys;
    MovesConcat(old(w.log), start, w.log, k, [k], keys);
    assert w.log[..m] == start;
    ok := true;
  }

  method CleanupSecrets(w: World, k: Key, cr: Import) returns (ok: bool, ghost secrets: seq<Key>, ghost n: nat)
    requires w.At(k, cr, CleanListSecrets)
    modifies w
    ensures Continues(old(w.log), w.log, k)
    ensures if ok then w.At(k, cr, DropFinalizer) else w.Over(k)
    ensures ok ==> Moves(old(w.log), w.log, k, [k] + secrets) && |old(w.log)| <= n <= |w.log|
    ensures ok ==> AsSet(secrets) == OwnedSecrets(Exec(w.log[..n]).c, k, cr)
  {
    secrets, n := [], 0;
    var listed := w.ListOwnedSecrets(k, cr.spec.target.ns, OwnerLabels(k), cr);
    if listed.None? { return false, [], 0; }
    var keys := listed.value;
    secrets, n := keys, |w.log|;
    ghost var start := w.log;
    assert start[..n] == start && w.log[|start|..] == [] && keys[0..] == keys;
    var i := 0;
    while i < |keys|
      invariant i <= |keys| && Moves(start, w.log, k, keys[..i]) && NoRepeats(keys[i..])
      invariant w.At(k, cr, AfterSecrets(AsSet(keys[i..])))
    {
      ghost var before := w.log;
      NextKey(keys, i);
      ok := w.DeleteOwnedSecret(k, keys[i], cr, AsSet(keys[i..]));
      MovesConcat(start, before, w.log, k, keys[..i], [keys[i]]);
      if !ok { return false, [], 0; }
      i := i + 1;
    }
    assert AsSet(keys[i..]) == {} && keys[..i] == keys;
    MovesConcat(old(w.log), start, w.log, k, [k], keys);
    assert w.log[..n] == start;
    ok := true;
  }

  method HandleError(w: World, k: Key, cr: Import, reason: Reason) returns (ok: bool)
    requires w.At(k, cr, ReportError(reason))
    modifies w
    ensures Continues(old(w.log), w.log, k) && w.Over(k)
    ensures ok ==> k in w.s.c.imports && w.s.c.imports[k].status == NotReady(reason)
  {
    ok := w.UpdateImportStatus(k, cr, NotReady(reason));
  }

  method HandleSuccess(w: World, k: Key, cr: Import) returns (ok: bool)
    requires w.Sees(k) && k in w.all.passes && w.all.passes[k].cr == cr && w.all.passes[k].stage.ReportReady?
    modifies w
    ensures Continues(old(w.log), w.log, k) && w.Over(k)
    ensures ok ==> k in w.s.c.imports && w.s.c.imports[k].status == Ready
  {
    ok := w.UpdateImportStatus(k, cr, Ready);
  }

  /** Records the version on the pod template, keeping every other annotation. */
  method RolloutChanges(w: World, k: Key, cr: Import, sts: StatefulSet, version: nat,
                        ghost ctx: Context, ghost job: Job) returns (ok: bool)
    requires ctx.sts == sts && w.At(k, cr, Rollout(ctx, version, job))
    modifies w
    ensures Continues(old(w.log), w.log, k)
    ensures if ok then exists updated :: w.At(k, cr, ReportReady(ctx.(sts := updated), version, job)) else w.Over(k)
    ensures ok ==> cr.spec.target in w.s.c.sets
    ensures ok ==> w.s.c.sets[cr.spec.target].annotations == sts.annotations[AnnotationKey(k) := version]
  {
    var annotations := sts.annotations[AnnotationKey(k) := version];
    var updated := w.UpdateStatefulSet(k, cr.spec.target, sts, annotations, sts.workload, cr, ctx, version, job);
    ok := updated.Some?;
  }

  /** One pass over import `k`, whatever others do meanwhile. Everything it does, together with
      everything they do, is a run of the system in which the pass of `k` begins and ends. `ok` is the
      retry decision, which the run does not depend on. */
  method Reconcile(w: World, k: Key) returns (ok: bool)
    requires w.Over(k)
    modifies w
    ensures FullPass(old(w.log), w.log, k) && w.Over(k)
  {
    var got := w.GetImport(k);
    if got.None? { return true; }
    var cr := got.value;
    ghost var begun := w.log;

    if cr.deleting {
      if RealmImport !in cr.finalizers { return true; }
      ghost var jobs, secrets, m, n;
      ok, jobs, secrets, m, n := CleanupExternalResources(w, k, cr);
      PassContinues(old(w.log), begun, w.log, k);
      if !ok { return false; }
      var dropped := w.UpdateImport(k, cr, cr.finalizers - {RealmImport});
      PassContinues(old(w.log), begun, w.log, k);
      if dropped.None? { return false; }
      cr := dropped.value;
    }

    if RealmImport !in cr.finalizers {
      var added := w.UpdateImport(k, cr, cr.finalizers + {RealmImport});
      PassContinues(old(w.log), begun, w.log, k);
      if added.None? { return false; }
      cr := added.value;
    }

    ok := Work(w, k, cr);
    PassContinues(old(w.log), begun, w.log, k);
  }

  /** The pass from the Keycloak lookup on. */
  method Work(w: World, k: Key, cr: Import) returns (ok: bool)
    requires w.At(k, cr, FetchKeycloak)
    modifies w
    ensures Continues(old(w.log), w.log, k) && w.Over(k)
  {
    var keycloak := w.GetKeycloak(k, cr);
    if keycloak.None? {
      ok := HandleError(w, k, cr, KeycloakUnavailable);
      return;
    }
    if !keycloak.value.ready {
      ok := HandleError(w, k, cr, KeycloakNotReady);
      return;
    }
    var sts := w.GetStatefulSet(k, cr, keycloak.value);
    if sts.None? {
      ok := HandleError(w, k, cr, DeploymentNotReady);
      return;
    }
    ghost var ctx := Context(keycloak.value, sts.value);

    var importSecret := new ImportRealmSecret(k, cr);
    ghost var m;
    ok, m := importSecret.CreateOrUpdate(w, ctx);
    if !ok {
      ok := HandleError(w, k, cr, SecretNotReady);
      return;
    }
    ok := ImportAndRollOut(w, k, cr, sts.value, importSecret.version, ctx);
  }

  /** The pass from the Job list on. */
  method ImportAndRollOut(w: World, k: Key, cr: Import, sts: StatefulSet, version: nat,
      ghost ctx: Context) returns (ok: bool)
    requires ctx.sts == sts && w.At(k, cr, ListJobs(ctx, version))
    modifies w
    ensures Continues(old(w.log), w.log, k) && w.Over(k)
  {
    var jobs := w.ListJobsOf(k, cr.spec.target.ns, map[Owner := Text(k.name)], cr, ctx, version);
    if jobs.None? {
      ok := HandleError(w, k, cr, JobsUnavailable);
      return;
    }
    var found, failed, _ := FindJob(w, k, cr, ctx, version, jobs.value);
    if failed {
      ok := HandleError(w, k, cr, OldJobNotDeleted);
      return;
    }
    if found.None? {
      ok := w.PostJob(k, Key(cr.spec.target.ns, JobName(k.name)), JobLabels(k, version), cr, ctx, version);
      if ok { ok := HandleError(w, k, cr, WaitForJob); }
      return;
    }
    ghost var m;
    ok, m := RollOutIfDue(w, k, cr, sts, version, found.value, ctx);
  }

  /** The pass from the Job it found on. If the Job has completed and the last write is accepted, the
      version of the Secret was recorded when the StatefulSet was read, or is at moment `m`. */
  method RollOutIfDue(w: World, k: Key, cr: Import, sts: StatefulSet, version: nat, job: Job, ghost ctx: Context)
    returns (ok: bool, ghost m: nat)
    requires ctx.sts == sts && w.At(k, cr, AfterFound(k, ctx, version, job))
    modifies w
    ensures Continues(old(w.log), w.log, k) && w.Over(k)
    ensures ok ==> k in w.s.c.imports && w.s.c.imports[k].status == Ready
    ensures ok && IsJobCompleted(job.conditions) ==>
      (AnnotationKey(k) in sts.annotations && sts.annotations[AnnotationKey(k)] == version) ||
      (|old(w.log)| <= m <= |w.log| && RecordedAt(w.log, m, cr.spec.target, AnnotationKey(k), version))
  {
    m := 0;
    if !Annotated(sts, k, version) && IsJobCompleted(job.conditions) {
      ok := RolloutChanges(w, k, cr, sts, version, ctx, job);
      if !ok { return; }
      m := |w.log|;
      assert w.log[..m] == w.log;
    }
    ghost var before := w.log;
    ok := HandleSuccess(w, k, cr);
    assert w.log[..m] == before[..m];
  }

  /** At this moment of the run, the StatefulSet carried the version under that key. */
  ghost predicate RecordedAt(log: seq<Action>, m: nat, q: Key, l: string, version: nat)
    requires m <= |log|
  {
    var sets := Exec(log[..m]).c.sets;
    q in sets && l in sets[q].annotations && sets[q].annotations[l] == version
  }
}
