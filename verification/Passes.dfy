/** One reconcile pass of each controller, as a machine whose steps are single API calls.
    A pass state holds the local variables that are live before its next call. */
module Passes {
  import opened Names
  import opened Cluster
  import opened RealmDocument

  /** What a working pass has read about its Keycloak. */
  datatype Context = Context(keycloak: Keycloak, sts: StatefulSet)

  datatype Stage =
    // deletion
    | CleanListJobs
    | CleanJobs(todo: set<Key>)
    | CleanListSecrets
    | CleanSecrets(todo: set<Key>)
    | DropFinalizer
    // also reached by a deletion pass that has dropped the finalizer
    | AddFinalizer
    // work
    | FetchKeycloak
    | FetchSet(keycloak: Keycloak)
    | FetchValue(ctx: Context, next: nat, values: map<string, string>)
    | ReadSecret(ctx: Context, values: map<string, string>)
    | WriteRealm(ctx: Context, seen: Option<nat>, data: map<string, string>)
    | ListJobs(ctx: Context, version: nat)
    | ScanJobs(ctx: Context, version: nat, jobs: map<Key, Job>)
    | StartJob(ctx: Context, version: nat)
    | Rollout(ctx: Context, version: nat, job: Job)
    | ReportError(reason: Reason)
    | ReportReady(ctx: Context, version: nat, job: Job)
  {
    predicate Cleaning() {
      CleanListJobs? || CleanJobs? || CleanListSecrets? || CleanSecrets? || DropFinalizer?
    }

    predicate Reading() {
      FetchKeycloak? || FetchSet? || FetchValue? || ReadSecret? || ListJobs?
    }

    predicate Working() {
      !Cleaning() && !AddFinalizer?
    }

    /** From the StatefulSet read to the end of the pass. */
    predicate HasContext() {
      FetchValue? || ReadSecret? || WriteRealm? || HasVersion()
    }

    /** After the import Secret has been settled. */
    predicate HasVersion() {
      ListJobs? || ScanJobs? || StartJob? || Rollout? || ReportReady?
    }
  }

  /** A pass in progress: the import as it read (or last wrote) it, and what it will do next. */
  datatype Pass = Pass(cr: Import, stage: Stage)

  /** The cluster after a step, and the pass if it goes on. */
  datatype Next = Next(cluster: Cluster, pass: Option<Pass>)

  /** The import Secret lives in the target namespace under the name of the import. */
  function SecretKey(k: Key, cr: Import): Key {
    Key(cr.spec.target.ns, k.name)
  }

  function JobKey(k: Key, cr: Import): Key {
    Key(cr.spec.target.ns, JobName(k.name))
  }

  /** Where a pass goes once deletion has been dealt with. */
  function BeginWork(cr: Import): Pass {
    Pass(cr, if RealmImport in cr.finalizers then FetchKeycloak else AddFinalizer)
  }

  /** Reads the import and decides between deletion and work. */
  function BeginImport(c: Cluster, k: Key, fault: bool): Option<Pass> {
    if fault || k !in c.imports then None
    else
      var cr := c.imports[k];
      if !cr.deleting then Some(BeginWork(cr))
      else if RealmImport in cr.finalizers then Some(Pass(cr, CleanListJobs))
      else None
  }

  /** The Jobs a working pass lists: by namespace and owner name only. */
  function ListedJobs(c: Cluster, k: Key, cr: Import): map<Key, Job> {
    map key | key in c.jobs && key.ns == cr.spec.target.ns &&
        Carries(c.jobs[key].labels, Owner, Text(k.name)) :: c.jobs[key]
  }

  /** The Jobs and Secrets cleanup lists: by namespace and both owner labels. */
  function OwnedJobs(c: Cluster, k: Key, cr: Import): set<Key> {
    set key | key in c.jobs && key.ns == cr.spec.target.ns && OwnedBy(c.jobs[key].labels, k)
  }

  function OwnedSecrets(c: Cluster, k: Key, cr: Import): set<Key> {
    set key | key in c.secrets && key.ns == cr.spec.target.ns && OwnedBy(c.secrets[key].labels, k)
  }

  function AfterJobs(todo: set<Key>): Stage {
    if todo == {} then CleanListSecrets else CleanJobs(todo)
  }

  function AfterSecrets(todo: set<Key>): Stage {
    if todo == {} then DropFinalizer else CleanSecrets(todo)
  }

  function AfterValues(cr: Import, ctx: Context, next: nat, values: map<string, string>): Stage {
    if next < |cr.spec.subs| then FetchValue(ctx, next, values) else ReadSecret(ctx, values)
  }

  /** The value of a substitution; a missing key reads as the empty string. */
  function SubstitutionValue(s: Secret, sub: Substitution): string {
    if sub.secretKey in s.data then s.data[sub.secretKey] else ""
  }

  /** The content the import Secret must have, if the template expands. */
  function RealmData(k: Key, cr: Import, values: map<string, string>): Option<map<string, string>> {
    match Expand(cr.spec.json, values)
    case None => None
    case Some(doc) => Some(map[RealmFile(k.name) := doc])
  }

  /** CreateOrUpdate after its read: nothing to write when the Secret already has the content. */
  function AfterRead(k: Key, cr: Import, ctx: Context, values: map<string, string>, found: Option<Secret>): Stage {
    match RealmData(k, cr, values)
    case None => ReportError(SecretNotReady)
    case Some(data) =>
      if found.None? then WriteRealm(ctx, None, data)
      else if found.value.labels == SecretLabels(k) && found.value.data == data then ListJobs(ctx, found.value.rv)
      else WriteRealm(ctx, Some(found.value.rv), data)
  }

  function AfterScan(ctx: Context, version: nat, jobs: map<Key, Job>): Stage {
    if jobs == map[] then StartJob(ctx, version) else ScanJobs(ctx, version, jobs)
  }

  predicate Annotated(sts: StatefulSet, k: Key, version: nat) {
    AnnotationKey(k) in sts.annotations && sts.annotations[AnnotationKey(k)] == version
  }

  /** The matching Job decides between a rollout and the final report. */
  function AfterFound(k: Key, ctx: Context, version: nat, job: Job): Stage {
    if !Annotated(ctx.sts, k, version) && IsJobCompleted(job.conditions) then Rollout(ctx, version, job)
    else ReportReady(ctx, version, job)
  }

  /** Calls that only read. */
  function StepReading(c: Cluster, k: Key, cr: Import, t: Stage, fault: bool): Stage
    requires t.Reading()
  {
    match t
    case FetchKeycloak =>
      if fault || cr.spec.target !in c.keycloaks then ReportError(KeycloakUnavailable)
      else if !c.keycloaks[cr.spec.target].ready then ReportError(KeycloakNotReady)
      else FetchSet(c.keycloaks[cr.spec.target])
    case FetchSet(keycloak) =>
      if fault || cr.spec.target !in c.sets then ReportError(DeploymentNotReady)
      else AfterValues(cr, Context(keycloak, c.sets[cr.spec.target]), 0, map[])
    case FetchValue(ctx, next, values) =>
      if next >= |cr.spec.subs| then ReadSecret(ctx, values) else
      var sub := cr.spec.subs[next];
      var key := Key(k.ns, sub.secretName);
      if fault || key !in c.secrets then ReportError(SecretNotReady)
      else AfterValues(cr, ctx, next + 1, values[sub.name := EscapeString(SubstitutionValue(c.secrets[key], sub))])
    case ReadSecret(ctx, values) =>
      var key := SecretKey(k, cr);
      if fault then ReportError(SecretNotReady)
      else AfterRead(k, cr, ctx, values, if key in c.secrets then Some(c.secrets[key]) else None)
    case ListJobs(ctx, version) =>
      if fault then ReportError(JobsUnavailable) else AfterScan(ctx, version, ListedJobs(c, k, cr))
  }

  /** Deletions of the cleanup branch. `pick` is the listed object handled next. */
  function StepCleaning(c: Cluster, k: Key, cr: Import, t: Stage, pick: Key, fault: bool): Next
    requires t.Cleaning() && !t.DropFinalizer?
  {
    match t
    case CleanListJobs =>
      if fault then Next(c, None) else Next(c, Some(Pass(cr, AfterJobs(OwnedJobs(c, k, cr)))))
    case CleanJobs(todo) =>
      if pick !in todo then Next(c, Some(Pass(cr, t)))
      else if fault || DeleteJob(c, pick).Rejected? then Next(c, None)
      else Next(DeleteJob(c, pick).cluster, Some(Pass(cr, AfterJobs(todo - {pick}))))
    case CleanListSecrets =>
      if fault then Next(c, None) else Next(c, Some(Pass(cr, AfterSecrets(OwnedSecrets(c, k, cr)))))
    case CleanSecrets(todo) =>
      if pick !in todo then Next(c, Some(Pass(cr, t)))
      else if fault || DeleteSecret(c, pick).Rejected? then Next(c, None)
      else Next(DeleteSecret(c, pick).cluster, Some(Pass(cr, AfterSecrets(todo - {pick}))))
  }

  /** Calls that write the import itself: its finalizer and its status. */
  function StepImportObject(c: Cluster, k: Key, cr: Import, t: Stage, fault: bool): Next
    requires t.DropFinalizer? || t.AddFinalizer? || t.ReportError? || t.ReportReady?
  {
    match t
    case DropFinalizer =>
      var r := UpdateFinalizers(c, k, cr, cr.finalizers - {RealmImport});
      if fault || r.Rejected? then Next(c, None) else Next(r.cluster, Some(BeginWork(r.value)))
    case AddFinalizer =>
      var r := UpdateFinalizers(c, k, cr, cr.finalizers + {RealmImport});
      if fault || r.Rejected? then Next(c, None) else Next(r.cluster, Some(Pass(r.value, FetchKeycloak)))
    case ReportError(reason) =>
      var r := UpdateStatus(c, k, cr, NotReady(reason));
      Next(if fault || r.Rejected? then c else r.cluster, None)
    case ReportReady(ctx, version, job) =>
      var r := UpdateStatus(c, k, cr, Ready);
      Next(if fault || r.Rejected? then c else r.cluster, None)
  }

  /** Calls that write the artefacts of an import: its Secret, its Job, its annotation.
      `pick` is the listed Job examined next. */
  function StepArtefact(c: Cluster, k: Key, cr: Import, t: Stage, pick: Key, fault: bool): Next
    requires t.WriteRealm? || t.ScanJobs? || t.StartJob? || t.Rollout?
  {
    match t
    case WriteRealm(ctx, seen, data) =>
      var r := WriteSecret(c, SecretKey(k, cr), seen, SecretLabels(k), data);
      if fault || r.Rejected? then Next(c, Some(Pass(cr, ReportError(SecretNotReady))))
      else Next(r.cluster, Some(Pass(cr, ListJobs(ctx, r.value))))
    case ScanJobs(ctx, version, jobs) =>
      if pick !in jobs then Next(c, Some(Pass(cr, t)))
      else if Carries(jobs[pick].labels, VersionLabel(k), Version(version)) then
        Next(c, Some(Pass(cr, AfterFound(k, ctx, version, jobs[pick]))))
      else if fault || DeleteJob(c, pick).Rejected? then Next(c, Some(Pass(cr, ReportError(OldJobNotDeleted))))
      else Next(DeleteJob(c, pick).cluster, Some(Pass(cr, AfterScan(ctx, version, jobs - {pick}))))
    case StartJob(ctx, version) =>
      var r := CreateJob(c, JobKey(k, cr), JobLabels(k, version));
      if fault || r.Rejected? then Next(c, None)
      else Next(r.cluster, Some(Pass(cr, ReportError(WaitForJob))))
    case Rollout(ctx, version, job) =>
      var r := UpdateSet(c, cr.spec.target, ctx.sts, ctx.sts.annotations[AnnotationKey(k) := version],
          ctx.sts.workload);
      if fault || r.Rejected? then Next(c, None)
      else Next(r.cluster, Some(Pass(cr, ReportReady(ctx.(sts := r.value), version, job))))
  }

  /** One API call of the pass of import `k`. Lists are handled in any order, through `pick`;
      `fault` makes the call fail without effect. */
  function StepImport(c: Cluster, k: Key, p: Pass, pick: Key, fault: bool): Next {
    var t := p.stage;
    if t.Reading() then Next(c, Some(Pass(p.cr, StepReading(c, k, p.cr, t, fault))))
    else if t.Cleaning() && !t.DropFinalizer? then StepCleaning(c, k, p.cr, t, pick, fault)
    else if t.WriteRealm? || t.ScanJobs? || t.StartJob? || t.Rollout? then StepArtefact(c, k, p.cr, t, pick, fault)
    else StepImportObject(c, k, p.cr, t, fault)
  }

  /** Finalizer and status calls store the import, drop it or do nothing. */
  lemma ImportWrite(c: Cluster, k: Key, cr: Import, t: Stage, fault: bool)
    requires t.DropFinalizer? || t.AddFinalizer? || t.ReportError? || t.ReportReady?
    ensures var c' := StepImportObject(c, k, cr, t, fault).cluster;
      c' == c || c' == DropImport(c, k) || (k in c'.imports && c' == StoreImport(c, k, c'.imports[k]))
  {
  }

  /** What the pass of `k` holds after a step, it held before or has just read. */
  lemma ReadingHolds(c: Cluster, k: Key, cr: Import, t: Stage, fault: bool)
    requires t.Reading()
    ensures var t' := StepReading(c, k, cr, t, fault);
      && (t'.FetchSet? ==>
            cr.spec.target in c.keycloaks && c.keycloaks[cr.spec.target] == t'.keycloak && t'.keycloak.ready)
      && (t'.HasContext() ==> (t.FetchSet? && t'.ctx.keycloak == t.keycloak) || (t.HasContext() && t'.ctx == t.ctx))
      && (t'.HasVersion() ==>
            (t.HasVersion() && t'.version == t.version) ||
            (SecretKey(k, cr) in c.secrets && c.secrets[SecretKey(k, cr)].rv == t'.version &&
             c.secrets[SecretKey(k, cr)].labels == SecretLabels(k)))
      && (t'.ScanJobs? ==> t'.jobs == ListedJobs(c, k, cr))
      && !t'.Rollout? && !t'.ReportReady?
  {
  }

  lemma ArtefactHolds(c: Cluster, k: Key, cr: Import, t: Stage, pick: Key, fault: bool)
    requires t.WriteRealm? || t.ScanJobs? || t.StartJob? || t.Rollout?
    ensures var n := StepArtefact(c, k, cr, t, pick, fault);
      n.pass.Some? ==>
        var t' := n.pass.value.stage;
        && n.pass.value.cr == cr && !t'.FetchSet?
        && (t'.HasContext() ==> t'.ctx.keycloak == t.ctx.keycloak)
        && (t'.HasVersion() ==>
              (t.HasVersion() && t'.version == t.version) ||
              (SecretKey(k, cr) in n.cluster.secrets && n.cluster.secrets[SecretKey(k, cr)].rv == t'.version &&
               n.cluster.secrets[SecretKey(k, cr)].labels == SecretLabels(k)))
        && (t'.ScanJobs? ==> t.ScanJobs? && t'.jobs.Keys <= t.jobs.Keys && forall key :: key in t'.jobs ==>
              t'.jobs[key] == t.jobs[key])
        && (t'.Rollout? ==> IsJobCompleted(t'.job.conditions))
        && (t'.Rollout? || t'.ReportReady? ==>
              (t.Rollout? && t'.job == t.job) ||
              (t.ScanJobs? && pick in t.jobs && t'.job == t.jobs[pick] &&
                  Carries(t'.job.labels, VersionLabel(k), Version(t'.version))))
  {
  }

  /** The version and the Jobs a pass holds after any step. */
  lemma StepHolds(c: Cluster, k: Key, p: Pass, pick: Key, fault: bool)
    ensures var n := StepImport(c, k, p, pick, fault);
      n.pass.Some? ==>
        var p' := n.pass.value;
        && (p'.stage.HasVersion() ==> p'.cr == p.cr)
        && (p'.stage.HasVersion() ==>
              (p.stage.HasVersion() && p'.stage.version == p.stage.version) ||
              (SecretKey(k, p.cr) in n.cluster.secrets &&
                  n.cluster.secrets[SecretKey(k, p.cr)].rv == p'.stage.version &&
               n.cluster.secrets[SecretKey(k, p.cr)].labels == SecretLabels(k)))
        && (p'.stage.ScanJobs? ==>
              (p.stage.ListJobs? && p'.stage.jobs == ListedJobs(c, k, p.cr) && n.cluster == c) ||
              (p.stage.ScanJobs? && forall key :: key in p'.stage.jobs ==>
                  key in p.stage.jobs && p'.stage.jobs[key] == p.stage.jobs[key]))
  {
    var t := p.stage;
    if t.Reading() {
      ReadingHolds(c, k, p.cr, t, fault);
    } else if t.WriteRealm? || t.ScanJobs? || t.StartJob? || t.Rollout? {
      ArtefactHolds(c, k, p.cr, t, pick, fault);
    }
  }

  /** A pass of the Keycloak controller, reduced to its StatefulSet and status calls. */
  datatype KeycloakPass =
    | ReadSet(kc: Keycloak, host: string)
    | WriteSet(kc: Keycloak, seen: Option<StatefulSet>, workload: Workload)
    | Report(kc: Keycloak, ready: bool)

  datatype KeycloakNext = KeycloakNext(cluster: Cluster, pass: Option<KeycloakPass>)

  /** `fault` stands for a failed Service or Route call. */
  function BeginKeycloak(c: Cluster, q: Key, host: string, fault: bool): Option<KeycloakPass> {
    if q !in c.keycloaks then None
    else if fault then Some(Report(c.keycloaks[q], false))
    else Some(ReadSet(c.keycloaks[q], host))
  }

  /** `broken` stands for a failed discovery-Service or ServiceMonitor call before the report. */
  function StepKeycloak(c: Cluster, q: Key, p: KeycloakPass, fault: bool, broken: bool): KeycloakNext {
    match p
    case ReadSet(kc, host) =>
      var workload := Workload(kc.spec, host);
      if fault then KeycloakNext(c, Some(Report(kc, false)))
      else if q !in c.sets then KeycloakNext(c, Some(WriteSet(kc, None, workload)))
      else if c.sets[q].workload == workload then KeycloakNext(c, Some(Report(kc, IsStatefulSetReady(c.sets[q]))))
      else KeycloakNext(c, Some(WriteSet(kc, Some(c.sets[q]), workload)))
    case WriteSet(kc, seen, workload) =>
      var r := if seen.None? then CreateSet(c, q, workload)
               else UpdateSet(c, q, seen.value, seen.value.annotations, workload);
      if fault || r.Rejected? then KeycloakNext(c, Some(Report(kc, false)))
      else KeycloakNext(r.cluster, Some(Report(kc, IsStatefulSetReady(r.value))))
    case Report(kc, ready) =>
      var r := UpdateKeycloakStatus(c, q, kc, ready && !broken);
      KeycloakNext(if fault || r.Rejected? then c else r.cluster, None)
  }
}
