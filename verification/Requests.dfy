/** The API server seen from outside: requests with their arguments, and the responses to them. The
    pass machines are shown to be clients of it: each step is one request made from what the pass
    holds, and the pass goes on from the response alone. */
module Requests {
  import opened Names
  import opened Cluster
  import opened Passes

  datatype Request =
    | GetImport(k: Key)
    | PutFinalizers(k: Key, cr: Import, finalizers: set<Finalizer>)
    | PutStatus(k: Key, cr: Import, status: Status)
    | GetKeycloak(q: Key)
    | PutKeycloakReady(q: Key, keycloak: Keycloak, ready: bool)
    | GetStatefulSet(q: Key)
    | PostStatefulSet(q: Key, workload: Workload)
    | PutStatefulSet(q: Key, sts: StatefulSet, annotations: map<string, nat>, workload: Workload)
    | GetSecret(key: Key)
    | PutSecretData(key: Key, seen: Option<nat>, labels: Labels, data: map<string, string>)
    | EraseSecret(key: Key)
    | FindSecrets(ns: string, selector: Labels)
    | PostJob(key: Key, labels: Labels)
    | EraseJob(key: Key)
    | FindJobs(ns: string, selector: Labels)
    | NoRequest

  datatype Response =
    | Refused
    | NotFound
    | Accepted
    | AnImport(cr: Import)
    | AKeycloak(keycloak: Keycloak)
    | AStatefulSet(sts: StatefulSet)
    | ASecret(secret: Secret)
    | AVersion(version: nat)
    | SomeSecrets(keys: set<Key>)
    | SomeJobs(jobs: map<Key, Job>)

  datatype Reply = Reply(cluster: Cluster, response: Response)

  function Answered(c: Cluster, o: Outcome<()>): Reply {
    if o.Rejected? then Reply(c, Refused) else Reply(o.cluster, Accepted)
  }

  function Selected(jobs: map<Key, Job>, ns: string, selector: Labels): map<Key, Job> {
    map key | key in jobs && key.ns == ns && MatchSet(jobs[key].labels, selector) :: jobs[key]
  }

  function Read(c: Cluster, r: Request): Response {
    match r
    case GetImport(k) => if k in c.imports then AnImport(c.imports[k]) else NotFound
    case GetKeycloak(q) => if q in c.keycloaks then AKeycloak(c.keycloaks[q]) else NotFound
    case GetStatefulSet(q) => if q in c.sets then AStatefulSet(c.sets[q]) else NotFound
    case GetSecret(key) => if key in c.secrets then ASecret(c.secrets[key]) else NotFound
    case FindSecrets(ns, selector) =>
      SomeSecrets(set key | key in c.secrets && key.ns == ns && MatchSet(c.secrets[key].labels, selector))
    case FindJobs(ns, selector) => SomeJobs(Selected(c.jobs, ns, selector))
    case _ => Accepted
  }

  /** What the API server does with a request. A fault refuses it. */
  function Serve(c: Cluster, r: Request, fault: bool): Reply {
    if fault then Reply(c, Refused)
    else
      match r
      case PutFinalizers(k, seen, finalizers) =>
        var o := UpdateFinalizers(c, k, seen, finalizers);
        if o.Rejected? then Reply(c, Refused) else Reply(o.cluster, AnImport(o.value))
      case PutStatus(k, seen, status) => Answered(c, UpdateStatus(c, k, seen, status))
      case PutKeycloakReady(q, seen, ready) => Answered(c, UpdateKeycloakStatus(c, q, seen, ready))
      case PostStatefulSet(q, workload) =>
        var o := CreateSet(c, q, workload);
        if o.Rejected? then Reply(c, Refused) else Reply(o.cluster, AStatefulSet(o.value))
      case PutStatefulSet(q, seen, annotations, workload) =>
        var o := UpdateSet(c, q, seen, annotations, workload);
        if o.Rejected? then Reply(c, Refused) else Reply(o.cluster, AStatefulSet(o.value))
      case PutSecretData(key, seen, labels, data) =>
        var o := WriteSecret(c, key, seen, labels, data);
        if o.Rejected? then Reply(c, Refused) else Reply(o.cluster, AVersion(o.value))
      case EraseSecret(key) => Answered(c, DeleteSecret(c, key))
      case PostJob(key, labels) => Answered(c, CreateJob(c, key, labels))
      case EraseJob(key) => Answered(c, DeleteJob(c, key))
      case _ => Reply(c, Read(c, r))
  }

  /** The request that a pass of `k` makes next. `pick` is the listed object it handles next. */
  ghost function NextRequest(k: Key, p: Pass, pick: Key): Request {
    var cr, ns := p.cr, p.cr.spec.target.ns;
    match p.stage
    case CleanListJobs => FindJobs(ns, OwnerLabels(k))
    case CleanJobs(todo) => if pick in todo then EraseJob(pick) else NoRequest
    case CleanListSecrets => FindSecrets(ns, OwnerLabels(k))
    case CleanSecrets(todo) => if pick in todo then EraseSecret(pick) else NoRequest
    case DropFinalizer => PutFinalizers(k, cr, cr.finalizers - {RealmImport})
    case AddFinalizer => PutFinalizers(k, cr, cr.finalizers + {RealmImport})
    case FetchKeycloak => GetKeycloak(cr.spec.target)
    case FetchSet(_) => GetStatefulSet(cr.spec.target)
    case FetchValue(_, next, _) =>
      if next < |cr.spec.subs| then GetSecret(Key(k.ns, cr.spec.subs[next].secretName)) else NoRequest
    case ReadSecret(_, _) => GetSecret(SecretKey(k, cr))
    case WriteRealm(_, seen, data) => PutSecretData(SecretKey(k, cr), seen, SecretLabels(k), data)
    case ListJobs(_, _) => FindJobs(ns, map[Owner := Text(k.name)])
    case ScanJobs(_, version, jobs) =>
      if pick !in jobs ||
          Carries(jobs[pick].labels, VersionLabel(k), Version(version)) then NoRequest else EraseJob(pick)
    case StartJob(_, version) => PostJob(JobKey(k, cr), JobLabels(k, version))
    case Rollout(ctx, version, _) =>
      PutStatefulSet(cr.spec.target, ctx.sts, ctx.sts.annotations[AnnotationKey(k) := version], ctx.sts.workload)
    case ReportError(reason) => PutStatus(k, cr, NotReady(reason))
    case ReportReady(_, _, _) => PutStatus(k, cr, Ready)
  }

  lemma OwnerSelector(labels: Labels, k: Key)
    ensures MatchSet(labels, OwnerLabels(k)) <==> OwnedBy(labels, k)
    ensures MatchSet(labels, map[Owner := Text(k.name)]) <==> Carries(labels, Owner, Text(k.name))
  {
    assert Owner in OwnerLabels(k) && OwnerNamespace in OwnerLabels(k);
    assert Owner in map[Owner := Text(k.name)];
  }

  /** The selectors list what the passes mean to list. */
  lemma Listings(c: Cluster, k: Key, cr: Import)
    ensures Selected(c.jobs, cr.spec.target.ns, map[Owner := Text(k.name)]) == ListedJobs(c, k, cr)
    ensures Selected(c.jobs, cr.spec.target.ns, OwnerLabels(k)).Keys == OwnedJobs(c, k, cr)
    ensures Read(c, FindSecrets(cr.spec.target.ns, OwnerLabels(k))) == SomeSecrets(OwnedSecrets(c, k, cr))
  {
    forall key | key in c.jobs
      ensures MatchSet(c.jobs[key].labels, OwnerLabels(k)) <==> OwnedBy(c.jobs[key].labels, k)
      ensures MatchSet(c.jobs[key].labels, map[Owner := Text(k.name)]) <==>
        Carries(c.jobs[key].labels, Owner, Text(k.name))
    {
      OwnerSelector(c.jobs[key].labels, k);
    }
    forall key | key in c.secrets ensures MatchSet(c.secrets[key].labels, OwnerLabels(k)) <==>
        OwnedBy(c.secrets[key].labels, k) {
      OwnerSelector(c.secrets[key].labels, k);
    }
    assert Selected(c.jobs, cr.spec.target.ns, OwnerLabels(k)).Keys == OwnedJobs(c, k, cr);
  }

  lemma CleaningIsRequest(c: Cluster, k: Key, p: Pass, pick: Key, fault: bool)
    requires p.stage.Cleaning() && !p.stage.DropFinalizer?
    ensures StepCleaning(c, k, p.cr, p.stage, pick, fault).cluster == Serve(c, NextRequest(k, p, pick), fault).cluster
  {
  }

  lemma ArtefactIsRequest(c: Cluster, k: Key, p: Pass, pick: Key, fault: bool)
    requires p.stage.WriteRealm? || p.stage.ScanJobs? || p.stage.StartJob? || p.stage.Rollout?
    ensures StepArtefact(c, k, p.cr, p.stage, pick, fault).cluster == Serve(c, NextRequest(k, p, pick), fault).cluster
  {
  }

  /** A step of the machine does to the cluster what the API server does with its request. */
  lemma StepIsRequest(c: Cluster, k: Key, p: Pass, pick: Key, fault: bool)
    ensures StepImport(c, k, p, pick, fault).cluster == Serve(c, NextRequest(k, p, pick), fault).cluster
  {
    var t := p.stage;
    if t.Cleaning() && !t.DropFinalizer? {
      CleaningIsRequest(c, k, p, pick, fault);
    } else if t.WriteRealm? || t.ScanJobs? || t.StartJob? || t.Rollout? {
      ArtefactIsRequest(c, k, p, pick, fault);
    }
  }

  /** Both clusters give the same response to the next request. */
  ghost predicate SameResponse(c: Cluster, d: Cluster, k: Key, p: Pass, pick: Key, fault: bool, fault': bool) {
    var r := NextRequest(k, p, pick); Serve(c, r, fault).response == Serve(d, r, fault').response
  }

  lemma ValueLearns(c: Cluster, d: Cluster, k: Key, p: Pass, pick: Key, fault: bool, fault': bool)
    requires p.stage.FetchValue? && SameResponse(c, d, k, p, pick, fault, fault')
    ensures StepReading(c, k, p.cr, p.stage, fault) == StepReading(d, k, p.cr, p.stage, fault')
  {
  }

  lemma SecretLearns(c: Cluster, d: Cluster, k: Key, p: Pass, pick: Key, fault: bool, fault': bool)
    requires p.stage.ReadSecret? && SameResponse(c, d, k, p, pick, fault, fault')
    ensures StepReading(c, k, p.cr, p.stage, fault) == StepReading(d, k, p.cr, p.stage, fault')
  {
  }

  lemma ReadingLearns(c: Cluster, d: Cluster, k: Key, p: Pass, pick: Key, fault: bool, fault': bool)
    requires (p.stage.FetchKeycloak? || p.stage.FetchSet?) && SameResponse(c, d, k, p, pick, fault, fault')
    ensures StepReading(c, k, p.cr, p.stage, fault) == StepReading(d, k, p.cr, p.stage, fault')
  {
  }

  lemma ListLearns(c: Cluster, d: Cluster, k: Key, p: Pass, pick: Key, fault: bool, fault': bool)
    requires p.stage.ListJobs? && SameResponse(c, d, k, p, pick, fault, fault')
    ensures StepReading(c, k, p.cr, p.stage, fault) == StepReading(d, k, p.cr, p.stage, fault')
  {
    Listings(c, k, p.cr);
    Listings(d, k, p.cr);
    assert fault == fault';
    assert fault || ListedJobs(c, k, p.cr) == ListedJobs(d, k, p.cr);
  }

  lemma CleaningLearns(c: Cluster, d: Cluster, k: Key, p: Pass, pick: Key, fault: bool, fault': bool)
    requires p.stage.Cleaning() && !p.stage.DropFinalizer? && SameResponse(c, d, k, p, pick, fault, fault')
    ensures StepCleaning(c, k, p.cr, p.stage, pick, fault).pass == StepCleaning(d, k, p.cr, p.stage, pick, fault').pass
  {
    if p.stage.CleanListJobs? || p.stage.CleanListSecrets? {
      Listings(c, k, p.cr);
      Listings(d, k, p.cr);
    }
  }

  lemma ScanLearns(c: Cluster, d: Cluster, k: Key, p: Pass, pick: Key, fault: bool, fault': bool)
    requires p.stage.ScanJobs? && SameResponse(c, d, k, p, pick, fault, fault')
    ensures StepArtefact(c, k, p.cr, p.stage, pick, fault).pass == StepArtefact(d, k, p.cr, p.stage, pick, fault').pass
  {
  }

  lemma ArtefactLearns(c: Cluster, d: Cluster, k: Key, p: Pass, pick: Key, fault: bool, fault': bool)
    requires (p.stage.WriteRealm? || p.stage.StartJob? || p.stage.Rollout?) &&
      SameResponse(c, d, k, p, pick, fault, fault')
    ensures StepArtefact(c, k, p.cr, p.stage, pick, fault).pass == StepArtefact(d, k, p.cr, p.stage, pick, fault').pass
  {
  }

  lemma ImportObjectLearns(c: Cluster, d: Cluster, k: Key, p: Pass, pick: Key, fault: bool, fault': bool)
    requires p.stage.DropFinalizer? || p.stage.AddFinalizer? || p.stage.ReportError? || p.stage.ReportReady?
    requires SameResponse(c, d, k, p, pick, fault, fault')
    ensures StepImportObject(c, k, p.cr, p.stage, fault).pass == StepImportObject(d, k, p.cr, p.stage, fault').pass
  {
  }

  /** The pass goes on from the response alone: it learns nothing else about the cluster. */
  lemma StepLearnsFromResponse(c: Cluster, d: Cluster, k: Key, p: Pass, pick: Key, fault: bool, fault': bool)
    requires SameResponse(c, d, k, p, pick, fault, fault')
    ensures StepImport(c, k, p, pick, fault).pass == StepImport(d, k, p, pick, fault').pass
  {
    var t := p.stage;
    if t.ListJobs? {
      ListLearns(c, d, k, p, pick, fault, fault');
    } else if t.FetchValue? {
      ValueLearns(c, d, k, p, pick, fault, fault');
    } else if t.ReadSecret? {
      SecretLearns(c, d, k, p, pick, fault, fault');
    } else if t.Reading() {
      ReadingLearns(c, d, k, p, pick, fault, fault');
    } else if t.Cleaning() && !t.DropFinalizer? {
      CleaningLearns(c, d, k, p, pick, fault, fault');
    } else if t.ScanJobs? {
      ScanLearns(c, d, k, p, pick, fault, fault');
    } else if t.WriteRealm? || t.StartJob? || t.Rollout? {
      ArtefactLearns(c, d, k, p, pick, fault, fault');
    } else {
      ImportObjectLearns(c, d, k, p, pick, fault, fault');
    }
  }

  // The Keycloak controller.

  /** `broken` tells that a call for an object that is not modelled has failed before the report. */
  ghost function NextKeycloakRequest(q: Key, p: KeycloakPass, broken: bool): Request {
    match p
    case ReadSet(_, _) => GetStatefulSet(q)
    case WriteSet(_, None, workload) => PostStatefulSet(q, workload)
    case WriteSet(_, Some(seen), workload) => PutStatefulSet(q, seen, seen.annotations, workload)
    case Report(kc, ready) => PutKeycloakReady(q, kc, ready && !broken)
  }

  lemma KeycloakStepIsRequest(c: Cluster, q: Key, p: KeycloakPass, fault: bool, broken: bool)
    ensures StepKeycloak(c, q, p, fault, broken).cluster == Serve(c, NextKeycloakRequest(q, p, broken), fault).cluster
  {
  }

  lemma KeycloakLearnsFromResponse(c: Cluster, d: Cluster, q: Key, p: KeycloakPass, fault: bool, fault': bool,
      broken: bool)
    requires var r := NextKeycloakRequest(q, p, broken); Serve(c, r, fault).response == Serve(d, r, fault').response
    ensures StepKeycloak(c, q, p, fault, broken).pass == StepKeycloak(d, q, p, fault', broken).pass
  {
  }
}
