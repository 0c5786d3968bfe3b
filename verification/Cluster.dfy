/** The objects the two controllers share, and the API-server rules for reading and writing them.
    Every write that takes effect advances one global counter, whose value becomes the
    resourceVersion (`rv`) of the written object. */
module Cluster {
  import opened Names

  /** A realm variable and the Secret key that supplies its value. */
  datatype Substitution = Substitution(name: string, secretName: string, secretKey: string)

  datatype ImportSpec = ImportSpec(target: Key, json: string, subs: seq<Substitution>, overrideIfExists: bool)

  datatype Finalizer = RealmImport | Foreign(name: string)

  /** Why a pass last reported its import as not ready. */
  datatype Reason =
    | KeycloakUnavailable | KeycloakNotReady | DeploymentNotReady | SecretNotReady
    | JobsUnavailable | OldJobNotDeleted | WaitForJob

  datatype Status = Unset | NotReady(reason: Reason) | Ready

  datatype Import = Import(rv: nat, deleting: bool, finalizers: set<Finalizer>, spec: ImportSpec, status: Status)

  /** What the StatefulSet is built from: the Keycloak spec (an opaque revision) and the route host. */
  datatype Workload = Workload(spec: nat, host: string)

  datatype Keycloak = Keycloak(rv: nat, spec: nat, ready: bool)

  datatype Secret = Secret(rv: nat, labels: Labels, data: map<string, string>)

  datatype ConditionKind = Complete | Failed | OtherKind(name: string)

  datatype JobCondition = JobCondition(kind: ConditionKind, isTrue: bool)

  datatype Job = Job(rv: nat, labels: Labels, conditions: seq<JobCondition>, terminating: bool)

  /** `uid` is the counter at creation: it tells incarnations of one name apart. */
  datatype StatefulSet = StatefulSet(rv: nat, uid: nat, annotations: map<string, nat>, workload: Workload,
                                     replicas: int, readyReplicas: int)

  datatype Cluster = Cluster(
    rv: nat,
    imports: map<Key, Import>,
    keycloaks: map<Key, Keycloak>,
    secrets: map<Key, Secret>,
    jobs: map<Key, Job>,
    sets: map<Key, StatefulSet>)

  /** The first Complete condition decides. */
  predicate IsJobCompleted(conditions: seq<JobCondition>) {
    conditions != [] &&
    (if conditions[0].kind == Complete then conditions[0].isTrue else IsJobCompleted(conditions[1..]))
  }

  /** Condition i is a true Complete, and no Complete comes before it. */
  ghost predicate CompletedAt(conditions: seq<JobCondition>, i: int) {
    && 0 <= i < |conditions| && conditions[i] == JobCondition(Complete, true)
    && forall j :: 0 <= j < i ==> conditions[j].kind != Complete
  }

  /** That is what completed means. In particular a Job that has only failed is not completed. */
  lemma {:induction false} CompletedExactly(conditions: seq<JobCondition>)
    ensures IsJobCompleted(conditions) <==> exists i :: CompletedAt(conditions, i)
    ensures IsJobCompleted(conditions) ==> JobCondition(Complete, true) in conditions
  {
    if conditions != [] {
      var rest := conditions[1..];
      CompletedExactly(rest);
      if conditions[0].kind == Complete {
        assert conditions[0].isTrue ==> CompletedAt(conditions, 0);
      } else {
        forall i | CompletedAt(rest, i) ensures CompletedAt(conditions, i + 1) {
          assert forall j :: 0 < j < i + 1 ==> conditions[j] == rest[j - 1];
        }
        forall i | CompletedAt(conditions, i) ensures CompletedAt(rest, i - 1) {
          assert forall j :: 0 <= j < i - 1 ==> rest[j] == conditions[j + 1];
        }
      }
    }
  }

  /** The Job controller has given up on the Job. */
  predicate IsJobFailed(conditions: seq<JobCondition>) {
    JobCondition(Failed, true) in conditions
  }

  predicate IsStatefulSetReady(s: StatefulSet) {
    s.readyReplicas == s.replicas
  }

  // Every write that takes effect is one of these: it advances the counter and stamps the object.

  function StoreImport(c: Cluster, k: Key, i: Import): Cluster {
    c.(rv := c.rv + 1, imports := c.imports[k := i.(rv := c.rv + 1)])
  }

  function DropImport(c: Cluster, k: Key): Cluster {
    c.(rv := c.rv + 1, imports := c.imports - {k})
  }

  function StoreKeycloak(c: Cluster, q: Key, kc: Keycloak): Cluster {
    c.(rv := c.rv + 1, keycloaks := c.keycloaks[q := kc.(rv := c.rv + 1)])
  }

  function DropKeycloak(c: Cluster, q: Key): Cluster {
    c.(rv := c.rv + 1, keycloaks := c.keycloaks - {q})
  }

  function StoreSecret(c: Cluster, key: Key, labels: Labels, data: map<string, string>): Cluster {
    c.(rv := c.rv + 1, secrets := c.secrets[key := Secret(c.rv + 1, labels, data)])
  }

  function DropSecret(c: Cluster, key: Key): Cluster {
    c.(rv := c.rv + 1, secrets := c.secrets - {key})
  }

  function StoreJob(c: Cluster, key: Key, j: Job): Cluster {
    c.(rv := c.rv + 1, jobs := c.jobs[key := j.(rv := c.rv + 1)])
  }

  function DropJob(c: Cluster, key: Key): Cluster {
    c.(rv := c.rv + 1, jobs := c.jobs - {key})
  }

  function StoreSet(c: Cluster, q: Key, s: StatefulSet): Cluster {
    c.(rv := c.rv + 1, sets := c.sets[q := s.(rv := c.rv + 1)])
  }

  function DropSet(c: Cluster, q: Key): Cluster {
    c.(rv := c.rv + 1, sets := c.sets - {q})
  }

  /** The result of a write: the cluster and the stored object. A rejected call changes nothing. */
  datatype Outcome<+T> = Done(cluster: Cluster, value: T) | Rejected

  /** Replaces the finalizers of an import. Refused when the import is gone or was written since it
      was read, and when a finalizer would be added to a deleting import. Removing the last
      finalizer of a deleting import removes it. */
  function UpdateFinalizers(c: Cluster, k: Key, seen: Import, finalizers: set<Finalizer>): Outcome<Import> {
    if k !in c.imports || c.imports[k].rv != seen.rv then Rejected
    else if c.imports[k].deleting && !(finalizers <= c.imports[k].finalizers) then Rejected
    else
      var updated := seen.(rv := c.rv + 1, finalizers := finalizers);
      Done(if updated.deleting && finalizers == {} then DropImport(c, k) else StoreImport(c, k, updated), updated)
  }

  function UpdateStatus(c: Cluster, k: Key, seen: Import, status: Status): Outcome<()> {
    if k !in c.imports || c.imports[k].rv != seen.rv then Rejected
    else Done(StoreImport(c, k, c.imports[k].(status := status)), ())
  }

  function UpdateKeycloakStatus(c: Cluster, q: Key, seen: Keycloak, ready: bool): Outcome<()> {
    if q !in c.keycloaks || c.keycloaks[q].rv != seen.rv then Rejected
    else Done(StoreKeycloak(c, q, c.keycloaks[q].(ready := ready)), ())
  }

  /** Creates the Secret when none was seen, and replaces the one that was seen otherwise; returns
      the new version. */
  function WriteSecret(c: Cluster, key: Key, seen: Option<nat>, labels: Labels, data: map<string,
      string>): Outcome<nat> {
    if (if seen.None? then key in c.secrets else key !in c.secrets || c.secrets[key].rv != seen.value) then Rejected
    else Done(StoreSecret(c, key, labels, data), c.rv + 1)
  }

  function DeleteSecret(c: Cluster, key: Key): Outcome<()> {
    if key !in c.secrets then Rejected else Done(DropSecret(c, key), ())
  }

  /** Names are unique: creation fails while any Job, even a terminating one, holds the name. */
  function CreateJob(c: Cluster, key: Key, labels: Labels): Outcome<()> {
    if key in c.jobs then Rejected else Done(StoreJob(c, key, Job(0, labels, [], false)), ())
  }

  /** Foreground deletion marks the Job; it keeps its name until it is collected. */
  function DeleteJob(c: Cluster, key: Key): Outcome<()> {
    if key !in c.jobs then Rejected
    else if c.jobs[key].terminating then Done(c, ())
    else Done(StoreJob(c, key, c.jobs[key].(terminating := true)), ())
  }

  /** A new StatefulSet has no template annotations and no replicas yet. */
  function CreateSet(c: Cluster, q: Key, workload: Workload): Outcome<StatefulSet> {
    if q in c.sets then Rejected
    else
      var created := StatefulSet(c.rv + 1, c.rv + 1, map[], workload, 0, 0);
      Done(StoreSet(c, q, created), created)
  }

  /** Replaces annotations and workload of the StatefulSet that was read. */
  function UpdateSet(c: Cluster, q: Key, seen: StatefulSet, annotations: map<string, nat>,
      workload: Workload): Outcome<StatefulSet> {
    if q !in c.sets || c.sets[q].rv != seen.rv then Rejected
    else
      var updated := c.sets[q].(rv := c.rv + 1, annotations := annotations, workload := workload);
      Done(StoreSet(c, q, updated), updated)
  }
}
