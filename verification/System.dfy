/** Whole runs: both controllers, users, the Job controller and garbage collection, interleaved
    one API call at a time. */
module System {
  import opened Names
  import opened Cluster
  import opened Passes

  /** The cluster and the passes in progress; at most one pass per import and per Keycloak. */
  datatype State = State(c: Cluster, passes: map<Key, Pass>, keycloakPasses: map<Key, KeycloakPass>)

  datatype Action =
    // the two controllers
    | BeginImportPass(k: Key, fault: bool)
    | StepImportPass(k: Key, pick: Key, fault: bool)
    | CrashImportPass(k: Key)
    | BeginKeycloakPass(q: Key, host: string, fault: bool)
    | StepKeycloakPass(q: Key, fault: bool, broken: bool)
    | CrashKeycloakPass(q: Key)
    // users
    | CreateImport(k: Key, spec: ImportSpec, finalizers: set<Finalizer>)
    | EditImport(k: Key, spec: ImportSpec, finalizers: set<Finalizer>)
    | DeleteImport(k: Key)
    | PutKeycloak(q: Key, kcSpec: nat)
    | RemoveKeycloak(q: Key)
    | PutSecret(key: Key, labels: Labels, data: map<string, string>)
    | RemoveSecret(key: Key)
    | PutJob(key: Key, labels: Labels)
    | RemoveJob(key: Key, foreground: bool)
    | RemoveSet(q: Key)
    // the Job and StatefulSet controllers, garbage collection
    | SetJobConditions(key: Key, conditions: seq<JobCondition>)
    | CollectJob(key: Key)
    | SetReplicas(q: Key, replicas: int, readyReplicas: int)
  {
    predicate EditsImport() {
      CreateImport? || EditImport? || DeleteImport?
    }

    /** Steps of a controller, as opposed to its environment. */
    predicate ByController() {
      BeginImportPass? || StepImportPass? || CrashImportPass? ||
      BeginKeycloakPass? || StepKeycloakPass? || CrashKeycloakPass?
    }
  }

  function Initial(): State {
    State(Cluster(0, map[], map[], map[], map[], map[]), map[], map[])
  }

  function WithPass(s: State, k: Key, p: Option<Pass>): map<Key, Pass> {
    if p.None? then s.passes - {k} else s.passes[k := p.value]
  }

  function WithKeycloakPass(s: State, q: Key, p: Option<KeycloakPass>): map<Key, KeycloakPass> {
    if p.None? then s.keycloakPasses - {q} else s.keycloakPasses[q := p.value]
  }

  /** Users may delete, edit and re-create their objects freely, with these exceptions: they leave
      the operator's finalizer alone, and a Secret or Job they write carries an owner label only
      when it replaces a Secret with the same labels. */
  predicate Enabled(s: State, a: Action) {
    match a
    case BeginImportPass(k, fault) => k !in s.passes
    case StepImportPass(k, pick, fault) => k in s.passes
    case CrashImportPass(k) => k in s.passes
    case BeginKeycloakPass(q, host, fault) => q !in s.keycloakPasses
    case StepKeycloakPass(q, fault, broken) => q in s.keycloakPasses
    case CrashKeycloakPass(q) => q in s.keycloakPasses
    case CreateImport(k, spec, finalizers) => k !in s.c.imports && ValidKey(k)
    case EditImport(k, spec, finalizers) =>
      k in s.c.imports && (RealmImport in s.c.imports[k].finalizers ==> RealmImport in finalizers) &&
      (s.c.imports[k].deleting ==> finalizers <= s.c.imports[k].finalizers)
    case DeleteImport(k) => k in s.c.imports
    case PutKeycloak(q, kcSpec) => true
    case RemoveKeycloak(q) => q in s.c.keycloaks
    case PutSecret(key, labels, data) =>
      Owner !in labels || (key in s.c.secrets && s.c.secrets[key].labels == labels)
    case RemoveSecret(key) => key in s.c.secrets
    case PutJob(key, labels) => key !in s.c.jobs && Owner !in labels
    case RemoveJob(key, foreground) => key in s.c.jobs
    case RemoveSet(q) => q in s.c.sets
    case SetJobConditions(key, conditions) =>
      key in s.c.jobs && (IsJobCompleted(s.c.jobs[key].conditions) ==> IsJobCompleted(conditions))
    case CollectJob(key) => key in s.c.jobs && s.c.jobs[key].terminating
    case SetReplicas(q, replicas, readyReplicas) => q in s.c.sets
  }

  /** A user writes an import. */
  function ImportEdited(c: Cluster, a: Action): Cluster {
    match a
    case CreateImport(k, spec, finalizers) => StoreImport(c, k, Import(0, false, finalizers, spec, Unset))
    case EditImport(k, spec, finalizers) =>
      if k !in c.imports then c
      else if c.imports[k].deleting && finalizers == {} then DropImport(c, k)
      else StoreImport(c, k, c.imports[k].(spec := spec, finalizers := finalizers))
    case DeleteImport(k) =>
      if k !in c.imports || c.imports[k].deleting then c
      else if c.imports[k].finalizers == {} then DropImport(c, k)
      else StoreImport(c, k, c.imports[k].(deleting := true))
    case _ => c
  }

  /** A user or a cluster controller writes any other object. */
  function ObjectEdited(c: Cluster, a: Action): Cluster {
    match a
    case PutKeycloak(q, kcSpec) =>
      StoreKeycloak(c, q, Keycloak(0, kcSpec, q in c.keycloaks && c.keycloaks[q].ready))
    case RemoveKeycloak(q) => DropKeycloak(c, q)
    case PutSecret(key, labels, data) => StoreSecret(c, key, labels, data)
    case RemoveSecret(key) => DropSecret(c, key)
    case PutJob(key, labels) => StoreJob(c, key, Job(0, labels, [], false))
    case RemoveJob(key, foreground) =>
      if key !in c.jobs then c
      else if foreground then StoreJob(c, key, c.jobs[key].(terminating := true))
      else DropJob(c, key)
    case RemoveSet(q) => DropSet(c, q)
    case SetJobConditions(key, conditions) =>
      if key !in c.jobs then c else StoreJob(c, key, c.jobs[key].(conditions := conditions))
    case CollectJob(key) => DropJob(c, key)
    case SetReplicas(q, replicas, readyReplicas) =>
      if q !in c.sets then c
      else StoreSet(c, q, c.sets[q].(replicas := replicas, readyReplicas := readyReplicas))
    case _ => c
  }

  /** The cluster after an action that is not a step of a controller. */
  function Environment(c: Cluster, a: Action): Cluster {
    if a.EditsImport() then ImportEdited(c, a) else ObjectEdited(c, a)
  }

  /** One step of the whole system; an action that is not enabled does nothing. */
  function Apply(s: State, a: Action): State {
    if !Enabled(s, a) then s
    else
      match a
      case BeginImportPass(k, fault) => s.(passes := WithPass(s, k, BeginImport(s.c, k, fault)))
      case StepImportPass(k, pick, fault) =>
        var n := StepImport(s.c, k, s.passes[k], pick, fault);
        s.(c := n.cluster, passes := WithPass(s, k, n.pass))
      case CrashImportPass(k) => s.(passes := s.passes - {k})
      case BeginKeycloakPass(q, host, fault) =>
        s.(keycloakPasses := WithKeycloakPass(s, q, BeginKeycloak(s.c, q, host, fault)))
      case StepKeycloakPass(q, fault, broken) =>
        var n := StepKeycloak(s.c, q, s.keycloakPasses[q], fault, broken);
        s.(c := n.cluster, keycloakPasses := WithKeycloakPass(s, q, n.pass))
      case CrashKeycloakPass(q) => s.(keycloakPasses := s.keycloakPasses - {q})
      case _ => s.(c := Environment(s.c, a))
  }

  /** The state after a run from the empty cluster. Every reachable state is `Exec(run)` for some run. */
  function Exec(run: seq<Action>): State {
    if run == [] then Initial() else Apply(Exec(run[..|run| - 1]), run[|run| - 1])
  }

  /** An action of a user or of a cluster controller touches one kind of object only. */
  lemma ObjectTouches(c: Cluster, a: Action)
    ensures var c' := ObjectEdited(c, a);
      && c'.imports == c.imports && c.rv <= c'.rv
      && (!a.PutSecret? && !a.RemoveSecret? ==> c'.secrets == c.secrets)
      && (!a.RemoveSet? && !a.SetReplicas? ==> c'.sets == c.sets)
  {
  }

  /** Begins, steps or kills the pass of `k`. */
  predicate OfPass(a: Action, k: Key) {
    (a.BeginImportPass? || a.StepImportPass? || a.CrashImportPass?) && a.k == k
  }

  /** Only its own steps move a pass; a pass that has just begun holds nothing but the import. */
  lemma PassFrame(s: State, a: Action, k: Key)
    requires !(a.StepImportPass? && a.k == k)
    ensures var s' := Apply(s, a);
            k in s'.passes ==>
              (k in s.passes && s'.passes[k] == s.passes[k]) ||
              (k !in s.passes && k in s.c.imports && s'.c == s.c && s'.passes[k].cr == s.c.imports[k] &&
               (s'.passes[k].stage.CleanListJobs? || s'.passes[k].stage.AddFinalizer? ||
                   s'.passes[k].stage.FetchKeycloak?))
  {
  }
}
