/** The first steps of a Keycloak and of an import, from the empty cluster on, and two reports that come
    too early on the way. */
module FirstSteps {
  import opened Names
  import opened Cluster
  import opened Passes
  import opened RealmDocument
  import opened System
  import opened Coherence
  import opened Isolation
  import opened QuietPasses
  import opened Convergence
  import opened Schedules

  /** A Keycloak is created and its controller makes one undisturbed pass. */
  function KeycloakUp(q: Key, host: string): seq<Action> {
    [PutKeycloak(q, 0), BeginKeycloakPass(q, host, false), StepKeycloakPass(q, false, false),
     StepKeycloakPass(q, false, false), StepKeycloakPass(q, false, false)]
  }

  function UpCluster(q: Key, host: string): Cluster {
    Cluster(3, map[], map[q := Keycloak(3, 0, true)], map[], map[],
            map[q := StatefulSet(2, 2, map[], Workload(0, host), 0, 0)])
  }

  /** A freshly created StatefulSet counts as ready: the Keycloak is reported ready with no pod at all. */
  lemma NewSetCountsAsReady(q: Key, host: string)
    ensures Exec(KeycloakUp(q, host)) == State(UpCluster(q, host), map[], map[])
  {
    var run := KeycloakUp(q, host);
    var c1 := Cluster(1, map[], map[q := Keycloak(1, 0, false)], map[], map[], map[]);
    var kc := Keycloak(1, 0, false);
    var c2 := c1.(rv := 2, sets := map[q := StatefulSet(2, 2, map[], Workload(0, host), 0, 0)]);
    Unfold(run, 1, Initial());
    assert Exec(run[..1]) == State(c1, map[], map[]);
    Unfold(run, 2, Exec(run[..1]));
    assert Exec(run[..2]) == State(c1, map[], map[q := ReadSet(kc, host)]);
    Unfold(run, 3, Exec(run[..2]));
    assert Exec(run[..3]) == State(c1, map[], map[q := WriteSet(kc, None, Workload(0, host))]);
    Unfold(run, 4, Exec(run[..3]));
    assert Exec(run[..4]) == State(c2, map[], map[q := Report(kc, true)]);
    Unfold(run, 5, Exec(run[..4]));
    assert run[..5] == run;
  }

  lemma Unfold(run: seq<Action>, n: nat, s: State)
    requires 0 < n <= |run| && s == Exec(run[..n - 1])
    ensures Exec(run[..n]) == Apply(s, run[n - 1])
  {
    assert run[..n][..n - 1] == run[..n - 1];
  }

  function Empty(q: Key): ImportSpec {
    ImportSpec(q, "", [], false)
  }

  /** The content of the import Secret for the empty template. */
  function EmptyRealm(k: Key): map<string, string> {
    map[RealmFile(k.name) := ""]
  }

  function Start(k: Key, q: Key, host: string): seq<Action> {
    KeycloakUp(q, host) + [CreateImport(k, Empty(q), {})]
  }

  function StartCluster(k: Key, q: Key, host: string): Cluster {
    UpCluster(q, host).(rv := 4, imports := map[k := Import(4, false, {}, Empty(q), Unset)])
  }

  lemma Started(k: Key, q: Key, host: string)
    requires ValidKey(k) && !Reserved(k)
    ensures Exec(Start(k, q, host)) == State(StartCluster(k, q, host), map[], map[])
    ensures Live(Exec(Start(k, q, host)), k, EmptyRealm(k)) && JobRank(StartCluster(k, q, host), k, EmptyRealm(k)) == 3
  {
    NewSetCountsAsReady(q, host);
    var run := Start(k, q, host);
    assert run[..5] == KeycloakUp(q, host) && run[..6] == run;
    Unfold(run, 6, State(UpCluster(q, host), map[], map[]));
    ReachableCoherent(run);
    ReachableSeparate(run);
    EmptyInputs(StartCluster(k, q, host), k, StartCluster(k, q, host).imports[k], q);
  }

  lemma EmptyInputs(c: Cluster, k: Key, cr: Import, q: Key)
    requires cr.spec == Empty(q) && q in c.keycloaks && c.keycloaks[q].ready && q in c.sets
    ensures Inputs(c, k, cr, EmptyRealm(k))
  {
    assert Parse("") == Some([]);
    assert Expand("", map[]) == Some("");
  }

  /** After the first pass: finalizer, Secret at version 6, and a Job for it. */
  function FirstCluster(k: Key, q: Key, host: string): Cluster {
    Cluster(8, map[k := Import(8, false, {RealmImport}, Empty(q), NotReady(WaitForJob))],
            UpCluster(q, host).keycloaks,
            map[Key(q.ns, k.name) := Secret(6, SecretLabels(k), EmptyRealm(k))],
            map[Key(q.ns, JobName(k.name)) := Job(7, JobLabels(k, 6), [], false)],
            UpCluster(q, host).sets)
  }

  /** Spelt out: which Secret and which Job the first pass leaves. */
  lemma FirstArtefactsSpelt(k: Key, q: Key, host: string)
    requires ValidKey(k) && !Reserved(k)
    ensures var c := FirstCluster(k, q, host);
      var owner := map[Owner := Text(k.name), OwnerNamespace := Text(k.ns)];
      && c.secrets == map[Key(q.ns, k.name) :=
           Secret(6, owner[Watched := Text("true")], map[k.name + "-realm.json" := ""])]
      && c.jobs == map[Key(q.ns, k.name + "-import") :=
           Job(7, owner[Classify(k.name + "/" + k.ns) := Version(6)][App := Text("rhbk")], [], false)]
  {
  }

  lemma FirstPass(k: Key, q: Key, host: string)
    requires ValidKey(k) && !Reserved(k)
    ensures QuietPass(StartCluster(k, q, host), k) == FirstCluster(k, q, host)
  {
    Started(k, q, host);
    var c := StartCluster(k, q, host);
    QuietPassForm(c, k, EmptyRealm(k));
    var cr := Import(5, false, {RealmImport}, Empty(q), Unset);
    assert {} + {RealmImport} == {RealmImport} && c.imports[k := cr] == map[k := cr];
    FirstArtefacts(c.(rv := 5, imports := map[k := cr]), k, q, cr, Context(c.keycloaks[q], c.sets[q]));
  }

  lemma FirstArtefacts(c: Cluster, k: Key, q: Key, cr: Import, ctx: Context)
    requires c.rv == 5 && c.imports == map[k := cr] && c.secrets == map[] && c.jobs == map[] && cr.spec.target == q
    ensures SettledVersion(c, k, cr, EmptyRealm(k)) == 6
    ensures AfterSecret(SettledSecret(c, k, cr, EmptyRealm(k)), k, cr, ctx, 6) == Cluster(
      8, map[k := cr.(rv := 8, status := NotReady(WaitForJob))], c.keycloaks,
      map[Key(q.ns, k.name) := Secret(6, SecretLabels(k), EmptyRealm(k))],
      map[Key(q.ns, JobName(k.name)) := Job(7, JobLabels(k, 6), [], false)], c.sets)
  {
    var c1 := c.(rv := 6, secrets := map[Key(q.ns, k.name) := Secret(6, SecretLabels(k), EmptyRealm(k))]);
    assert SettledSecret(c, k, cr, EmptyRealm(k)) == c1;
    var c2 := c1.(rv := 7, jobs := map[Key(q.ns, JobName(k.name)) := Job(7, JobLabels(k, 6), [], false)]);
    assert StoreJob(c1, Key(q.ns, JobName(k.name)), Job(0, JobLabels(k, 6), [], false)) == c2;
    assert c2.imports[k := cr.(rv := 8, status := NotReady(WaitForJob))] ==
        map[k := cr.(rv := 8, status := NotReady(WaitForJob))];
  }

  /** A run that reports an import ready while its Job has not completed and nothing is recorded. */
  lemma ReadyWhileRunning(k: Key, q: Key, host: string) returns (run: seq<Action>)
    requires ValidKey(k) && !Reserved(k)
    ensures var c, key := Exec(run).c, Key(q.ns, JobName(k.name));
      && k in c.imports && c.imports[k].status == Ready
      && key in c.jobs && !IsJobCompleted(c.jobs[key].conditions)
      && q in c.sets && AnnotationKey(k) !in c.sets[q].annotations
  {
    Started(k, q, host);
    FirstPass(k, q, host);
    var s0 := Exec(Start(k, q, host));
    var first := QuietPassIsRun(s0, k);
    var s1 := s0.(c := FirstCluster(k, q, host));
    var second := QuietPassIsRun(s1, k);
    SecondPass(k, q, host);
    run := Start(k, q, host) + (first + second);
    ExecAfter(Start(k, q, host), first + second);
    AfterConcat(s0, first, second);
  }

  lemma SecondPass(k: Key, q: Key, host: string)
    requires ValidKey(k) && !Reserved(k)
    ensures var c := FirstCluster(k, q, host); QuietPass(c, k) == StoreImport(c, k, c.imports[k].(status := Ready))
  {
    var c := FirstCluster(k, q, host);
    EmptyInputs(c, k, c.imports[k], q);
    JobLabelsOwned(k, 6);
    assert JobsClear(c, k, c.imports[k]);
    UnfinishedJobReportedReady(c, k, EmptyRealm(k));
  }
}
