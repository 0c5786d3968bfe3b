/** An import that is moved to another namespace while it is being deleted gets a second Job for one
    version of its Secret. */
module MovedImports {
  import opened Names
  import opened Cluster
  import opened Passes
  import opened System
  import opened Coherence
  import opened Once
  import opened QuietPasses
  import opened Deletions
  import opened Convergence
  import opened Schedules
  import opened FirstSteps

  // Editing the target namespace of an import that is being deleted.

  /** No outside deletion of a Job, and no pass of another import. */
  predicate Civil(a: Action, k: Key) {
    !a.RemoveJob? && (a.StepImportPass? ==> a.k == k)
  }

  /** The user deletes the import; the deletion pass marks the Job and crashes before the Secrets; the
      user moves the import to another namespace. */
  function Move(k: Key, q: Key, elsewhere: string): seq<Action> {
    [DeleteImport(k), BeginImportPass(k, false), StepImportPass(k, k, false),
     StepImportPass(k, Key(q.ns, JobName(k.name)), false), CrashImportPass(k),
     EditImport(k, Empty(q).(target := Key(elsewhere, q.name)), {RealmImport})]
  }

  function MovedCluster(k: Key, q: Key, host: string, elsewhere: string): Cluster {
    FirstCluster(k, q, host).(
      rv := 11,
      imports := map[k := Import(11, true, {RealmImport}, Empty(q).(target := Key(elsewhere, q.name)),
          NotReady(WaitForJob))],
      jobs := map[Key(q.ns, JobName(k.name)) := Job(10, JobLabels(k, 6), [], true)])
  }

  /** The cluster once the Job is marked. */
  function MarkedCluster(k: Key, q: Key, host: string): Cluster {
    FirstCluster(k, q, host).(
      rv := 10,
      imports := map[k := Import(9, true, {RealmImport}, Empty(q), NotReady(WaitForJob))],
      jobs := map[Key(q.ns, JobName(k.name)) := Job(10, JobLabels(k, 6), [], true)])
  }

  /** The cluster once the import is being deleted. */
  function DoomedCluster(k: Key, q: Key, host: string): Cluster {
    FirstCluster(k, q, host).(
      rv := 9,
      imports := map[k := Import(9, true, {RealmImport}, Empty(q), NotReady(WaitForJob))])
  }

  lemma JobListed(k: Key, q: Key, host: string)
    requires ValidKey(k) && !Reserved(k)
    ensures var c, key := DoomedCluster(k, q, host), Key(q.ns, JobName(k.name));
      OwnedJobs(c, k, c.imports[k]) == {key} && DeleteJob(c, key) == Done(MarkedCluster(k, q, host), ())
  {
    JobLabelsOwned(k, 6);
  }

  lemma Marked(k: Key, q: Key, host: string) returns (s4: State)
    requires ValidKey(k) && !Reserved(k)
    ensures s4.c == MarkedCluster(k, q, host) && s4.passes.Keys == {k} && s4.keycloakPasses == map[]
    ensures After(State(FirstCluster(k, q, host), map[], map[]), Move(k, q, "")[..4]) == s4
  {
    var s2 := Doomed(k, q, host);
    s4 := Listing(k, q, host, s2);
    FourSteps(State(FirstCluster(k, q, host), map[], map[]), Move(k, q, "")[..4]);
  }

  lemma Doomed(k: Key, q: Key, host: string) returns (s2: State)
    requires ValidKey(k)
    ensures s2 ==
      Apply(Apply(State(FirstCluster(k, q, host), map[], map[]), DeleteImport(k)), BeginImportPass(k, false))
    ensures var c := DoomedCluster(k, q, host); s2 == State(c, map[k := Pass(c.imports[k], CleanListJobs)], map[])
  {
    var c := DoomedCluster(k, q, host);
    var s1 := State(c, map[], map[]);
    assert Apply(State(FirstCluster(k, q, host), map[], map[]), DeleteImport(k)) == s1;
    s2 := s1.(passes := map[k := Pass(c.imports[k], CleanListJobs)]);
    assert Apply(s1, BeginImportPass(k, false)) == s2;
  }

  lemma Listing(k: Key, q: Key, host: string, s2: State) returns (s4: State)
    requires ValidKey(k) && !Reserved(k)
    requires var c := DoomedCluster(k, q, host); s2 == State(c, map[k := Pass(c.imports[k], CleanListJobs)], map[])
    ensures s4.c == MarkedCluster(k, q, host) && s4.passes.Keys == {k} && s4.keycloakPasses == map[]
    ensures s4 == Apply(Apply(s2, StepImportPass(k, k, false)), StepImportPass(k, Key(q.ns, JobName(k.name)), false))
  {
    JobListed(k, q, host);
    var key, cr := Key(q.ns, JobName(k.name)), s2.passes[k].cr;
    var s3 := s2.(passes := map[k := Pass(cr, CleanJobs({key}))]);
    assert Apply(s2, StepImportPass(k, k, false)) == s3;
    assert {key} - {key} == {};
    s4 := State(MarkedCluster(k, q, host), map[k := Pass(cr, CleanListSecrets)], map[]);
    assert Apply(s3, StepImportPass(k, key, false)) == s4;
  }

  lemma FourSteps(s: State, acts: seq<Action>)
    requires |acts| == 4
    ensures After(s, acts) == Apply(Apply(Apply(Apply(s, acts[0]), acts[1]), acts[2]), acts[3])
  {
    TwoSteps(s, acts[..2]);
    TwoSteps(Apply(Apply(s, acts[0]), acts[1]), acts[2..]);
    assert acts == acts[..2] + acts[2..];
    AfterConcat(s, acts[..2], acts[2..]);
  }

  lemma TwoSteps(s: State, acts: seq<Action>)
    requires |acts| == 2
    ensures After(s, acts) == Apply(Apply(s, acts[0]), acts[1])
  {
    assert acts[1..][0] == acts[1] && acts[1..][1..] == [];
    assert After(Apply(s, acts[0]), acts[1..]) == Apply(Apply(s, acts[0]), acts[1]);
  }

  lemma Moved(k: Key, q: Key, host: string, elsewhere: string)
    requires ValidKey(k) && !Reserved(k)
    ensures After(State(FirstCluster(k, q, host), map[], map[]), Move(k, q, elsewhere))
         == State(MovedCluster(k, q, host, elsewhere), map[], map[])
  {
    var s0, acts := State(FirstCluster(k, q, host), map[], map[]), Move(k, q, elsewhere);
    var s4 := Marked(k, q, host);
    assert acts[..4] == Move(k, q, "")[..4] && acts == acts[..4] + acts[4..];
    AfterConcat(s0, acts[..4], acts[4..]);
    TwoSteps(s4, acts[4..]);
    CrashedAndMoved(s4, k, q, host, elsewhere);
  }

  lemma CrashedAndMoved(s: State, k: Key, q: Key, host: string, elsewhere: string)
    requires s.c == MarkedCluster(k, q, host) && s.passes.Keys == {k} && s.keycloakPasses == map[]
    ensures var acts := Move(k, q, elsewhere);
      Apply(Apply(s, acts[4]), acts[5]) == State(MovedCluster(k, q, host, elsewhere), map[], map[])
  {
    var s5 := State(MarkedCluster(k, q, host), map[], map[]);
    assert Apply(s, CrashImportPass(k)) == s5;
  }

  /** The next deletion pass looks elsewhere, and lets the import go. */
  lemma Forgotten(k: Key, q: Key, host: string, elsewhere: string)
    requires elsewhere != q.ns
    ensures var c, c' := MovedCluster(k, q, host, elsewhere), QuietPass(MovedCluster(k, q, host, elsewhere), k);
      && k !in c'.imports && c'.keycloaks == c.keycloaks && c'.sets == c.sets
      && Key(q.ns, k.name) in c'.secrets && c'.secrets[Key(q.ns, k.name)] == c.secrets[Key(q.ns, k.name)]
      && c'.jobs == c.jobs
  {
    var c, key := MovedCluster(k, q, host, elsewhere), Key(q.ns, JobName(k.name));
    DeletionCompletes(c, k);
    OldNamespaceIsForgotten(c, k, Key(q.ns, k.name));
    OldNamespaceIsForgotten(c, k, key);
    assert QuietPass(c, k).jobs == map[key := c.jobs[key]];
  }

  /** The Job is collected and the import is created again, where it was. */
  function Return(k: Key, q: Key): seq<Action> {
    [CollectJob(Key(q.ns, JobName(k.name))), CreateImport(k, Empty(q), {})]
  }

  lemma Returned(s: State, k: Key, q: Key) returns (c: Cluster)
    requires Coherent(s) && ValidKey(k) && !Reserved(k) && LeftBehind(s, k, q)
    ensures After(s, Return(k, q)) == s.(c := c) && c.jobs == map[]
    ensures Settled(c, k, EmptyRealm(k)) && SecretFresh(c, k, c.imports[k], EmptyRealm(k))
    ensures c.imports[k].spec == Empty(q) && c.secrets == s.c.secrets
  {
    c := ReturnedCluster(s.c, k, q);
    ReturnSteps(s, k, q);
    assert 6 <= s.c.rv;
    SettledAgain(c, k, q);
  }

  function ReturnedCluster(c: Cluster, k: Key, q: Key): Cluster {
    StoreImport(DropJob(c, Key(q.ns, JobName(k.name))), k, Import(0, false, {}, Empty(q), Unset))
  }

  lemma ReturnSteps(s: State, k: Key, q: Key)
    requires ValidKey(k) && LeftBehind(s, k, q)
    ensures After(s, Return(k, q)) == s.(c := ReturnedCluster(s.c, k, q))
  {
    TwoSteps(s, Return(k, q));
    CollectStep(s, Key(q.ns, JobName(k.name)));
    CreateStep(s.(c := DropJob(s.c, Key(q.ns, JobName(k.name)))), k, Empty(q));
  }

  lemma CollectStep(s: State, key: Key)
    requires key in s.c.jobs && s.c.jobs[key].terminating
    ensures Apply(s, CollectJob(key)) == s.(c := DropJob(s.c, key))
  {
  }

  lemma CreateStep(s: State, k: Key, spec: ImportSpec)
    requires ValidKey(k) && k !in s.c.imports
    ensures Apply(s, CreateImport(k, spec, {})) == s.(c := StoreImport(s.c, k, Import(0, false, {}, spec, Unset)))
  {
  }

  lemma SettledAgain(c: Cluster, k: Key, q: Key)
    requires ValidKey(k) && !Reserved(k) && k in c.imports && !c.imports[k].deleting && c.imports[k].spec == Empty(q)
    requires q in c.keycloaks && c.keycloaks[q].ready && q in c.sets && c.jobs == map[] && 6 <= c.rv
    requires Key(q.ns, k.name) in c.secrets && c.secrets[Key(q.ns, k.name)] == Secret(6, SecretLabels(k), EmptyRealm(k))
    ensures Settled(c, k, EmptyRealm(k)) && SecretFresh(c, k, c.imports[k], EmptyRealm(k))
  {
    EmptyInputs(c, k, c.imports[k], q);
  }

  lemma CreatedAgain(c: Cluster, k: Key, q: Key)
    requires Settled(c, k, EmptyRealm(k)) && SecretFresh(c, k, c.imports[k], EmptyRealm(k)) && c.jobs == map[]
    requires c.imports[k].spec == Empty(q) && c.secrets[Key(q.ns, k.name)].rv == 6
    ensures Holds(QuietPass(c, k), k, q.ns, 6)
  {
    QuietPassForm(c, k, EmptyRealm(k));
    JobLabelsOwned(k, 6);
  }

  predicate CivilRun(run: seq<Action>, k: Key) {
    forall i :: 0 <= i < |run| ==> Civil(run[i], k)
  }

  lemma PassIsCivil(pass: seq<Action>, k: Key)
    requires forall a :: a in pass ==> OfPass(a, k)
    ensures CivilRun(pass, k)
  {
    forall i | 0 <= i < |pass| ensures Civil(pass[i], k) {
      assert pass[i] in pass;
    }
  }

  lemma CivilConcat(a: seq<Action>, b: seq<Action>, k: Key)
    requires CivilRun(a, k) && CivilRun(b, k)
    ensures CivilRun(a + b, k)
  {
  }

  /** A run up to the first Job. */
  lemma FirstJob(k: Key, q: Key, host: string) returns (run: seq<Action>)
    requires ValidKey(k) && !Reserved(k)
    ensures Exec(run) == State(FirstCluster(k, q, host), map[], map[]) && CivilRun(run, k)
  {
    Started(k, q, host);
    FirstPass(k, q, host);
    var start := Start(k, q, host);
    var pass := QuietPassIsRun(State(StartCluster(k, q, host), map[], map[]), k);
    ExecAfter(start, pass);
    PassIsCivil(pass, k);
    StartIsCivil(k, q, host);
    CivilConcat(start, pass, k);
    run := start + pass;
  }

  lemma StartIsCivil(k: Key, q: Key, host: string)
    ensures CivilRun(Start(k, q, host), k)
  {
  }

  lemma MoveIsCivil(k: Key, q: Key, elsewhere: string)
    ensures CivilRun(Move(k, q, elsewhere), k)
  {
  }

  /** What is left when the import has been moved away and has gone. */
  ghost predicate LeftBehind(s: State, k: Key, q: Key) {
    && k !in s.c.imports && s.passes == map[] && q in s.c.keycloaks && s.c.keycloaks[q].ready && q in s.c.sets
    && Key(q.ns, k.name) in s.c.secrets && s.c.secrets[Key(q.ns, k.name)] == Secret(6, SecretLabels(k), EmptyRealm(k))
    && s.c.jobs.Keys == {Key(q.ns, JobName(k.name))} && s.c.jobs[Key(q.ns, JobName(k.name))].terminating
  }

  lemma MovedAway(run: seq<Action>, k: Key, q: Key, host: string, elsewhere: string) returns (more: seq<Action>)
    requires ValidKey(k) && !Reserved(k) && elsewhere != q.ns
    requires Exec(run) == State(FirstCluster(k, q, host), map[], map[])
    ensures LeftBehind(Exec(run + more), k, q) && CivilRun(more, k)
  {
    Moved(k, q, host, elsewhere);
    var s2 := State(MovedCluster(k, q, host, elsewhere), map[], map[]);
    var pass := QuietPassIsRun(s2, k);
    Forgotten(k, q, host, elsewhere);
    AfterConcat(Exec(run), Move(k, q, elsewhere), pass);
    more := Move(k, q, elsewhere) + pass;
    ExecAfter(run, more);
    PassIsCivil(pass, k);
    MoveIsCivil(k, q, elsewhere);
    CivilConcat(Move(k, q, elsewhere), pass, k);
  }

  /** Back again: the Job is gone, and the next pass creates it for the same version. */
  lemma BackAgain(run: seq<Action>, k: Key, q: Key) returns (pass: seq<Action>)
    requires ValidKey(k) && !Reserved(k) && LeftBehind(Exec(run), k, q)
    ensures !Holds(Exec(run + Return(k, q)).c, k, q.ns, 6)
    ensures Holds(Exec(run + Return(k, q) + pass).c, k, q.ns, 6) && CivilRun(pass, k)
  {
    ReachableCoherent(run);
    var s := Exec(run);
    var c := Returned(s, k, q);
    ExecAfter(run, Return(k, q));
    assert Exec(run + Return(k, q)) == s.(c := c);
    pass := QuietPassIsRun(s.(c := c), k);
    PassIsCivil(pass, k);
    CreatedAgain(c, k, q);
    ExecAfter(run + Return(k, q), pass);
  }

  /** At most one Job per version does need the target namespace to stay while the import is being
      deleted. In this run nobody deletes a Job and no other import is around, and still version 6 of
      the Secret gets a Job, loses it, and gets another one. */
  lemma SecondJobForOneVersion(k: Key, q: Key, host: string, elsewhere: string)
    returns (run: seq<Action>, first: nat, gone: nat)
    requires ValidKey(k) && !Reserved(k) && elsewhere != q.ns
    ensures first <= gone <= |run| && CivilRun(run, k)
    ensures Holds(Exec(run[..first]).c, k, q.ns, 6) && !Holds(Exec(run[..gone]).c, k, q.ns, 6) &&
      Holds(Exec(run).c, k, q.ns, 6)
  {
    var upTo := FirstJob(k, q, host);
    FirstHolds(k, q, host);
    var more := MovedAway(upTo, k, q, host, elsewhere);
    var pass := BackAgain(upTo + more, k, q);
    var back := upTo + more + Return(k, q);
    first, gone, run := |upTo|, |back|, back + pass;
    assert run[..first] == upTo && run[..gone] == back;
    CivilConcat(upTo, more, k);
    CivilConcat(upTo + more, Return(k, q), k);
    CivilConcat(back, pass, k);
  }

  lemma FirstHolds(k: Key, q: Key, host: string)
    requires ValidKey(k) && !Reserved(k)
    ensures Holds(FirstCluster(k, q, host), k, q.ns, 6)
  {
    JobLabelsOwned(k, 6);
  }
}
