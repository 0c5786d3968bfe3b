/** Convergence over whole schedules: while inputs stay fixed, passes run through and Jobs succeed,
    every fair schedule brings an import to its final state, whatever everybody else does in between. */
module Schedules {
  import opened Names
  import opened Cluster
  import opened Passes
  import opened System
  import opened QuietPasses
  import opened Coherence
  import opened Rollouts
  import opened Isolation
  import opened Once
  import opened Convergence

  // Runs from a given state.

  lemma {:induction false} ExecAfter(run: seq<Action>, more: seq<Action>)
    ensures Exec(run + more) == After(Exec(run), more)
    decreases |more|
  {
    if more == [] {
      assert run + more == run;
    } else {
      assert run + more == run + [more[0]] + more[1..];
      assert (run + [more[0]])[..|run|] == run;
      ExecAfter(run + [more[0]], more[1..]);
    }
  }

  lemma {:induction false} AfterConcat(s: State, a: seq<Action>, b: seq<Action>)
    ensures After(s, a + b) == After(After(s, a), b)
    decreases |a|
  {
    if a == [] {
      assert a + b == b;
    } else {
      assert (a + b)[0] == a[0] && (a + b)[1..] == a[1..] + b;
      AfterConcat(Apply(s, a[0]), a[1..], b);
    }
  }

  lemma {:induction false} AfterKeeps(s: State, actions: seq<Action>)
    requires Coherent(s) && Separate(s)
    ensures Coherent(After(s, actions)) && Separate(After(s, actions))
    decreases |actions|
  {
    if actions != [] {
      CoherentStep(s, actions[0]);
      SeparateStep(s, actions[0]);
      AfterKeeps(Apply(s, actions[0]), actions[1..]);
    }
  }

  /** A whole undisturbed pass is a run: begin, then step until it is over. */
  lemma QuietPassIsRun(s: State, k: Key) returns (actions: seq<Action>)
    requires k !in s.passes
    ensures After(s, actions) == s.(c := QuietPass(s.c, k))
    ensures forall a :: a in actions ==> OfPass(a, k)
  {
    var begin := BeginImportPass(k, false);
    var s1 := Apply(s, begin);
    assert s.passes - {k} == s.passes;
    if k in s1.passes {
      var rest := RunPassIsRun(s1, k);
      actions := [begin] + rest;
      assert s1.passes - {k} == s.passes;
    } else {
      actions := [begin];
      assert After(s1, []) == s1;
    }
  }

  // Schedules.

  /** The base invariants hold and no pass of the import is under way. */
  ghost predicate Idle(s: State, k: Key) {
    Coherent(s) && Separate(s) && k !in s.passes
  }

  /** The import is settled, too. */
  ghost predicate Live(s: State, k: Key, data: map<string, string>) {
    Idle(s, k) && Settled(s.c, k, data)
  }

  lemma StaysIdle(s: State, a: Action, k: Key)
    requires Idle(s, k) && !OfPass(a, k)
    ensures Idle(Apply(s, a), k)
  {
    CoherentStep(s, a);
    SeparateStep(s, a);
    PassFrame(s, a, k);
  }

  /** A whole pass, the collection of a terminating Job, the success of a running one, or any single
      action of somebody else. */
  datatype Round = PassRound | CollectRound | CompleteRound | OthersRound(a: Action)

  /** An action of somebody else that leaves the import, its Secret and its Job to the import, and its
      inputs as they are. Every step of the Keycloak controller and of the passes of other imports
      qualifies as long as the inputs stay, unless the import has the same name and target namespace. */
  ghost predicate Bystander(s: State, a: Action, k: Key, data: map<string, string>)
    requires k in s.c.imports
  {
    var cr := s.c.imports[k];
    && !OfPass(a, k) && !(a.EditsImport() && a.k == k) && NoRival(s, a, k, cr.spec.target.ns)
    && (a.PutSecret? || a.RemoveSecret? ==> a.key != SecretKey(k, cr))
    && (a.PutJob? || a.RemoveJob? || a.SetJobConditions? || a.CollectJob? ==> a.key != JobKey(k, cr))
    && Inputs(Apply(s, a).c, k, cr, data)
  }

  /** A terminating Job is collected. */
  ghost function Collected(c: Cluster, k: Key): Cluster
    requires k in c.imports
  {
    var key := JobKey(k, c.imports[k]);
    if key in c.jobs && c.jobs[key].terminating then DropJob(c, key) else c
  }

  /** A running Job succeeds; a failed one stays failed. */
  ghost function Succeeded(c: Cluster, k: Key): Cluster
    requires k in c.imports
  {
    var key := JobKey(k, c.imports[k]);
    if key !in c.jobs || IsJobCompleted(c.jobs[key].conditions) || IsJobFailed(c.jobs[key].conditions) then c
    else StoreJob(c, key, c.jobs[key].(conditions := [JobCondition(Complete, true)]))
  }

  ghost function Play(s: State, k: Key, data: map<string, string>, r: Round): State
    requires k in s.c.imports
  {
    match r
    case PassRound => s.(c := QuietPass(s.c, k))
    case CollectRound => s.(c := Collected(s.c, k))
    case CompleteRound => s.(c := Succeeded(s.c, k))
    case OthersRound(a) => if Bystander(s, a, k, data) then Apply(s, a) else s
  }

  /** Not even a round turns a failed Job into a success. */
  lemma FailedStays(c: Cluster, k: Key)
    requires k in c.imports && JobKey(k, c.imports[k]) in c.jobs
    requires JobCondition(Failed, true) in c.jobs[JobKey(k, c.imports[k])].conditions
    ensures Succeeded(c, k) == c
  {
  }

  /** Both are single steps of the system. */
  lemma JobRoundIsStep(s: State, k: Key)
    requires k in s.c.imports
    ensures var key := JobKey(k, s.c.imports[k]);
      && Apply(s, CollectJob(key)) == s.(c := Collected(s.c, k))
      && (Succeeded(s.c, k) != s.c ==>
            Apply(s, SetJobConditions(key, [JobCondition(Complete, true)])) == s.(c := Succeeded(s.c, k)))
  {
  }

  /** The round an unfinished import is waiting for. */
  ghost function Awaited(c: Cluster, k: Key, data: map<string, string>): Round
    requires Settled(c, k, data)
  {
    if !Finalized(c, k) || !SecretFresh(c, k, c.imports[k], data) then PassRound
    else match JobRank(c, k, data)
      case 4 => CollectRound
      case 2 => CompleteRound
      case _ => PassRound
  }

  // What bystanders leave alone.

  /** The import, its Secret and its Job are as they were, and so is what is recorded for it. */
  ghost predicate Same(c: Cluster, c': Cluster, k: Key)
    requires k in c.imports
  {
    var cr := c.imports[k];
    && c.rv <= c'.rv && k in c'.imports && c'.imports[k] == cr
    && (SecretKey(k, cr) in c'.secrets <==> SecretKey(k, cr) in c.secrets)
    && (SecretKey(k, cr) in c.secrets ==> c'.secrets[SecretKey(k, cr)] == c.secrets[SecretKey(k, cr)])
    && (JobKey(k, cr) in c'.jobs <==> JobKey(k, cr) in c.jobs)
    && (JobKey(k, cr) in c.jobs ==> c'.jobs[JobKey(k, cr)] == c.jobs[JobKey(k, cr)])
  }

  lemma ForeignSame(c: Cluster, j: Key, p: Pass, pick: Key, fault: bool, k: Key)
    requires StoreOk(c) && PassOk(c, j, p) && Named(c) && Targets(j, p) && k in c.imports && j != k
    requires j.name == k.name ==> p.cr.spec.target.ns != c.imports[k].spec.target.ns
    ensures Same(c, StepImport(c, j, p, pick, fault).cluster, k)
  {
    ImportStep(c, j, p, pick, fault);
    StepConfined(c, j, p, pick, fault);
    JobNameInjective(j.name, k.name);
  }

  lemma ImportEditedSame(c: Cluster, a: Action, k: Key)
    requires k in c.imports && a.EditsImport() && a.k != k
    ensures Same(c, ImportEdited(c, a), k)
  {
    var c' := ImportEdited(c, a);
    assert c' == c || c' == DropImport(c, a.k) || (a.k in c'.imports && c' == StoreImport(c, a.k, c'.imports[a.k]));
  }

  lemma ObjectEditedSame(c: Cluster, a: Action, k: Key)
    requires k in c.imports
    requires a.PutSecret? || a.RemoveSecret? ==> a.key != SecretKey(k, c.imports[k])
    requires a.PutJob? || a.RemoveJob? || a.SetJobConditions? || a.CollectJob? ==> a.key != JobKey(k, c.imports[k])
    ensures Same(c, ObjectEdited(c, a), k)
  {
    assert ObjectEdited(c, a).imports == c.imports;
  }

  lemma KeycloakSame(c: Cluster, q: Key, p: KeycloakPass, fault: bool, broken: bool, k: Key)
    requires k in c.imports
    ensures Same(c, StepKeycloak(c, q, p, fault, broken).cluster, k)
  {
    KeycloakFrame(c, q, p, fault, broken);
  }

  lemma EnvironmentSame(c: Cluster, a: Action, k: Key)
    requires k in c.imports && !a.ByController() && !(a.EditsImport() && a.k == k)
    requires a.PutSecret? || a.RemoveSecret? ==> a.key != SecretKey(k, c.imports[k])
    requires a.PutJob? || a.RemoveJob? || a.SetJobConditions? || a.CollectJob? ==> a.key != JobKey(k, c.imports[k])
    ensures Same(c, Environment(c, a), k)
  {
    if a.EditsImport() { ImportEditedSame(c, a, k); } else { ObjectEditedSame(c, a, k); }
  }

  lemma StepSame(s: State, a: Action, k: Key)
    requires Coherent(s) && Separate(s) && k in s.c.imports && a.StepImportPass? && a.k in s.passes && a.k != k
    requires NoRival(s, a, k, s.c.imports[k].spec.target.ns)
    ensures Same(s.c, StepImport(s.c, a.k, s.passes[a.k], a.pick, a.fault).cluster, k)
  {
    ForeignSame(s.c, a.k, s.passes[a.k], a.pick, a.fault, k);
  }

  lemma BystanderSame(s: State, a: Action, k: Key, data: map<string, string>)
    requires Coherent(s) && Separate(s) && k in s.c.imports && Bystander(s, a, k, data)
    ensures Same(s.c, Apply(s, a).c, k)
  {
    if Enabled(s, a) {
      if a.StepImportPass? {
        StepSame(s, a, k);
      } else if a.StepKeycloakPass? {
        KeycloakSame(s.c, a.q, s.keycloakPasses[a.q], a.fault, a.broken, k);
      } else if !a.ByController() {
        EnvironmentSame(s.c, a, k);
      }
    }
  }

  ghost predicate SameRecord(c: Cluster, c': Cluster, k: Key, q: Key) {
    q in c.sets && q in c'.sets && SameAnnotation(c.sets[q], c'.sets[q], AnnotationKey(k))
  }

  lemma BystanderRecords(s: State, a: Action, k: Key, q: Key)
    requires Coherent(s) && ValidKey(k) && !OfPass(a, k) && q in s.c.sets && q in Apply(s, a).c.sets
    ensures SameRecord(s.c, Apply(s, a).c, k, q)
  {
    StepUnrecorded(s, a, k);
    assert Recorded(s.c, q, k) <==> Recorded(Apply(s, a).c, q, k);
  }

  lemma SameSettled(c: Cluster, c': Cluster, k: Key, data: map<string, string>)
    requires Settled(c, k, data) && Same(c, c', k) && Named(c') && Inputs(c', k, c.imports[k], data)
    ensures Settled(c', k, data) && (Matching(c', k, data) <==> Matching(c, k, data))
    ensures SecretFresh(c', k, c'.imports[k], data) <==> SecretFresh(c, k, c.imports[k], data)
  {
    assert JobsClear(c', k, c.imports[k]);
  }

  lemma SameRank(c: Cluster, c': Cluster, k: Key, data: map<string, string>)
    requires Settled(c, k, data) && Settled(c', k, data) && Same(c, c', k) &&
      SameRecord(c, c', k, c.imports[k].spec.target)
    requires Matching(c', k, data) <==> Matching(c, k, data)
    requires SecretFresh(c', k, c'.imports[k], data) <==> SecretFresh(c, k, c.imports[k], data)
    ensures Rank(c', k, data) == Rank(c, k, data) && Awaited(c', k, data) == Awaited(c, k, data)
  {
    assert JobRank(c', k, data) == JobRank(c, k, data);
  }

  /** Bystanders leave a settled import as far from its final state as it was. */
  lemma BystanderKeeps(s: State, a: Action, k: Key, data: map<string, string>)
    requires Live(s, k, data) && Bystander(s, a, k, data)
    ensures Live(Apply(s, a), k, data)
    ensures Rank(Apply(s, a).c, k, data) == Rank(s.c, k, data)
    ensures Awaited(Apply(s, a).c, k, data) == Awaited(s.c, k, data)
  {
    StaysIdle(s, a, k);
    BystanderSame(s, a, k, data);
    BystanderRecords(s, a, k, s.c.imports[k].spec.target);
    assert Named(Apply(s, a).c);
    SameSettled(s.c, Apply(s, a).c, k, data);
    SameRank(s.c, Apply(s, a).c, k, data);
  }

  // Progress.

  /** What a round does to the rank: it never rises, the awaited round lowers it, and until then the
      same round is awaited. */
  ghost predicate Progresses(c: Cluster, c': Cluster, k: Key, data: map<string, string>, r: Round)
    requires Settled(c, k, data) && Settled(c', k, data)
  {
    && Rank(c', k, data) <= Rank(c, k, data)
    && (Rank(c, k, data) > 0 && r == Awaited(c, k, data) ==> Rank(c', k, data) < Rank(c, k, data))
    && (Rank(c', k, data) == Rank(c, k, data) ==> Awaited(c', k, data) == Awaited(c, k, data))
  }

  lemma PassProgresses(c: Cluster, k: Key, data: map<string, string>)
    requires Settled(c, k, data)
    ensures Settled(QuietPass(c, k), k, data) && Progresses(c, QuietPass(c, k), k, data, PassRound)
  {
    PassProgress(c, k, data);
  }

  lemma CollectProgresses(c: Cluster, k: Key, data: map<string, string>)
    requires Settled(c, k, data)
    ensures Settled(Collected(c, k), k, data) && Progresses(c, Collected(c, k), k, data, CollectRound)
  {
    if JobKey(k, c.imports[k]) in c.jobs && c.jobs[JobKey(k, c.imports[k])].terminating {
      JobCollected(c, k, data);
    }
  }

  lemma CompleteProgresses(c: Cluster, k: Key, data: map<string, string>)
    requires Settled(c, k, data)
    ensures Settled(Succeeded(c, k), k, data) && Progresses(c, Succeeded(c, k), k, data, CompleteRound)
  {
    var key := JobKey(k, c.imports[k]);
    if key !in c.jobs || IsJobCompleted(c.jobs[key].conditions) || IsJobFailed(c.jobs[key].conditions) {
      NothingToComplete(c, k, data);
    } else {
      JobSucceeds(c, k, data, c.jobs[key].(conditions := [JobCondition(Complete, true)]));
      LessToDo(c, Succeeded(c, k), k, data);
    }
  }

  /** A Job that has completed or failed is not awaited. */
  lemma NothingToComplete(c: Cluster, k: Key, data: map<string, string>)
    requires Settled(c, k, data)
    requires var key := JobKey(k, c.imports[k]);
      key in c.jobs ==> IsJobCompleted(c.jobs[key].conditions) || IsJobFailed(c.jobs[key].conditions)
    ensures Progresses(c, c, k, data, CompleteRound)
  {
  }

  lemma LessToDo(c: Cluster, c': Cluster, k: Key, data: map<string, string>)
    requires Settled(c, k, data) && Settled(c', k, data) && c'.imports == c.imports && c'.secrets == c.secrets
    requires if JobRank(c, k, data) == 2 then JobRank(c', k, data) < 2 else JobRank(c', k, data) == JobRank(c, k, data)
    ensures Progresses(c, c', k, data, CompleteRound)
  {
    assert SecretFresh(c', k, c'.imports[k], data) <==> SecretFresh(c, k, c.imports[k], data);
  }

  lemma PassPlayed(s: State, k: Key, data: map<string, string>)
    requires Live(s, k, data)
    ensures var s' := Play(s, k, data, PassRound); Live(s', k, data) && Progresses(s.c, s'.c, k, data, PassRound)
  {
    var actions := QuietPassIsRun(s, k);
    AfterKeeps(s, actions);
    PassProgresses(s.c, k, data);
  }

  lemma CollectPlayed(s: State, k: Key, data: map<string, string>)
    requires Live(s, k, data)
    ensures var s' := Play(s, k, data, CollectRound); Live(s', k, data) && Progresses(s.c, s'.c, k, data, CollectRound)
  {
    JobRoundIsStep(s, k);
    StaysIdle(s, CollectJob(JobKey(k, s.c.imports[k])), k);
    CollectProgresses(s.c, k, data);
  }

  lemma CompletePlayed(s: State, k: Key, data: map<string, string>)
    requires Live(s, k, data)
    ensures var s' := Play(s, k, data, CompleteRound);
      Live(s', k, data) && Progresses(s.c, s'.c, k, data, CompleteRound)
  {
    JobRoundIsStep(s, k);
    StaysIdle(s, SetJobConditions(JobKey(k, s.c.imports[k]), [JobCondition(Complete, true)]), k);
    CompleteProgresses(s.c, k, data);
  }

  lemma RoundProgress(s: State, k: Key, data: map<string, string>, r: Round)
    requires Live(s, k, data)
    ensures var s' := Play(s, k, data, r); Live(s', k, data) && Progresses(s.c, s'.c, k, data, r)
  {
    match r
    case PassRound => PassPlayed(s, k, data);
    case CollectRound => CollectPlayed(s, k, data);
    case CompleteRound => CompletePlayed(s, k, data);
    case OthersRound(a) => if Bystander(s, a, k, data) { BystanderKeeps(s, a, k, data); }
  }

  ghost function PlayAll(s: State, k: Key, data: map<string, string>, rounds: seq<Round>): (s': State)
    requires Live(s, k, data)
    ensures Live(s', k, data)
    decreases |rounds|
  {
    if rounds == [] then s
    else
      RoundProgress(s, k, data, rounds[0]);
      PlayAll(Play(s, k, data, rounds[0]), k, data, rounds[1..])
  }

  lemma {:induction false} PlayAllProgress(s: State, k: Key, data: map<string, string>, rounds: seq<Round>)
    requires Live(s, k, data)
    ensures var c' := PlayAll(s, k, data, rounds).c;
      && Rank(c', k, data) <= Rank(s.c, k, data)
      && (Rank(s.c, k, data) > 0 && Awaited(s.c, k, data) in rounds ==> Rank(c', k, data) < Rank(s.c, k, data))
    decreases |rounds|
  {
    if rounds != [] {
      RoundProgress(s, k, data, rounds[0]);
      PlayAllProgress(Play(s, k, data, rounds[0]), k, data, rounds[1..]);
    }
  }

  ghost predicate Fair(block: seq<Round>) {
    PassRound in block && CollectRound in block && CompleteRound in block
  }

  ghost function PlayBlocks(s: State, k: Key, data: map<string, string>, blocks: seq<seq<Round>>): (s': State)
    requires Live(s, k, data)
    ensures Live(s', k, data)
    decreases |blocks|
  {
    if blocks == [] then s else PlayBlocks(PlayAll(s, k, data, blocks[0]), k, data, blocks[1..])
  }

  /** Convergence: whatever the order, the repetitions and the actions of others, once each kind of
      round has come up in each of as many blocks as the rank counts (fifteen always suffice), the
      import is in its final state. */
  lemma {:induction false} Converges(s: State, k: Key, data: map<string, string>, blocks: seq<seq<Round>>)
    requires Live(s, k, data) && |blocks| >= Rank(s.c, k, data)
    requires forall i :: 0 <= i < |blocks| ==> Fair(blocks[i])
    ensures Final(PlayBlocks(s, k, data, blocks).c, k, data)
    decreases |blocks|
  {
    RankZeroIsFinal(s.c, k, data);
    if blocks != [] {
      assert Fair(blocks[0]);
      PlayAllProgress(s, k, data, blocks[0]);
      Converges(PlayAll(s, k, data, blocks[0]), k, data, blocks[1..]);
    }
  }

  // Schedules are runs.

  lemma PlayIsRun(s: State, k: Key, data: map<string, string>, r: Round) returns (actions: seq<Action>)
    requires Live(s, k, data)
    ensures After(s, actions) == Play(s, k, data, r)
  {
    var key := JobKey(k, s.c.imports[k]);
    JobRoundIsStep(s, k);
    if r.PassRound? {
      actions := QuietPassIsRun(s, k);
    } else {
      var a := match r
        case CollectRound => CollectJob(key)
        case CompleteRound => SetJobConditions(key, [JobCondition(Complete, true)])
        case OthersRound(a) => a
        case PassRound => CollectJob(key);
      var s' := Play(s, k, data, r);
      actions := if s' == s then [] else [a];
      assert After(s', []) == s';
    }
  }

  lemma {:induction false} PlayAllIsRun(s: State, k: Key, data: map<string, string>, rounds: seq<Round>)
    returns (actions: seq<Action>)
    requires Live(s, k, data)
    ensures After(s, actions) == PlayAll(s, k, data, rounds)
    decreases |rounds|
  {
    if rounds == [] {
      actions := [];
    } else {
      RoundProgress(s, k, data, rounds[0]);
      var first := PlayIsRun(s, k, data, rounds[0]);
      var rest := PlayAllIsRun(Play(s, k, data, rounds[0]), k, data, rounds[1..]);
      actions := first + rest;
      AfterConcat(s, first, rest);
    }
  }

  lemma {:induction false} PlayBlocksIsRun(s: State, k: Key, data: map<string, string>, blocks: seq<seq<Round>>)
    returns (actions: seq<Action>)
    requires Live(s, k, data)
    ensures After(s, actions) == PlayBlocks(s, k, data, blocks)
    decreases |blocks|
  {
    if blocks == [] {
      actions := [];
    } else {
      var first := PlayAllIsRun(s, k, data, blocks[0]);
      var rest := PlayBlocksIsRun(PlayAll(s, k, data, blocks[0]), k, data, blocks[1..]);
      actions := first + rest;
      AfterConcat(s, first, rest);
    }
  }

  // From reachable states.

  /** What users have to provide: an import that stays, its inputs, none of which is its own Secret,
      and no foreign or failed Job in the way. */
  ghost predicate Provided(c: Cluster, k: Key, data: map<string, string>) {
    && k in c.imports && !c.imports[k].deleting
    && var cr := c.imports[k];
    && Inputs(c, k, cr, data)
    && (forall i :: 0 <= i < |cr.spec.subs| ==> Key(k.ns, cr.spec.subs[i].secretName) != SecretKey(k, cr))
    && (JobKey(k, cr) in c.jobs ==>
          Carries(c.jobs[JobKey(k, cr)].labels, Owner, Text(k.name)) && !IsJobFailed(c.jobs[JobKey(k, cr)].conditions))
  }

  lemma ProvidedIsSettled(s: State, k: Key, data: map<string, string>, ns: string)
    requires ValidKey(k) && !Reserved(k) && Provided(s.c, k, data) && ns == s.c.imports[k].spec.target.ns
    requires Coherent(s) && Separate(s) && Tracked(s, k, ns)
    requires forall v: nat :: Holds(s.c, k, ns, v) ==> Spent(s, k, ns, v)
    ensures Settled(s.c, k, data)
  {
    var c, cr := s.c, s.c.imports[k];
    assert Named(c);
    if JobKey(k, cr) in c.jobs {
      forall v: nat | Carries(c.jobs[JobKey(k, cr)].labels, VersionLabel(k), Version(v)) ensures v <= c.rv {
        assert Holds(c, k, ns, v);
      }
    }
    if Matching(c, k, data) {
      assert Holds(c, k, ns, c.secrets[SecretKey(k, cr)].rv);
    }
  }

  /** Every state that an orderly run reaches is settled as soon as the inputs are provided. */
  lemma ReachableSettled(run: seq<Action>, k: Key, data: map<string, string>)
    requires ValidKey(k) && !Reserved(k) && Provided(Exec(run).c, k, data)
    requires OrderlyRun(run, k, Exec(run).c.imports[k].spec.target.ns)
    ensures Settled(Exec(run).c, k, data)
  {
    var ns := Exec(run).c.imports[k].spec.target.ns;
    ReachableSound(run, k, ns);
    forall v: nat | Holds(Exec(run).c, k, ns, v) ensures Spent(Exec(run), k, ns, v) {
      HeldIsSpent(run, k, ns, v);
    }
    ProvidedIsSettled(Exec(run), k, data, ns);
  }

  /** From every state that an orderly run reaches with the inputs provided, every fair schedule is a
      continuation of the run that ends in the final state. */
  lemma ReachableConverges(run: seq<Action>, k: Key, data: map<string, string>, blocks: seq<seq<Round>>)
    returns (more: seq<Action>)
    requires ValidKey(k) && !Reserved(k) && Provided(Exec(run).c, k, data) && k !in Exec(run).passes
    requires OrderlyRun(run, k, Exec(run).c.imports[k].spec.target.ns)
    requires |blocks| >= 15 && forall i :: 0 <= i < |blocks| ==> Fair(blocks[i])
    ensures Live(Exec(run), k, data) && Exec(run + more) == PlayBlocks(Exec(run), k, data, blocks)
    ensures Final(Exec(run + more).c, k, data)
  {
    ReachableSettled(run, k, data);
    ReachableCoherent(run);
    ReachableSeparate(run);
    RankZeroIsFinal(Exec(run).c, k, data);
    more := PlayBlocksIsRun(Exec(run), k, data, blocks);
    ExecAfter(run, more);
    Converges(Exec(run), k, data, blocks);
  }
}
