/** Passes that nobody interrupts: they end, and what they do to the cluster has a closed form. */
module QuietPasses {
  import opened Names
  import opened Cluster
  import opened Passes
  import opened RealmDocument
  import opened System

  // An uninterrupted pass.

  /** Lists in progress are not empty. */
  ghost predicate Proper(t: Stage) {
    (t.CleanJobs? || t.CleanSecrets? ==> t.todo != {}) && (t.ScanJobs? ==> t.jobs != map[])
  }

  ghost function Pick(t: Stage): Key
    requires Proper(t)
  {
    if t.CleanJobs? || t.CleanSecrets? then var x :| x in t.todo; x
    else if t.ScanJobs? then var x :| x in t.jobs; x
    else Key("", "")
  }

  ghost function StageRank(t: Stage): nat {
    match t
    case CleanListJobs => 16
    case CleanJobs(_) => 15
    case CleanListSecrets => 14
    case CleanSecrets(_) => 13
    case DropFinalizer => 12
    case AddFinalizer => 11
    case FetchKeycloak => 10
    case FetchSet(_) => 9
    case FetchValue(_, _, _) => 8
    case ReadSecret(_, _) => 7
    case WriteRealm(_, _, _) => 6
    case ListJobs(_, _) => 5
    case ScanJobs(_, _, _) => 4
    case StartJob(_, _) => 3
    case Rollout(_, _, _) => 2
    case ReportError(_) => 1
    case ReportReady(_, _, _) => 1
  }

  ghost function Remaining(p: Pass): nat {
    match p.stage
    case CleanJobs(todo) => |todo|
    case CleanSecrets(todo) => |todo|
    case FetchValue(_, next, _) => if next < |p.cr.spec.subs| then |p.cr.spec.subs| - next else 0
    case ScanJobs(_, _, jobs) => |jobs|
    case _ => 0
  }

  ghost predicate Advanced(p: Pass, p': Pass) {
    Proper(p'.stage) &&
    (StageRank(p'.stage) < StageRank(p.stage) ||
     (StageRank(p'.stage) == StageRank(p.stage) && Remaining(p') < Remaining(p)))
  }

  lemma ReadingAdvances(c: Cluster, k: Key, p: Pass, fault: bool)
    requires p.stage.Reading()
    ensures Advanced(p, Pass(p.cr, StepReading(c, k, p.cr, p.stage, fault)))
  {
  }

  /** A step of an uninterrupted pass moves on to a later stage, or shortens its list. */
  lemma StepAdvances(c: Cluster, k: Key, p: Pass)
    requires Proper(p.stage)
    ensures var n := StepImport(c, k, p, Pick(p.stage), false); n.pass.Some? ==> Advanced(p, n.pass.value)
  {
    var t := p.stage;
    if t.Reading() {
      ReadingAdvances(c, k, p, false);
    } else if t.Cleaning() && !t.DropFinalizer? {
      CleaningAdvances(c, k, p);
    } else if t.WriteRealm? || t.ScanJobs? || t.StartJob? || t.Rollout? {
      ArtefactAdvances(c, k, p);
    }
  }

  lemma CleaningAdvances(c: Cluster, k: Key, p: Pass)
    requires Proper(p.stage) && p.stage.Cleaning() && !p.stage.DropFinalizer?
    ensures var n := StepCleaning(c, k, p.cr, p.stage, Pick(p.stage), false); n.pass.Some? ==> Advanced(p, n.pass.value)
  {
  }

  lemma ArtefactAdvances(c: Cluster, k: Key, p: Pass)
    requires Proper(p.stage) && (p.stage.WriteRealm? || p.stage.ScanJobs? || p.stage.StartJob? || p.stage.Rollout?)
    ensures var n := StepArtefact(c, k, p.cr, p.stage, Pick(p.stage), false); n.pass.Some? ==> Advanced(p, n.pass.value)
  {
    if p.stage.ScanJobs? {
      var jobs, pick := p.stage.jobs, Pick(p.stage);
      assert (jobs - {pick}).Keys == jobs.Keys - {pick};
    }
  }

  /** The cluster when a pass has run through: every uninterrupted pass ends. */
  ghost function RunPass(c: Cluster, k: Key, p: Pass): Cluster
    requires Proper(p.stage)
    decreases StageRank(p.stage), Remaining(p)
  {
    StepAdvances(c, k, p);
    var n := StepImport(c, k, p, Pick(p.stage), false);
    if n.pass.None? then n.cluster else RunPass(n.cluster, k, n.pass.value)
  }

  /** A whole pass, from reading the import on. */
  ghost function QuietPass(c: Cluster, k: Key): Cluster {
    var p := BeginImport(c, k, false);
    if p.None? then c else RunPass(c, k, p.value)
  }

  /** A quiet pass is a run of the system: begin, then step until the pass is over. */
  ghost function After(s: State, actions: seq<Action>): State
    decreases |actions|
  {
    if actions == [] then s else After(Apply(s, actions[0]), actions[1..])
  }

  lemma {:induction false} RunPassIsRun(s: State, k: Key) returns (actions: seq<Action>)
    requires k in s.passes && Proper(s.passes[k].stage)
    ensures After(s, actions) == s.(c := RunPass(s.c, k, s.passes[k]), passes := s.passes - {k})
    ensures forall a :: a in actions ==> a.StepImportPass? && a.k == k && !a.fault
    decreases StageRank(s.passes[k].stage), Remaining(s.passes[k])
  {
    var p := s.passes[k];
    StepAdvances(s.c, k, p);
    var a := StepImportPass(k, Pick(p.stage), false);
    var s' := Apply(s, a);
    if k !in s'.passes {
      actions := [a];
      assert After(s', []) == s';
    } else {
      var rest := RunPassIsRun(s', k);
      actions := [a] + rest;
      assert s'.passes - {k} == s.passes - {k};
    }
  }

  // The closed form, for an import that is not being deleted and whose inputs are all there.

  /** The content of the substitution Secrets, from substitution `next` on. */
  ghost function Fetched(c: Cluster, k: Key, cr: Import, next: nat, values: map<string, string>): Option<map<string,
      string>>
    decreases |cr.spec.subs| - next
  {
    if next >= |cr.spec.subs| then Some(values)
    else
      var sub := cr.spec.subs[next];
      var key := Key(k.ns, sub.secretName);
      if key !in c.secrets then None
      else Fetched(c, k, cr, next + 1, values[sub.name := EscapeString(SubstitutionValue(c.secrets[key], sub))])
  }

  /** Names that are not mentioned from substitution `next` on keep their values. */
  lemma {:induction false} FetchedKeeps(c: Cluster, k: Key, cr: Import, next: nat, values: map<string, string>,
      name: string)
    requires Fetched(c, k, cr, next, values).Some? && name in values
    requires forall j :: next <= j < |cr.spec.subs| ==> cr.spec.subs[j].name != name
    ensures name in Fetched(c, k, cr, next, values).value && Fetched(c, k, cr, next, values).value[name] == values[name]
    decreases |cr.spec.subs| - next
  {
    if next < |cr.spec.subs| {
      var sub := cr.spec.subs[next];
      var value := EscapeString(SubstitutionValue(c.secrets[Key(k.ns, sub.secretName)], sub));
      FetchedKeeps(c, k, cr, next + 1, values[sub.name := value], name);
    }
  }

  /** Every variable has the escaped value of its Secret key in the namespace of the import, the last
      mention of its name winning; a key that is not there counts as empty. */
  lemma {:induction false} FetchedExactly(
    c: Cluster, k: Key, cr: Import, next: nat, values: map<string, string>, i: nat)
    requires Fetched(c, k, cr, next, values).Some? && next <= i < |cr.spec.subs|
    requires forall j :: i < j < |cr.spec.subs| ==> cr.spec.subs[j].name != cr.spec.subs[i].name
    ensures var sub, key := cr.spec.subs[i], Key(k.ns, cr.spec.subs[i].secretName);
      && key in c.secrets && sub.name in Fetched(c, k, cr, next, values).value
      && Fetched(c, k, cr, next, values).value[sub.name] ==
         EscapeString(if sub.secretKey in c.secrets[key].data then c.secrets[key].data[sub.secretKey] else "")
    decreases |cr.spec.subs| - next
  {
    var sub := cr.spec.subs[next];
    var value := EscapeString(SubstitutionValue(c.secrets[Key(k.ns, sub.secretName)], sub));
    if next < i {
      FetchedExactly(c, k, cr, next + 1, values[sub.name := value], i);
    } else {
      FetchedKeeps(c, k, cr, next + 1, values[sub.name := value], sub.name);
    }
  }

  /** No foreign Job has the owner label of `k` or holds the name of its Job. */
  ghost predicate JobsClear(c: Cluster, k: Key, cr: Import) {
    && (forall key ::
          key in c.jobs && key.ns == cr.spec.target.ns && Carries(c.jobs[key].labels, Owner, Text(k.name)) ==>
            key == JobKey(k, cr))
    && (JobKey(k, cr) in c.jobs ==> Carries(c.jobs[JobKey(k, cr)].labels, Owner, Text(k.name)))
  }

  ghost predicate AtWork(c: Cluster, k: Key, cr: Import, ctx: Context) {
    k in c.imports && c.imports[k] == cr && cr.spec.target in c.sets && c.sets[cr.spec.target] == ctx.sts &&
        JobsClear(c, k, cr)
  }

  ghost predicate SecretFresh(c: Cluster, k: Key, cr: Import, data: map<string, string>) {
    var key := SecretKey(k, cr);
    key in c.secrets && c.secrets[key].labels == SecretLabels(k) && c.secrets[key].data == data
  }

  /** The rest of a pass once the Secret has version `version`. */
  ghost function AfterSecret(c: Cluster, k: Key, cr: Import, ctx: Context, version: nat): Cluster {
    var key := JobKey(k, cr);
    if key !in c.jobs then
      StoreImport(StoreJob(c, key, Job(0, JobLabels(k, version), [], false)), k, cr.(status := NotReady(WaitForJob)))
    else if !Carries(c.jobs[key].labels, VersionLabel(k), Version(version)) then
      DeleteJob(c, key).cluster
    else if (AnnotationKey(k) in ctx.sts.annotations ==> ctx.sts.annotations[AnnotationKey(k)] != version) &&
            IsJobCompleted(c.jobs[key].conditions) then
      StoreImport(StoreSet(c, cr.spec.target,
          ctx.sts.(annotations := ctx.sts.annotations[AnnotationKey(k) := version])),
                  k, cr.(status := Ready))
    else StoreImport(c, k, cr.(status := Ready))
  }

  lemma ListedOne(c: Cluster, k: Key, cr: Import)
    requires JobsClear(c, k, cr)
    ensures ListedJobs(c, k, cr) == if JobKey(k, cr) in c.jobs
      then map[JobKey(k, cr) := c.jobs[JobKey(k, cr)]] else map[]
  {
  }

  lemma RunReport(c: Cluster, k: Key, cr: Import, t: Stage)
    requires k in c.imports && c.imports[k] == cr && (t.ReportError? || t.ReportReady?)
    ensures RunPass(c, k, Pass(cr, t)) ==
            StoreImport(c, k, cr.(status := if t.ReportReady? then Ready else NotReady(t.reason)))
  {
  }

  lemma RunStart(c: Cluster, k: Key, cr: Import, ctx: Context, version: nat)
    requires AtWork(c, k, cr, ctx)
    ensures RunPass(c, k, Pass(cr, StartJob(ctx, version))) ==
            if JobKey(k, cr) in c.jobs then c
            else StoreImport(StoreJob(c, JobKey(k, cr), Job(0, JobLabels(k, version), [], false)), k,
                cr.(status := NotReady(WaitForJob)))
  {
    if JobKey(k, cr) !in c.jobs {
      RunReport(StoreJob(c, JobKey(k, cr), Job(0, JobLabels(k, version), [], false)), k, cr, ReportError(WaitForJob));
    }
  }

  lemma RunFound(c: Cluster, k: Key, cr: Import, ctx: Context, version: nat)
    requires AtWork(c, k, cr, ctx) && JobKey(k, cr) in c.jobs
    requires Carries(c.jobs[JobKey(k, cr)].labels, VersionLabel(k), Version(version))
    ensures RunPass(c, k, Pass(cr, AfterFound(k, ctx, version, c.jobs[JobKey(k, cr)]))) ==
      AfterSecret(c, k, cr, ctx, version)
  {
    var job := c.jobs[JobKey(k, cr)];
    if !Annotated(ctx.sts, k, version) && IsJobCompleted(job.conditions) {
      var updated := ctx.sts.(rv := c.rv + 1, annotations := ctx.sts.annotations[AnnotationKey(k) := version]);
      RunReport(StoreSet(c, cr.spec.target, updated), k, cr, ReportReady(ctx.(sts := updated), version, job));
    } else {
      RunReport(c, k, cr, ReportReady(ctx, version, job));
    }
  }

  lemma RunScan(c: Cluster, k: Key, cr: Import, ctx: Context, version: nat, jobs: map<Key, Job>)
    requires AtWork(c, k, cr, ctx) && JobKey(k, cr) in c.jobs
    requires jobs == map[JobKey(k, cr) := c.jobs[JobKey(k, cr)]] && jobs != map[]
    ensures RunPass(c, k, Pass(cr, ScanJobs(ctx, version, jobs))) == AfterSecret(c, k, cr, ctx, version)
  {
    var key := JobKey(k, cr);
    var t := ScanJobs(ctx, version, jobs);
    assert Pick(t) == key;
    if Carries(c.jobs[key].labels, VersionLabel(k), Version(version)) {
      RunFound(c, k, cr, ctx, version);
    } else {
      assert jobs - {key} == map[];
      RunStart(DeleteJob(c, key).cluster, k, cr, ctx, version);
    }
  }

  lemma RunList(c: Cluster, k: Key, cr: Import, ctx: Context, version: nat)
    requires AtWork(c, k, cr, ctx)
    ensures RunPass(c, k, Pass(cr, ListJobs(ctx, version))) == AfterSecret(c, k, cr, ctx, version)
  {
    ListedOne(c, k, cr);
    if JobKey(k, cr) in c.jobs {
      assert JobKey(k, cr) in ListedJobs(c, k, cr);
      RunScan(c, k, cr, ctx, version, ListedJobs(c, k, cr));
    } else {
      RunStart(c, k, cr, ctx, version);
    }
  }

  /** The version the import Secret has once it is fresh, and the cluster by then. */
  ghost function SettledVersion(c: Cluster, k: Key, cr: Import, data: map<string, string>): nat {
    if SecretFresh(c, k, cr, data) then c.secrets[SecretKey(k, cr)].rv else c.rv + 1
  }

  ghost function SettledSecret(c: Cluster, k: Key, cr: Import, data: map<string, string>): Cluster {
    if SecretFresh(c, k, cr, data) then c else StoreSecret(c, SecretKey(k, cr), SecretLabels(k), data)
  }

  lemma RunRead(c: Cluster, k: Key, cr: Import, ctx: Context, values: map<string, string>, data: map<string, string>)
    requires AtWork(c, k, cr, ctx) && RealmData(k, cr, values) == Some(data)
    ensures RunPass(c, k, Pass(cr, ReadSecret(ctx, values))) ==
            AfterSecret(SettledSecret(c, k, cr, data), k, cr, ctx, SettledVersion(c, k, cr, data))
  {
    var key := SecretKey(k, cr);
    ReadMoves(c, k, cr, ctx, values, data, Pick(ReadSecret(ctx, values)));
    if SecretFresh(c, k, cr, data) {
      RunList(c, k, cr, ctx, c.secrets[key].rv);
    } else {
      var seen := if key in c.secrets then Some(c.secrets[key].rv) else None;
      RunWrite(c, k, cr, ctx, seen, data);
    }
  }

  lemma ReadMoves(c: Cluster, k: Key, cr: Import, ctx: Context, values: map<string, string>, data: map<string,
      string>, pick: Key)
    requires RealmData(k, cr, values) == Some(data)
    ensures var key := SecretKey(k, cr);
      var seen := if key in c.secrets then Some(c.secrets[key].rv) else None;
      StepImport(c, k, Pass(cr, ReadSecret(ctx, values)), pick, false) ==
      Next(c, Some(Pass(cr, if SecretFresh(c, k, cr, data)
          then ListJobs(ctx, c.secrets[key].rv) else WriteRealm(ctx, seen, data))))
  {
  }

  lemma RunWrite(c: Cluster, k: Key, cr: Import, ctx: Context, seen: Option<nat>, data: map<string, string>)
    requires AtWork(c, k, cr, ctx)
    requires seen == if SecretKey(k, cr) in c.secrets then Some(c.secrets[SecretKey(k, cr)].rv) else None
    ensures RunPass(c, k, Pass(cr, WriteRealm(ctx, seen, data))) ==
            AfterSecret(StoreSecret(c, SecretKey(k, cr), SecretLabels(k), data), k, cr, ctx, c.rv + 1)
  {
    var c' := StoreSecret(c, SecretKey(k, cr), SecretLabels(k), data);
    WriteMoves(c, k, cr, ctx, seen, data, Pick(WriteRealm(ctx, seen, data)));
    AtWorkKept(c, c', k, cr, ctx);
    RunList(c', k, cr, ctx, c.rv + 1);
  }

  lemma WriteMoves(c: Cluster, k: Key, cr: Import, ctx: Context, seen: Option<nat>, data: map<string, string>,
      pick: Key)
    requires seen == if SecretKey(k, cr) in c.secrets then Some(c.secrets[SecretKey(k, cr)].rv) else None
    ensures StepImport(c, k, Pass(cr, WriteRealm(ctx, seen, data)), pick, false) ==
            Next(StoreSecret(c, SecretKey(k, cr), SecretLabels(k), data), Some(Pass(cr, ListJobs(ctx, c.rv + 1))))
  {
  }

  lemma AtWorkKept(c: Cluster, c': Cluster, k: Key, cr: Import, ctx: Context)
    requires AtWork(c, k, cr, ctx) && c'.imports == c.imports && c'.sets == c.sets && c'.jobs == c.jobs
    ensures AtWork(c', k, cr, ctx)
  {
  }

  lemma {:induction false} RunValues(c: Cluster, k: Key, cr: Import, ctx: Context, next: nat, values: map<string,
      string>)
    requires next <= |cr.spec.subs| && Fetched(c, k, cr, next, values).Some?
    ensures RunPass(c, k, Pass(cr, AfterValues(cr, ctx, next, values))) ==
            RunPass(c, k, Pass(cr, ReadSecret(ctx, Fetched(c, k, cr, next, values).value)))
    decreases |cr.spec.subs| - next
  {
    if next < |cr.spec.subs| {
      var sub := cr.spec.subs[next];
      var key := Key(k.ns, sub.secretName);
      RunValues(c, k, cr, ctx, next + 1, values[sub.name := EscapeString(SubstitutionValue(c.secrets[key], sub))]);
    }
  }

  /** The inputs of a pass: a ready Keycloak with its StatefulSet, and a template that expands to `data`. */
  ghost predicate Inputs(c: Cluster, k: Key, cr: Import, data: map<string, string>) {
    && cr.spec.target in c.keycloaks && c.keycloaks[cr.spec.target].ready && cr.spec.target in c.sets
    && Fetched(c, k, cr, 0, map[]).Some? && RealmData(k, cr, Fetched(c, k, cr, 0, map[]).value) == Some(data)
  }

  lemma RunWork(c: Cluster, k: Key, cr: Import, data: map<string, string>)
    requires k in c.imports && c.imports[k] == cr && JobsClear(c, k, cr) && Inputs(c, k, cr, data)
    ensures var ctx := Context(c.keycloaks[cr.spec.target], c.sets[cr.spec.target]);
      RunPass(c, k, Pass(cr, FetchKeycloak)) ==
          AfterSecret(SettledSecret(c, k, cr, data), k, cr, ctx, SettledVersion(c, k, cr, data))
  {
    var kc := c.keycloaks[cr.spec.target];
    var ctx := Context(kc, c.sets[cr.spec.target]);
    var values := Fetched(c, k, cr, 0, map[]).value;
    assert RunPass(c, k, Pass(cr, FetchKeycloak)) == RunPass(c, k, Pass(cr, FetchSet(kc)));
    RunValues(c, k, cr, ctx, 0, map[]);
    RunRead(c, k, cr, ctx, values, data);
  }

  // What stops a pass before it writes anything but the status.

  ghost function Obstacle(c: Cluster, k: Key, cr: Import): Option<Reason> {
    var q := cr.spec.target;
    if q !in c.keycloaks then Some(KeycloakUnavailable)
    else if !c.keycloaks[q].ready then Some(KeycloakNotReady)
    else if q !in c.sets then Some(DeploymentNotReady)
    else
      match Fetched(c, k, cr, 0, map[])
      case None => Some(SecretNotReady)
      case Some(values) => if RealmData(k, cr, values).None? then Some(SecretNotReady) else None
  }

  ghost function Stopped(c: Cluster, k: Key, cr: Import, reason: Reason): Cluster {
    StoreImport(c, k, cr.(status := NotReady(reason)))
  }

  lemma {:induction false} RunMissing(c: Cluster, k: Key, cr: Import, ctx: Context, next: nat, values: map<string,
      string>)
    requires k in c.imports && c.imports[k] == cr && next <= |cr.spec.subs| && Fetched(c, k, cr, next, values).None?
    ensures RunPass(c, k, Pass(cr, AfterValues(cr, ctx, next, values))) == Stopped(c, k, cr, SecretNotReady)
    decreases |cr.spec.subs| - next
  {
    var sub := cr.spec.subs[next];
    var key := Key(k.ns, sub.secretName);
    if key in c.secrets {
      RunMissing(c, k, cr, ctx, next + 1, values[sub.name := EscapeString(SubstitutionValue(c.secrets[key], sub))]);
    } else {
      RunReport(c, k, cr, ReportError(SecretNotReady));
    }
  }

  /** An input is missing or does not expand: the pass reports which, and does nothing else. Otherwise
      it has all its inputs. */
  lemma RunBlocked(c: Cluster, k: Key, cr: Import)
    requires k in c.imports && c.imports[k] == cr
    ensures Obstacle(c, k, cr).Some? ==>
      RunPass(c, k, Pass(cr, FetchKeycloak)) == Stopped(c, k, cr, Obstacle(c, k, cr).value)
    ensures Obstacle(c, k, cr).None? <==> exists data :: Inputs(c, k, cr, data)
  {
    var q := cr.spec.target;
    if q !in c.keycloaks {
      RunReport(c, k, cr, ReportError(KeycloakUnavailable));
    } else if !c.keycloaks[q].ready {
      RunReport(c, k, cr, ReportError(KeycloakNotReady));
    } else if q !in c.sets {
      RunReport(c, k, cr, ReportError(DeploymentNotReady));
    } else {
      RunBlockedValues(c, k, cr);
      if Obstacle(c, k, cr).None? {
        assert Inputs(c, k, cr, RealmData(k, cr, Fetched(c, k, cr, 0, map[]).value).value);
      }
    }
  }

  lemma RunBlockedValues(c: Cluster, k: Key, cr: Import)
    requires k in c.imports && c.imports[k] == cr && cr.spec.target in c.keycloaks && c.keycloaks[cr.spec.target].ready
    requires cr.spec.target in c.sets
    ensures Obstacle(c, k, cr).Some? ==> RunPass(c, k, Pass(cr, FetchKeycloak)) == Stopped(c, k, cr, SecretNotReady)
  {
    var kc := c.keycloaks[cr.spec.target];
    var ctx := Context(kc, c.sets[cr.spec.target]);
    assert RunPass(c, k, Pass(cr, FetchKeycloak)) == RunPass(c, k, Pass(cr, FetchSet(kc)));
    if Fetched(c, k, cr, 0, map[]).None? {
      RunMissing(c, k, cr, ctx, 0, map[]);
    } else {
      RunValues(c, k, cr, ctx, 0, map[]);
      RunReport(c, k, cr, ReportError(SecretNotReady));
    }
  }
}
