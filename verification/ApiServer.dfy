/** The API server as a reconcile pass sees it: an object whose state others change between any two
    requests, and whose requests may fail. It knows nothing of the pass it serves: what it does is
    computed from the request. The pass machine appears in ghost state only, and each request is
    proved to be the one that the machine makes. */
module ApiServer {
  import opened Names
  import opened Cluster
  import opened Passes
  import opened RealmDocument
  import opened System
  import opened Requests

  /** What happens before the next request: actions of others, and whether the request fails. */
  datatype Turn = Turn(others: seq<Action>, fault: bool)

  // What a pass adds to a run.

  /** From `before` to `after`, the pass of `k` does nothing but step: it neither begins nor dies. */
  ghost predicate Continues(before: seq<Action>, after: seq<Action>, k: Key) {
    before <= after && forall i :: |before| <= i < |after| && OfPass(after[i], k) ==> after[i].StepImportPass?
  }

  /** From `before` to `after`, a pass of `k` begins, once, and is not cut off. */
  ghost predicate FullPass(before: seq<Action>, after: seq<Action>, k: Key) {
    before <= after && exists m :: |before| <= m < |after| && BeginsAt(before, after, k, m)
  }

  ghost predicate BeginsAt(before: seq<Action>, after: seq<Action>, k: Key, m: int)
    requires |before| <= m < |after|
  {
    after[m].BeginImportPass? && after[m].k == k && Continues(after[..m + 1], after, k) &&
    forall i :: |before| <= i < m ==> !OfPass(after[i], k)
  }

  lemma PassContinues(before: seq<Action>, middle: seq<Action>, after: seq<Action>, k: Key)
    requires FullPass(before, middle, k) && Continues(middle, after, k)
    ensures FullPass(before, after, k)
  {
    var m :| |before| <= m < |middle| && BeginsAt(before, middle, k, m);
    assert after[..m + 1] == middle[..m + 1];
    assert BeginsAt(before, after, k, m);
  }

  /** The objects that the steps of the pass of `k` were about. */
  ghost function Picks(actions: seq<Action>, k: Key): seq<Key> {
    if actions == [] then []
    else
      var last := actions[|actions| - 1];
      Picks(actions[..|actions| - 1], k) + (if last.StepImportPass? && last.k == k then [last.pick] else [])
  }

  lemma {:induction false} NoPicks(actions: seq<Action>, k: Key)
    requires forall i :: 0 <= i < |actions| ==> !OfPass(actions[i], k)
    ensures Picks(actions, k) == []
  {
    if actions != [] { NoPicks(actions[..|actions| - 1], k); }
  }

  lemma {:induction false} PicksConcat(a: seq<Action>, b: seq<Action>, k: Key)
    ensures Picks(a + b, k) == Picks(a, k) + Picks(b, k)
  {
    if b == [] {
      assert a + b == a;
    } else {
      assert (a + b)[..|a + b| - 1] == a + b[..|b| - 1];
      PicksConcat(a, b[..|b| - 1], k);
    }
  }

  /** From `before` to `after`, the pass of `k` makes exactly these steps. */
  ghost predicate Moves(before: seq<Action>, after: seq<Action>, k: Key, picks: seq<Key>) {
    Continues(before, after, k) && Picks(after[|before|..], k) == picks
  }

  lemma MovesConcat(a: seq<Action>, b: seq<Action>, c: seq<Action>, k: Key, first: seq<Key>, second: seq<Key>)
    requires Moves(a, b, k, first) && Moves(b, c, k, second)
    ensures Moves(a, c, k, first + second)
  {
    assert c[|a|..] == b[|a|..] + c[|b|..];
    PicksConcat(b[|a|..], c[|b|..], k);
  }

  lemma OneMove(before: seq<Action>, middle: seq<Action>, a: Action, k: Key)
    requires before <= middle && a.StepImportPass? && a.k == k
    requires forall i :: |before| <= i < |middle| ==> !OfPass(middle[i], k)
    ensures Moves(before, middle + [a], k, [a.pick])
  {
    var added := (middle + [a])[|before|..];
    assert added[..|added| - 1] == middle[|before|..];
    NoPicks(middle[|before|..], k);
  }

  // The state without the pass that is being served.

  function Without(s: State, k: Key): State {
    s.(passes := s.passes - {k})
  }

  /** Others neither see the pass of `k` nor move it. */
  lemma Oblivious(s: State, a: Action, k: Key)
    requires !OfPass(a, k)
    ensures Apply(Without(s, k), a) == Without(Apply(s, a), k)
    ensures k in Apply(s, a).passes <==> k in s.passes
    ensures k in s.passes ==> Apply(s, a).passes[k] == s.passes[k]
  {
    assert Enabled(Without(s, k), a) <==> Enabled(s, a);
    if a.BeginImportPass? || a.StepImportPass? || a.CrashImportPass? {
      OtherPasses(s.passes, a.k, k);
    }
  }

  lemma OtherPasses(passes: map<Key, Pass>, j: Key, k: Key)
    requires j != k
    ensures (passes - {k}) - {j} == (passes - {j}) - {k}
  {
  }

  lemma Logged(log: seq<Action>, a: Action)
    ensures Exec(log + [a]) == Apply(Exec(log), a)
  {
    assert (log + [a])[..|log|] == log;
  }

  /** What a request does to the run, to the whole state and to the state without the pass. */
  lemma StepServed(log: seq<Action>, all: State, k: Key, request: Request, pick: Key, fault: bool)
    requires all == Exec(log) && k in all.passes && request == NextRequest(k, all.passes[k], pick)
    ensures var a := StepImportPass(k, pick, fault);
      && (log + [a])[..|log|] == log && Exec(log + [a]) == Apply(all, a)
      && Without(Apply(all, a), k) == Without(all, k).(c := Serve(all.c, request, fault).cluster)
      && var n := StepImport(all.c, k, all.passes[k], pick, fault);
      && (k in Apply(all, a).passes <==> n.pass.Some?)
      && (n.pass.Some? ==> Apply(all, a).passes[k] == n.pass.value)
  {
    var a := StepImportPass(k, pick, fault);
    StepIsRequest(all.c, k, all.passes[k], pick, fault);
    Logged(log, a);
    assert Without(Apply(all, a), k).passes == all.passes - {k};
  }

  class World {
    /** The cluster and the passes of everybody else. */
    var s: State
    var turns: seq<Turn>

    /** The run so far, and the state it leads to, the pass being served included. */
    ghost var log: seq<Action>
    ghost var all: State

    ghost predicate Sees(k: Key)
      reads this
    {
      all == Exec(log) && s == Without(all, k)
    }

    /** The pass of `k` is about to make the request of this stage. */
    ghost predicate At(k: Key, cr: Import, t: Stage)
      reads this
    {
      Sees(k) && k in all.passes && all.passes[k] == Pass(cr, t)
    }

    ghost predicate Over(k: Key)
      reads this
    {
      Sees(k) && k !in all.passes
    }

    /** The state that the latest action has found. */
    ghost function FoundState(): State
      requires log != []
      reads this
    {
      Exec(log[..|log| - 1])
    }

    ghost function Found(): Cluster
      requires log != []
      reads this
    {
      FoundState().c
    }

    constructor (turns: seq<Turn>)
      ensures s == Initial() && this.turns == turns && log == [] && forall k :: Over(k)
    {
      s, this.turns, log, all := Initial(), turns, [], Initial();
    }

    /** Everybody else takes a turn. */
    method Yield(k: Key) returns (fault: bool)
      requires Sees(k)
      modifies this
      ensures Sees(k) && old(log) <= log
      ensures forall i :: |old(log)| <= i < |log| ==> !OfPass(log[i], k)
      ensures k in all.passes <==> k in old(all.passes)
      ensures k in all.passes ==> all.passes[k] == old(all.passes)[k]
    {
      if turns == [] { return false; }
      var others := turns[0].others;
      fault := turns[0].fault;
      turns := turns[1..];
      for i := 0 to |others|
        invariant Sees(k) && old(log) <= log
        invariant forall i :: |old(log)| <= i < |log| ==> !OfPass(log[i], k)
        invariant k in all.passes <==> k in old(all.passes)
        invariant k in all.passes ==> all.passes[k] == old(all.passes)[k]
      {
        if !OfPass(others[i], k) {
          Oblivious(all, others[i], k);
          Logged(log, others[i]);
          s := Apply(s, others[i]);
          all, log := Apply(all, others[i]), log + [others[i]];
        }
      }
    }

    /** One request of the pass of `k`. It must be the one the machine makes. */
    method Send(k: Key, request: Request, ghost pick: Key) returns (response: Response, ghost fault: bool)
      requires Sees(k) && k in all.passes && request == NextRequest(k, all.passes[k], pick)
      modifies this
      ensures Sees(k) && Moves(old(log), log, k, [pick]) && log != []
      ensures Reply(s.c, response) == Serve(Found(), request, fault)
      ensures var n := StepImport(Found(), k, old(all.passes)[k], pick, fault);
              if n.pass.None? then Over(k) else At(k, n.pass.value.cr, n.pass.value.stage)
    {
      var f := Yield(k);
      fault := f;
      var reply := Serve(s.c, request, f);
      response := reply.response;
      ghost var a := StepImportPass(k, pick, f);
      StepServed(log, all, k, request, pick, f);
      OneMove(old(log), log, a, k);
      s := s.(c := reply.cluster);
      all, log := Apply(all, a), log + [a];
    }

    // The client calls of a pass, with the request each of them sends.

    /** Reading the import begins the pass, in the branch the import calls for. */
    method GetImport(k: Key) returns (r: Option<Import>)
      requires Over(k)
      modifies this
      ensures FullPass(old(log), log, k)
      ensures r.Some? ==> k in s.c.imports && r.value == s.c.imports[k]
      ensures if r.None? || (r.value.deleting && RealmImport !in r.value.finalizers) then Over(k)
              else At(k, r.value, if r.value.deleting then CleanListJobs else BeginWork(r.value).stage)
    {
      var fault := Yield(k);
      var reply := Serve(s.c, Request.GetImport(k), fault);
      r := if reply.response.AnImport? then Some(reply.response.cr) else None;
      ghost var a := BeginImportPass(k, fault);
      Logged(log, a);
      assert Without(Apply(all, a), k).passes == s.passes;
      all, log := Apply(all, a), log + [a];
      assert BeginsAt(old(log), log, k, |log| - 1);
    }

    method UpdateImport(k: Key, cr: Import, finalizers: set<Finalizer>) returns (r: Option<Import>)
      requires At(k, cr, DropFinalizer) || At(k, cr, AddFinalizer)
      requires finalizers == if all.passes[k].stage.DropFinalizer? then cr.finalizers - {RealmImport}
                             else cr.finalizers + {RealmImport}
      modifies this
      ensures Continues(old(log), log, k)
      ensures r.None? ==> Over(k)
      ensures r.Some? ==>
        && r.value == cr.(rv := s.c.rv, finalizers := finalizers) && At(k, r.value, BeginWork(r.value).stage)
        && (k in s.c.imports <==> !(cr.deleting && finalizers == {}))
        && (k in s.c.imports ==> s.c.imports[k] == r.value)
    {
      var response, _ := Send(k, PutFinalizers(k, cr, finalizers), k);
      r := if response.AnImport? then Some(response.cr) else None;
    }

    method GetKeycloak(k: Key, cr: Import) returns (r: Option<Keycloak>)
      requires At(k, cr, FetchKeycloak)
      modifies this
      ensures Continues(old(log), log, k)
      ensures At(k, cr, if r.None? then ReportError(KeycloakUnavailable)
                        else if !r.value.ready then ReportError(KeycloakNotReady) else FetchSet(r.value))
    {
      var response, _ := Send(k, Request.GetKeycloak(cr.spec.target), k);
      r := if response.AKeycloak? then Some(response.keycloak) else None;
    }

    method GetStatefulSet(k: Key, cr: Import, ghost keycloak: Keycloak) returns (r: Option<StatefulSet>)
      requires At(k, cr, FetchSet(keycloak))
      modifies this
      ensures Continues(old(log), log, k)
      ensures At(k, cr, if r.None? then ReportError(DeploymentNotReady)
                        else AfterValues(cr, Context(keycloak, r.value), 0, map[]))
    {
      var response, _ := Send(k, Request.GetStatefulSet(cr.spec.target), k);
      r := if response.AStatefulSet? then Some(response.sts) else None;
    }

    method GetValueSecret(k: Key, key: Key, ghost cr: Import, ghost ctx: Context, ghost next: nat,
        ghost values: map<string, string>)
      returns (r: Option<Secret>)
      requires next < |cr.spec.subs| && key == Key(k.ns, cr.spec.subs[next].secretName) &&
        At(k, cr, FetchValue(ctx, next, values))
      modifies this
      ensures Continues(old(log), log, k)
      ensures r.None? ==> At(k, cr, ReportError(SecretNotReady))
      ensures r.Some? ==>
        var sub := cr.spec.subs[next];
        At(k, cr, AfterValues(cr, ctx, next + 1, values[sub.name := EscapeString(SubstitutionValue(r.value, sub))]))
    {
      var response, _ := Send(k, GetSecret(key), k);
      r := if response.ASecret? then Some(response.secret) else None;
    }

    /** `failed` tells an error from a Secret that is not there. */
    method GetImportSecret(k: Key, key: Key, ghost cr: Import, ghost ctx: Context, ghost values: map<string, string>)
      returns (failed: bool, r: Option<Secret>)
      requires key == SecretKey(k, cr) && At(k, cr, ReadSecret(ctx, values))
      modifies this
      ensures Continues(old(log), log, k)
      ensures At(k, cr, if failed then ReportError(SecretNotReady) else AfterRead(k, cr, ctx, values, r))
      ensures r.Some? ==> key in s.c.secrets && s.c.secrets[key] == r.value
    {
      var response, _ := Send(k, GetSecret(key), k);
      failed := response.Refused?;
      r := if response.ASecret? then Some(response.secret) else None;
    }

    method PutSecret(k: Key, key: Key, seen: Option<nat>, labels: Labels, data: map<string, string>, ghost cr: Import,
        ghost ctx: Context)
      returns (version: Option<nat>)
      requires key == SecretKey(k, cr) && labels == SecretLabels(k) && At(k, cr, WriteRealm(ctx, seen, data))
      modifies this
      ensures Continues(old(log), log, k)
      ensures At(k, cr, if version.None? then ReportError(SecretNotReady) else ListJobs(ctx, version.value))
      ensures version.Some? ==> key in s.c.secrets && s.c.secrets[key] == Secret(version.value, labels, data)
    {
      var response, _ := Send(k, PutSecretData(key, seen, labels, data), k);
      version := if response.AVersion? then Some(response.version) else None;
    }

    method ListJobsOf(k: Key, ns: string, selector: Labels, ghost cr: Import, ghost ctx: Context, ghost version: nat)
      returns (r: Option<seq<(Key, Job)>>)
      requires ns == cr.spec.target.ns && selector == map[Owner := Text(k.name)] && At(k, cr, ListJobs(ctx, version))
      modifies this
      ensures Continues(old(log), log, k)
      ensures r.None? ==> At(k, cr, ReportError(JobsUnavailable))
      ensures r.Some? ==>
        Distinct(r.value) && AsMap(r.value) == ListedJobs(s.c, k, cr) &&
        At(k, cr, AfterScan(ctx, version, AsMap(r.value)))
    {
      var response, _ := Send(k, FindJobs(ns, selector), k);
      Listings(s.c, k, cr);
      if !response.SomeJobs? { return None; }
      var items := Enumerate(response.jobs);
      r := Some(items);
    }

    method DeleteStaleJob(k: Key, key: Key, ghost cr: Import, ghost ctx: Context, ghost version: nat,
        ghost jobs: map<Key, Job>)
      returns (ok: bool)
      requires At(k, cr, ScanJobs(ctx, version, jobs)) && key in jobs
      requires !Carries(jobs[key].labels, VersionLabel(k), Version(version))
      modifies this
      ensures Moves(old(log), log, k, [key])
      ensures At(k, cr, if ok then AfterScan(ctx, version, jobs - {key}) else ReportError(OldJobNotDeleted))
      ensures ok ==> key in s.c.jobs && s.c.jobs[key].terminating
    {
      var response, _ := Send(k, EraseJob(key), key);
      ok := response.Accepted?;
    }

    /** Leaving the loop is no request: the machine only notes which Job was found. */
    ghost method Settle(k: Key, cr: Import, ctx: Context, version: nat, jobs: map<Key, Job>, key: Key)
      requires At(k, cr, ScanJobs(ctx, version, jobs)) && key in jobs
      requires Carries(jobs[key].labels, VersionLabel(k), Version(version))
      modifies this`log, this`all
      ensures Moves(old(log), log, k, [key]) && At(k, cr, AfterFound(k, ctx, version, jobs[key]))
    {
      var a := StepImportPass(k, key, false);
      Logged(log, a);
      OneMove(log, log, a, k);
      assert Without(Apply(all, a), k).passes == s.passes;
      all, log := Apply(all, a), log + [a];
    }

    method PostJob(k: Key, key: Key, labels: Labels, ghost cr: Import, ghost ctx: Context,
        ghost version: nat) returns (ok: bool)
      requires key == JobKey(k, cr) && labels == JobLabels(k, version) && At(k, cr, StartJob(ctx, version))
      modifies this
      ensures Continues(old(log), log, k)
      ensures if ok then At(k, cr, ReportError(WaitForJob)) else Over(k)
      ensures ok ==> key in s.c.jobs && s.c.jobs[key] == Job(s.c.rv, labels, [], false)
    {
      var response, _ := Send(k, Request.PostJob(key, labels), k);
      ok := response.Accepted?;
    }

    method UpdateStatefulSet(k: Key, q: Key, sts: StatefulSet, annotations: map<string, nat>, workload: Workload,
                             ghost cr: Import, ghost ctx: Context, ghost version: nat, ghost job: Job)
      returns (r: Option<StatefulSet>)
      requires q == cr.spec.target && sts == ctx.sts && workload == sts.workload &&
        At(k, cr, Rollout(ctx, version, job))
      requires annotations == sts.annotations[AnnotationKey(k) := version]
      modifies this
      ensures Continues(old(log), log, k)
      ensures if r.Some? then At(k, cr, ReportReady(ctx.(sts := r.value), version, job)) else Over(k)
      ensures r.Some? ==> q in s.c.sets && s.c.sets[q] == r.value && r.value.annotations == annotations
    {
      var response, _ := Send(k, PutStatefulSet(q, sts, annotations, workload), k);
      r := if response.AStatefulSet? then Some(response.sts) else None;
    }

    method UpdateImportStatus(k: Key, cr: Import, status: Status) returns (ok: bool)
      requires Sees(k) && k in all.passes && all.passes[k].cr == cr
      requires var t := all.passes[k].stage;
        (t.ReportReady? && status == Ready) || (t.ReportError? && status == NotReady(t.reason))
      modifies this
      ensures Continues(old(log), log, k) && Over(k)
      ensures ok ==> k in s.c.imports && s.c.imports[k].status == status
    {
      var response, _ := Send(k, PutStatus(k, cr, status), k);
      ok := response.Accepted?;
    }

    method ListOwnedJobs(k: Key, ns: string, selector: Labels, ghost cr: Import) returns (r: Option<seq<Key>>)
      requires ns == cr.spec.target.ns && selector == OwnerLabels(k) && At(k, cr, CleanListJobs)
      modifies this
      ensures Moves(old(log), log, k, [k])
      ensures if r.None? then Over(k) else NoRepeats(r.value) && At(k, cr, AfterJobs(AsSet(r.value)))
      ensures r.Some? ==> AsSet(r.value) == OwnedJobs(all.c, k, cr)
    {
      var response, _ := Send(k, FindJobs(ns, selector), k);
      Listings(s.c, k, cr);
      if !response.SomeJobs? { return None; }
      var keys := Keys(response.jobs.Keys);
      r := Some(keys);
    }

    method DeleteOwnedJob(k: Key, key: Key, ghost cr: Import, ghost todo: set<Key>) returns (ok: bool)
      requires At(k, cr, CleanJobs(todo)) && key in todo
      modifies this
      ensures Moves(old(log), log, k, [key])
      ensures if ok then At(k, cr, AfterJobs(todo - {key})) else Over(k)
      ensures ok ==> key in s.c.jobs && s.c.jobs[key].terminating
    {
      var response, _ := Send(k, EraseJob(key), key);
      ok := response.Accepted?;
    }

    method ListOwnedSecrets(k: Key, ns: string, selector: Labels, ghost cr: Import) returns (r: Option<seq<Key>>)
      requires ns == cr.spec.target.ns && selector == OwnerLabels(k) && At(k, cr, CleanListSecrets)
      modifies this
      ensures Moves(old(log), log, k, [k])
      ensures if r.None? then Over(k) else NoRepeats(r.value) && At(k, cr, AfterSecrets(AsSet(r.value)))
      ensures r.Some? ==> AsSet(r.value) == OwnedSecrets(all.c, k, cr)
    {
      var response, _ := Send(k, FindSecrets(ns, selector), k);
      Listings(s.c, k, cr);
      if !response.SomeSecrets? { return None; }
      var keys := Keys(response.keys);
      r := Some(keys);
    }

    method DeleteOwnedSecret(k: Key, key: Key, ghost cr: Import, ghost todo: set<Key>) returns (ok: bool)
      requires At(k, cr, CleanSecrets(todo)) && key in todo
      modifies this
      ensures Moves(old(log), log, k, [key])
      ensures if ok then At(k, cr, AfterSecrets(todo - {key})) else Over(k)
      ensures ok ==> key !in s.c.secrets
    {
      var response, _ := Send(k, EraseSecret(key), key);
      ok := response.Accepted?;
    }
  }

  // Lists are sequences here; the machine keeps what is left of them as a map or a set.

  ghost predicate Distinct(items: seq<(Key, Job)>) {
    forall i, j :: 0 <= i < j < |items| ==> items[i].0 != items[j].0
  }

  ghost function AsMap(items: seq<(Key, Job)>): map<Key, Job> {
    if items == [] then map[] else AsMap(items[..|items| - 1])[items[|items| - 1].0 := items[|items| - 1].1]
  }

  ghost function AsSet(keys: seq<Key>): set<Key> {
    set key | key in keys
  }

  method Keys(keys: set<Key>) returns (r: seq<Key>)
    ensures NoRepeats(r) && AsSet(r) == keys
  {
    var rest := keys;
    r := [];
    while rest != {}
      invariant NoRepeats(r) && AsSet(r) + rest == keys && AsSet(r) !! rest
    {
      var key :| key in rest;
      assert key !in r;
      assert AsSet(r + [key]) == AsSet(r) + {key};
      r, rest := r + [key], rest - {key};
    }
  }

  lemma {:induction false} AsMapKeys(items: seq<(Key, Job)>)
    requires Distinct(items)
    ensures forall key :: key in AsMap(items) <==> exists i :: 0 <= i < |items| && items[i].0 == key
    ensures forall i :: 0 <= i < |items| ==> items[i].0 in AsMap(items) && AsMap(items)[items[i].0] == items[i].1
  {
    if items != [] {
      AsMapKeys(items[..|items| - 1]);
    }
  }

  /** A list of the entries of a map, in some order. */
  method Enumerate(m: map<Key, Job>) returns (items: seq<(Key, Job)>)
    ensures Distinct(items) && AsMap(items) == m
  {
    var rest := m.Keys;
    items := [];
    while rest != {}
      invariant Distinct(items) && rest <= m.Keys
      invariant forall i :: 0 <= i < |items| ==> items[i].0 in m && items[i].0 !in rest
      invariant AsMap(items) == map key | key in m && key !in rest :: m[key]
    {
      var key :| key in rest;
      var longer := items + [(key, m[key])];
      assert longer[..|items|] == items;
      items, rest := longer, rest - {key};
    }
  }
}
