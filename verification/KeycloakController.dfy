/** The Keycloak controller, the other writer of the StatefulSet, as an imperative program against
    the same API server, with its own pass in ghost state only. */
module KeycloakController {
  import opened Names
  import opened Cluster
  import opened Passes
  import opened System
  import opened Coherence
  import opened Requests
  import opened ApiServer

  /** How the calls for the objects that are not modelled turn out in one pass. */
  datatype Surroundings = Surroundings(service: bool, route: bool, host: string, discovery: bool, monitor: bool)

  predicate OfKeycloakPass(a: Action, q: Key) {
    (a.BeginKeycloakPass? || a.StepKeycloakPass? || a.CrashKeycloakPass?) && a.q == q
  }

  /** From `before` to `after`, the pass of `q` does nothing but step. */
  ghost predicate KeycloakContinues(before: seq<Action>, after: seq<Action>, q: Key) {
    before <= after && forall i :: |before| <= i < |after| && OfKeycloakPass(after[i], q) ==> after[i].StepKeycloakPass?
  }

  ghost predicate KeycloakBeginsAt(before: seq<Action>, after: seq<Action>, q: Key, m: int)
    requires |before| <= m < |after|
  {
    after[m].BeginKeycloakPass? && after[m].q == q && KeycloakContinues(after[..m + 1], after, q) &&
    forall i :: |before| <= i < m ==> !OfKeycloakPass(after[i], q)
  }

  /** From `before` to `after`, a pass of `q` begins, once, and is not cut off. */
  ghost predicate FullKeycloakPass(before: seq<Action>, after: seq<Action>, q: Key) {
    before <= after && exists m :: |before| <= m < |after| && KeycloakBeginsAt(before, after, q, m)
  }

  lemma KeycloakPassContinues(before: seq<Action>, middle: seq<Action>, after: seq<Action>, q: Key)
    requires FullKeycloakPass(before, middle, q) && KeycloakContinues(middle, after, q)
    ensures FullKeycloakPass(before, after, q)
  {
    var m :| |before| <= m < |middle| && KeycloakBeginsAt(before, middle, q, m);
    assert after[..m + 1] == middle[..m + 1];
    assert KeycloakBeginsAt(before, after, q, m);
  }

  function Absent(s: State, q: Key): State {
    s.(keycloakPasses := s.keycloakPasses - {q})
  }

  /** The world holds everything but the pass of `q`. */
  ghost predicate Sees(w: World, q: Key)
    reads w
  {
    w.all == Exec(w.log) && w.s == Absent(w.all, q)
  }

  /** The pass of `q` is about to make this request. */
  ghost predicate At(w: World, q: Key, p: KeycloakPass)
    reads w
  {
    Sees(w, q) && q in w.all.keycloakPasses && w.all.keycloakPasses[q] == p
  }

  ghost predicate Over(w: World, q: Key)
    reads w
  {
    Sees(w, q) && q !in w.all.keycloakPasses
  }

  /** Others neither see the pass of `q` nor move it. */
  lemma KeycloakOblivious(s: State, a: Action, q: Key)
    requires !OfKeycloakPass(a, q)
    ensures Apply(Absent(s, q), a) == Absent(Apply(s, a), q)
    ensures q in Apply(s, a).keycloakPasses <==> q in s.keycloakPasses
    ensures q in s.keycloakPasses ==> Apply(s, a).keycloakPasses[q] == s.keycloakPasses[q]
  {
    assert Enabled(Absent(s, q), a) <==> Enabled(s, a);
    if a.BeginKeycloakPass? || a.StepKeycloakPass? || a.CrashKeycloakPass? {
      OtherKeycloakPasses(s.keycloakPasses, a.q, q);
    }
  }

  lemma OtherKeycloakPasses(passes: map<Key, KeycloakPass>, j: Key, q: Key)
    requires j != q
    ensures (passes - {q}) - {j} == (passes - {j}) - {q}
  {
  }

  /** The next call to the API server fails. */
  predicate NextFails(turns: seq<Turn>) {
    turns != [] && turns[0].fault
  }

  /** From `before` to `after`, no pass of `q` does anything. */
  ghost predicate KeycloakIdle(before: seq<Action>, after: seq<Action>, q: Key) {
    before <= after && forall i :: |before| <= i < |after| ==> !OfKeycloakPass(after[i], q)
  }

  /** Everybody else takes a turn. */
  method Yield(w: World, q: Key) returns (fault: bool)
    requires Sees(w, q)
    modifies w
    ensures Sees(w, q) && KeycloakIdle(old(w.log), w.log, q)
    ensures fault == NextFails(old(w.turns))
    ensures q in w.all.keycloakPasses <==> q in old(w.all.keycloakPasses)
    ensures q in w.all.keycloakPasses ==> w.all.keycloakPasses[q] == old(w.all.keycloakPasses)[q]
  {
    if w.turns == [] { return false; }
    var others := w.turns[0].others;
    fault := w.turns[0].fault;
    w.turns := w.turns[1..];
    for i := 0 to |others|
      invariant Sees(w, q) && KeycloakIdle(old(w.log), w.log, q)
      invariant q in w.all.keycloakPasses <==> q in old(w.all.keycloakPasses)
      invariant q in w.all.keycloakPasses ==> w.all.keycloakPasses[q] == old(w.all.keycloakPasses)[q]
    {
      if !OfKeycloakPass(others[i], q) {
        KeycloakOblivious(w.all, others[i], q);
        Logged(w.log, others[i]);
        w.s := Apply(w.s, others[i]);
        w.all, w.log := Apply(w.all, others[i]), w.log + [others[i]];
      }
    }
  }

  lemma KeycloakStepServed(log: seq<Action>, all: State, q: Key, request: Request, fault: bool, broken: bool)
    requires all == Exec(log) && q in all.keycloakPasses
    requires request == NextKeycloakRequest(q, all.keycloakPasses[q], broken)
    ensures var a := StepKeycloakPass(q, fault, broken);
      && (log + [a])[..|log|] == log && Exec(log + [a]) == Apply(all, a)
      && Absent(Apply(all, a), q) == Absent(all, q).(c := Serve(all.c, request, fault).cluster)
      && var n := StepKeycloak(all.c, q, all.keycloakPasses[q], fault, broken);
      && (q in Apply(all, a).keycloakPasses <==> n.pass.Some?)
      && (n.pass.Some? ==> Apply(all, a).keycloakPasses[q] == n.pass.value)
  {
    var a := StepKeycloakPass(q, fault, broken);
    KeycloakStepIsRequest(all.c, q, all.keycloakPasses[q], fault, broken);
    Logged(log, a);
    assert Absent(Apply(all, a), q).keycloakPasses == all.keycloakPasses - {q};
  }

  /** At this moment of the run, the pass of `q` makes a request that is refused. */
  ghost predicate RefusedAt(log: seq<Action>, m: int, q: Key) {
    0 <= m < |log| && log[m].StepKeycloakPass? && log[m].q == q && q in Exec(log[..m]).keycloakPasses &&
    var s, a := Exec(log[..m]), log[m];
    Serve(s.c, NextKeycloakRequest(q, s.keycloakPasses[q], a.broken), a.fault).response.Refused?
  }

  /** At this moment of the run, a pass begins and does not find its Keycloak. */
  ghost predicate NotFoundAt(log: seq<Action>, m: int, q: Key) {
    0 <= m < |log| && log[m].BeginKeycloakPass? && log[m].q == q && q !in Exec(log[..m]).c.keycloaks
  }

  ghost predicate SetAt(log: seq<Action>, m: int, q: Key, sts: StatefulSet) {
    0 <= m <= |log| && q in Exec(log[..m]).c.sets && Exec(log[..m]).c.sets[q] == sts
  }

  /** What was so at a moment of the run stays so. */
  lemma Past(log: seq<Action>, longer: seq<Action>, m: int, q: Key)
    requires log <= longer && 0 <= m <= |log|
    ensures longer[..m] == log[..m]
    ensures RefusedAt(log, m, q) ==> RefusedAt(longer, m, q)
    ensures forall sts :: SetAt(log, m, q, sts) ==> SetAt(longer, m, q, sts)
  {
  }

  /** One request of the pass of `q`. It must be the one the machine makes. */
  method Send(w: World, q: Key, request: Request, ghost broken: bool) returns (response: Response, ghost fault: bool)
    requires Sees(w, q) && q in w.all.keycloakPasses
    requires request == NextKeycloakRequest(q, w.all.keycloakPasses[q], broken)
    modifies w
    ensures Sees(w, q) && KeycloakContinues(old(w.log), w.log, q) && |w.log| > |old(w.log)|
    ensures response.Refused? ==> RefusedAt(w.log, |w.log| - 1, q)
    ensures Reply(w.s.c, response) == Serve(w.Found(), request, fault)
    ensures q in w.FoundState().keycloakPasses && w.FoundState().keycloakPasses[q] == old(w.all.keycloakPasses)[q]
    ensures var n := StepKeycloak(w.Found(), q, old(w.all.keycloakPasses)[q], fault, broken);
            if n.pass.None? then Over(w, q) else At(w, q, n.pass.value)
  {
    var f := Yield(w, q);
    fault := f;
    var reply := Serve(w.s.c, request, f);
    response := reply.response;
    KeycloakStepServed(w.log, w.all, q, request, f, broken);
    w.s := w.s.(c := reply.cluster);
    w.all, w.log := Apply(w.all, StepKeycloakPass(q, f, broken)), w.log + [StepKeycloakPass(q, f, broken)];
  }

  /** What beginning a pass does to the run and to the state. */
  lemma KeycloakBegun(log: seq<Action>, all: State, q: Key, host: string, blocked: bool)
    requires all == Exec(log) && q !in all.keycloakPasses
    ensures var a := BeginKeycloakPass(q, host, blocked);
      && (log + [a])[..|log|] == log && Exec(log + [a]) == Apply(all, a)
      && Absent(Apply(all, a), q) == Absent(all, q)
      && (q in Apply(all, a).keycloakPasses <==> q in all.c.keycloaks)
      && (q in all.c.keycloaks ==>
            var kc := all.c.keycloaks[q];
            Apply(all, a).keycloakPasses[q] == if blocked then Report(kc, false) else ReadSet(kc, host))
  {
    var a := BeginKeycloakPass(q, host, blocked);
    Logged(log, a);
    assert Absent(Apply(all, a), q).keycloakPasses == all.keycloakPasses - {q};
  }

  lemma Begins(before: seq<Action>, middle: seq<Action>, a: Action, q: Key)
    requires KeycloakIdle(before, middle, q) && a.BeginKeycloakPass? && a.q == q
    ensures FullKeycloakPass(before, middle + [a], q)
  {
    var after := middle + [a];
    assert after[..|after|] == after;
    assert KeycloakBeginsAt(before, after, q, |middle|);
  }

  /** Reads the Keycloak. The Service and Route calls that follow touch nothing that is modelled. */
  method GetKeycloak(w: World, q: Key, ghost host: string, ghost blocked: bool) returns (failed: bool,
      r: Option<Keycloak>)
    requires Over(w, q)
    modifies w
    ensures failed == NextFails(old(w.turns))
    ensures failed ==> r.None? && KeycloakIdle(old(w.log), w.log, q)
    ensures !failed ==> FullKeycloakPass(old(w.log), w.log, q) && |w.log| > |old(w.log)|
    ensures !failed && r.None? ==> NotFoundAt(w.log, |w.log| - 1, q)
    ensures r.Some? ==> q in w.s.c.keycloaks && w.s.c.keycloaks[q] == r.value
    ensures if r.None? then Over(w, q) else At(w, q, if blocked then Report(r.value, false) else ReadSet(r.value, host))
  {
    failed := Yield(w, q);
    if failed { return true, None; }
    var response := Read(w.s.c, Request.GetKeycloak(q));
    r := if response.AKeycloak? then Some(response.keycloak) else None;
    ghost var a := BeginKeycloakPass(q, host, blocked);
    KeycloakBegun(w.log, w.all, q, host, blocked);
    Begins(old(w.log), w.log, a, q);
    w.all, w.log := Apply(w.all, a), w.log + [a];
  }

  /** The desired StatefulSet of a Keycloak, and the one the last call returned. */
  class KeycloakStatefulSet {
    const q: Key
    const keycloak: Keycloak
    const host: string
    var resource: Option<StatefulSet>

    constructor (q: Key, keycloak: Keycloak, host: string)
      ensures this.q == q && this.keycloak == keycloak && this.host == host
    {
      this.q, this.keycloak, this.host, this.resource := q, keycloak, host, None;
    }

    /** Creates the StatefulSet, or rebuilds it around the template annotations it was read with,
        or leaves it alone when it is already as desired. Either way the StatefulSet is then stored
        as desired, and it has exactly the annotations that it had just before. */
    method CreateOrUpdate(w: World) returns (ok: bool)
      requires At(w, q, ReadSet(keycloak, host))
      modifies this, w
      ensures KeycloakContinues(old(w.log), w.log, q) && |w.log| > |old(w.log)|
      ensures At(w, q,
        Report(keycloak, ok && resource.Some? && resource.value.readyReplicas == resource.value.replicas))
      ensures !ok ==> RefusedAt(w.log, |w.log| - 1, q)
      ensures ok ==> w.log != [] && resource.Some? && resource.value.workload == Workload(keycloak.spec, host)
      ensures ok ==> q in w.s.c.sets && w.s.c.sets[q] == resource.value
      ensures ok ==> resource.value.annotations == if q in w.Found().sets then w.Found().sets[q].annotations else map[]
    {
      var desired := Workload(keycloak.spec, host);
      var response, _ := Send(w, q, GetStatefulSet(q), false);
      if response.Refused? { return false; }
      if response.AStatefulSet? && response.sts.workload == desired {
        resource := Some(response.sts);
        return true;
      }
      ok := Write(w, if response.AStatefulSet? then Some(response.sts) else None, desired);
    }

    method Write(w: World, seen: Option<StatefulSet>, desired: Workload) returns (ok: bool)
      requires desired == Workload(keycloak.spec, host) && At(w, q, WriteSet(keycloak, seen, desired))
      modifies this, w
      ensures KeycloakContinues(old(w.log), w.log, q) && |w.log| > |old(w.log)|
      ensures At(w, q,
        Report(keycloak, ok && resource.Some? && resource.value.readyReplicas == resource.value.replicas))
      ensures !ok ==> RefusedAt(w.log, |w.log| - 1, q)
      ensures ok ==> w.log != [] && resource.Some? && resource.value.workload == desired
      ensures ok ==> q in w.s.c.sets && w.s.c.sets[q] == resource.value
      ensures ok ==> resource.value.annotations == if q in w.Found().sets then w.Found().sets[q].annotations else map[]
    {
      var request := if seen.Some? then PutStatefulSet(q, seen.value, seen.value.annotations, desired)
                     else PostStatefulSet(q, desired);
      var response, _ := Send(w, q, request, false);
      WrittenAsSeen(w.log[..|w.log| - 1], q);
      if !response.AStatefulSet? { return false; }
      resource := Some(response.sts);
      return true;
    }
  }

  /** A pass about to write has the StatefulSet in hand, if the stored one still has that version. */
  lemma WrittenAsSeen(run: seq<Action>, q: Key)
    requires q in Exec(run).keycloakPasses
    ensures KeycloakPassOk(Exec(run).c, q, Exec(run).keycloakPasses[q])
  {
    ReachableCoherent(run);
  }

  /** Writes the status; `ready` is what the pass reports. */
  method UpdateKeycloakReady(w: World, q: Key, cr: Keycloak, ghost may: bool, ready: bool) returns (ok: bool)
    requires At(w, q, Report(cr, may)) && (ready ==> may)
    modifies w
    ensures KeycloakContinues(old(w.log), w.log, q) && Over(w, q)
    ensures ok ==> q in w.s.c.keycloaks && w.s.c.keycloaks[q].ready == ready
    ensures !ok ==> RefusedAt(w.log, |w.log| - 1, q)
  {
    var response, _ := Send(w, q, PutKeycloakReady(q, cr, ready), !ready);
    ok := response.Accepted?;
  }

  method HandleError(w: World, q: Key, cr: Keycloak, ghost may: bool) returns (ok: bool)
    requires At(w, q, Report(cr, may))
    modifies w
    ensures KeycloakContinues(old(w.log), w.log, q) && Over(w, q)
    ensures ok ==> q in w.s.c.keycloaks && !w.s.c.keycloaks[q].ready
    ensures !ok ==> RefusedAt(w.log, |w.log| - 1, q)
  {
    ok := UpdateKeycloakReady(w, q, cr, may, false);
  }

  method HandleSuccess(w: World, q: Key, cr: Keycloak) returns (ok: bool)
    requires At(w, q, Report(cr, true))
    modifies w
    ensures KeycloakContinues(old(w.log), w.log, q) && Over(w, q)
    ensures ok ==> q in w.s.c.keycloaks && w.s.c.keycloaks[q].ready
    ensures !ok ==> RefusedAt(w.log, |w.log| - 1, q)
  {
    ok := UpdateKeycloakReady(w, q, cr, true, true);
  }

  /** One pass over Keycloak `q`, whatever others do meanwhile: a run of the system in which the pass
      of `q` begins and ends, unless the Keycloak cannot even be read.

      If the Keycloak is there (`reported`), the pass ends with a status write, and `ok` tells whether
      it was accepted. The Keycloak is then ready exactly if all four other objects were set up, the
      StatefulSet was (`made`, as it was at moment `m`), and all replicas of that StatefulSet were
      ready. Otherwise its request was refused at moment `m`. */
  method Reconcile(w: World, q: Key, around: Surroundings)
    returns (ok: bool, ghost reported: bool, ghost made: Option<StatefulSet>, ghost m: nat)
    requires Over(w, q)
    modifies w
    ensures Over(w, q)
    ensures NextFails(old(w.turns)) ==> !ok && !reported && KeycloakIdle(old(w.log), w.log, q)
    ensures !NextFails(old(w.turns)) ==> FullKeycloakPass(old(w.log), w.log, q) && |old(w.log)| <= m <= |w.log|
    ensures !NextFails(old(w.turns)) && !reported ==> NotFoundAt(w.log, m, q)
    ensures reported && !ok ==> RefusedAt(w.log, |w.log| - 1, q)
    ensures reported && ok ==>
      q in w.s.c.keycloaks &&
      (w.s.c.keycloaks[q].ready <==>
         around.service && around.route && around.discovery && around.monitor &&
         made.Some? && made.value.readyReplicas == made.value.replicas)
    ensures made.Some? ==> SetAt(w.log, m, q, made.value) && made.value.workload.host == around.host
    ensures reported && around.service && around.route && made.None? ==> RefusedAt(w.log, m, q)
  {
    reported, made, m := false, None, |w.log|;
    var failed, got := GetKeycloak(w, q, around.host, !around.service || !around.route);
    if failed { return false, false, None, 0; }
    m := |w.log| - 1;
    if got.None? { return true, false, None, m; }
    reported := true;
    ghost var begun := w.log;
    ok, made, m := Proceed(w, q, got.value, around);
    KeycloakPassContinues(old(w.log), begun, w.log, q);
  }

  /** The pass from the Service on. */
  method Proceed(w: World, q: Key, cr: Keycloak, around: Surroundings)
    returns (ok: bool, ghost made: Option<StatefulSet>, ghost m: nat)
    requires At(w, q, if !around.service || !around.route then Report(cr, false) else ReadSet(cr, around.host))
    modifies w
    ensures Over(w, q) && KeycloakContinues(old(w.log), w.log, q) && |old(w.log)| <= m <= |w.log|
    ensures !ok ==> RefusedAt(w.log, |w.log| - 1, q)
    ensures ok ==>
      q in w.s.c.keycloaks &&
      (w.s.c.keycloaks[q].ready <==>
         around.service && around.route && around.discovery && around.monitor &&
         made.Some? && made.value.readyReplicas == made.value.replicas)
    ensures made.Some? ==> SetAt(w.log, m, q, made.value) && made.value.workload.host == around.host
    ensures around.service && around.route && made.None? ==> RefusedAt(w.log, m, q)
  {
    made, m := None, |w.log|;
    if !around.service {
      ok := HandleError(w, q, cr, false);
    } else if !around.route {
      ok := HandleError(w, q, cr, false);
    } else {
      ok, made, m := SetUp(w, q, cr, around);
    }
  }

  /** The pass from the StatefulSet on. */
  method SetUp(w: World, q: Key, cr: Keycloak, around: Surroundings)
    returns (ok: bool, ghost made: Option<StatefulSet>, ghost m: nat)
    requires around.service && around.route && At(w, q, ReadSet(cr, around.host))
    modifies w
    ensures Over(w, q) && KeycloakContinues(old(w.log), w.log, q) && |old(w.log)| <= m <= |w.log|
    ensures !ok ==> RefusedAt(w.log, |w.log| - 1, q)
    ensures ok ==>
      q in w.s.c.keycloaks &&
      (w.s.c.keycloaks[q].ready <==>
         around.discovery && around.monitor && made.Some? && made.value.readyReplicas == made.value.replicas)
    ensures if made.Some? then SetAt(w.log, m, q, made.value) && made.value.workload.host == around.host
            else RefusedAt(w.log, m, q)
  {
    var statefulSet := new KeycloakStatefulSet(q, cr, around.host);
    ok := statefulSet.CreateOrUpdate(w);
    var sts := if ok then statefulSet.resource else None;
    made := sts;
    m := if ok then |w.log| else |w.log| - 1;
    ghost var settled := w.log;
    assert settled[..|settled|] == settled;
    ok := Conclude(w, q, cr, around, sts);
    Past(settled, w.log, m, q);
  }

  /** The pass from the other objects on. */
  method Conclude(w: World, q: Key, cr: Keycloak, around: Surroundings, sts: Option<StatefulSet>) returns (ok: bool)
    requires At(w, q, Report(cr, sts.Some? && sts.value.readyReplicas == sts.value.replicas))
    modifies w
    ensures Over(w, q) && KeycloakContinues(old(w.log), w.log, q)
    ensures !ok ==> RefusedAt(w.log, |w.log| - 1, q)
    ensures ok ==>
      q in w.s.c.keycloaks &&
      (w.s.c.keycloaks[q].ready <==>
         around.discovery && around.monitor && sts.Some? && sts.value.readyReplicas == sts.value.replicas)
  {
    ghost var may := sts.Some? && sts.value.readyReplicas == sts.value.replicas;
    if sts.None? {
      ok := HandleError(w, q, cr, may);
    } else if !around.discovery {
      ok := HandleError(w, q, cr, may);
    } else if !around.monitor {
      ok := HandleError(w, q, cr, may);
    } else if IsStatefulSetReady(sts.value) {
      ok := HandleSuccess(w, q, cr);
    } else {
      ok := HandleError(w, q, cr, false);
    }
  }
}
