/** Which imports a change of a Secret, a Keycloak or a Job wakes, and which status changes count. */
module Wakeup {
  import opened Names
  import opened Cluster
  import opened Passes

  /** An import as a handler finds it in its list. */
  datatype Item = Item(key: Key, spec: ImportSpec)

  /** A selector compares texts: a version matches a name that is spelt like it. */
  predicate MatchText(labels: Labels, wanted: Labels) {
    forall l | l in wanted :: l in labels && LabelText(labels[l]) == LabelText(wanted[l])
  }

  predicate HasSecretReference(spec: ImportSpec, name: string) {
    exists i :: 0 <= i < |spec.subs| && spec.subs[i].secretName == name
  }

  // When each handler selects an import.

  predicate WokenBySecret(i: Item, key: Key, labels: Labels) {
    MatchText(labels, map[Owner := Text(i.key.name)]) || HasSecretReference(i.spec, key.name)
  }

  predicate WokenByKeycloak(i: Item, q: Key) {
    i.spec.target.name == q.name && i.spec.target.ns == q.ns
  }

  predicate WokenByJob(i: Item, labels: Labels) {
    MatchText(labels, OwnerLabels(i.key))
  }

  /** The keys of the selected imports, in list order. */
  ghost function Requests(imports: seq<Item>, woken: Item -> bool): seq<Key> {
    if imports == [] then []
    else
      var last := |imports| - 1;
      Requests(imports[..last], woken) + (if woken(imports[last]) then [imports[last].key] else [])
  }

  /** A request is made for exactly the imports that are selected. */
  lemma {:induction false} RequestsExact(imports: seq<Item>, woken: Item -> bool, k: Key)
    ensures k in Requests(imports, woken) <==>
      exists i :: 0 <= i < |imports| && imports[i].key == k && woken(imports[i])
  {
    if imports != [] {
      RequestsExact(imports[..|imports| - 1], woken, k);
    }
  }

  /** The search loop behind `HasSecretReference`. */
  method FindReference(spec: ImportSpec, name: string) returns (found: bool)
    ensures found == HasSecretReference(spec, name)
  {
    for i := 0 to |spec.subs|
      invariant forall j :: 0 <= j < i ==> spec.subs[j].secretName != name
    {
      if spec.subs[i].secretName == name { return true; }
    }
    return false;
  }

  method HandleSecretChanged(imports: seq<Item>, key: Key, labels: Labels) returns (requests: seq<Key>)
    ensures requests == Requests(imports, i => WokenBySecret(i, key, labels))
    ensures forall k :: k in requests <==>
      exists n :: 0 <= n < |imports| && imports[n].key == k &&
        ((Owner in labels && LabelText(labels[Owner]) == k.name) ||
         exists j :: 0 <= j < |imports[n].spec.subs| && imports[n].spec.subs[j].secretName == key.name)
  {
    ghost var woken := (i: Item) => WokenBySecret(i, key, labels);
    requests := [];
    for n := 0 to |imports|
      invariant requests == Requests(imports[..n], woken)
    {
      assert imports[..n + 1][..n] == imports[..n];
      var referenced := FindReference(imports[n].spec, key.name);
      if MatchText(labels, map[Owner := Text(imports[n].key.name)]) || referenced {
        requests := requests + [imports[n].key];
      }
    }
    assert imports[..|imports|] == imports;
    forall k ensures k in requests <==> exists n :: 0 <= n < |imports| && imports[n].key == k && woken(imports[n]) {
      RequestsExact(imports, woken, k);
    }
    forall i: Item ensures WokenBySecret(i, key, labels) <==>
      (Owner in labels && LabelText(labels[Owner]) == i.key.name) || HasSecretReference(i.spec, key.name)
    {
      NotOwned(labels, i.key);
    }
  }

  method HandleKeycloakChanged(imports: seq<Item>, q: Key) returns (requests: seq<Key>)
    ensures requests == Requests(imports, i => WokenByKeycloak(i, q))
    ensures forall k :: k in requests <==>
      exists n :: 0 <= n < |imports| && imports[n].key == k && imports[n].spec.target == q
  {
    ghost var woken := (i: Item) => WokenByKeycloak(i, q);
    requests := [];
    for n := 0 to |imports|
      invariant requests == Requests(imports[..n], woken)
    {
      assert imports[..n + 1][..n] == imports[..n];
      if imports[n].spec.target.name == q.name && imports[n].spec.target.ns == q.ns {
        requests := requests + [imports[n].key];
      }
    }
    assert imports[..|imports|] == imports;
    forall k ensures k in requests <==> exists n :: 0 <= n < |imports| && imports[n].key == k && woken(imports[n]) {
      RequestsExact(imports, woken, k);
    }
  }

  method HandleJobChanged(imports: seq<Item>, labels: Labels) returns (requests: seq<Key>)
    ensures requests == Requests(imports, i => WokenByJob(i, labels))
    ensures forall k :: k in requests <==>
      exists n :: 0 <= n < |imports| && imports[n].key == k &&
        Owner in labels && LabelText(labels[Owner]) == k.name &&
        OwnerNamespace in labels && LabelText(labels[OwnerNamespace]) == k.ns
  {
    ghost var woken := (i: Item) => WokenByJob(i, labels);
    requests := [];
    for n := 0 to |imports|
      invariant requests == Requests(imports[..n], woken)
    {
      assert imports[..n + 1][..n] == imports[..n];
      if MatchText(labels, OwnerLabels(imports[n].key)) {
        requests := requests + [imports[n].key];
      }
    }
    assert imports[..|imports|] == imports;
    forall k ensures k in requests <==> exists n :: 0 <= n < |imports| && imports[n].key == k && woken(imports[n]) {
      RequestsExact(imports, woken, k);
    }
    forall i: Item ensures WokenByJob(i, labels) <==>
      Owner in labels && LabelText(labels[Owner]) == i.key.name &&
      OwnerNamespace in labels && LabelText(labels[OwnerNamespace]) == i.key.ns
    {
      assert Owner in OwnerLabels(i.key) && OwnerNamespace in OwnerLabels(i.key);
    }
  }

  // ---------------------------------------------------------------- completeness

  /** The cluster with the Secret at `key` created, replaced or removed. */
  ghost predicate OnlySecretChanged(c: Cluster, c': Cluster, key: Key) {
    c'.keycloaks == c.keycloaks && c'.sets == c.sets && c'.jobs == c.jobs && c'.secrets - {key} == c.secrets - {key}
  }

  ghost predicate OnlyKeycloakChanged(c: Cluster, c': Cluster, q: Key) {
    c'.secrets == c.secrets && c'.sets == c.sets && c'.jobs == c.jobs && c'.keycloaks - {q} == c.keycloaks - {q}
  }

  /** The handler sees the object before the change, after it, or both, as far as they exist. */
  ghost predicate SecretEventWakes(c: Cluster, c': Cluster, key: Key, i: Item) {
    (key in c.secrets && WokenBySecret(i, key, c.secrets[key].labels)) ||
    (key in c'.secrets && WokenBySecret(i, key, c'.secrets[key].labels))
  }

  predicate OwnerReads(labels: Labels, k: Key) {
    Owner in labels && LabelText(labels[Owner]) == k.name
  }

  /** A Secret that holds the place of the import Secret of `k` without naming it as its owner. */
  ghost predicate Squats(c: Cluster, key: Key, k: Key, cr: Import) {
    key == SecretKey(k, cr) && (key in c.secrets ==> !OwnerReads(c.secrets[key].labels, k))
  }

  /** What the pass of `k` learns from the Secrets at this stage. */
  ghost function Learns(c: Cluster, k: Key, cr: Import, t: Stage, fault: bool): Option<Pass>
    requires t.Reading() || t.CleanListSecrets?
  {
    if t.Reading() then Some(Pass(cr, StepReading(c, k, cr, t, fault)))
    else StepCleaning(c, k, cr, t, k, fault).pass
  }

  /** A change of a Secret that alters what any pass of `k` reads wakes `k`, except when an import
      Secret that does not name `k` as its owner is replaced by another such Secret, or appears or
      disappears. */
  lemma SecretChangeWakes(c: Cluster, c': Cluster, key: Key, k: Key, cr: Import, t: Stage, fault: bool)
    requires OnlySecretChanged(c, c', key)
    requires t.Reading() || t.CleanListSecrets?
    requires Learns(c, k, cr, t, fault) != Learns(c', k, cr, t, fault)
    requires !(Squats(c, key, k, cr) && Squats(c', key, k, cr))
    ensures SecretEventWakes(c, c', key, Item(k, cr.spec))
  {
    SameBesides(c.secrets, c'.secrets, key);
    if t.CleanListSecrets? {
      if OwnedSecrets(c, k, cr) == OwnedSecrets(c', k, cr) {
        assert false;
      }
      var other :| (other in OwnedSecrets(c, k, cr)) != (other in OwnedSecrets(c', k, cr));
      assert other == key;
    } else if t.FetchValue? {
      assert t.next < |cr.spec.subs|;
      var sub := cr.spec.subs[t.next];
      assert Key(k.ns, sub.secretName) == key;
      assert HasSecretReference(cr.spec, key.name);
    } else {
      assert t.ReadSecret? && SecretKey(k, cr) == key;
    }
  }

  lemma SameBesides<V>(m: map<Key, V>, m': map<Key, V>, key: Key)
    requires m' - {key} == m - {key}
    ensures forall other | other != key :: other in m <==> other in m'
    ensures forall other | other != key && other in m :: m[other] == m'[other]
  {
    forall other | other != key ensures other in m <==> other in m' {
      assert other in m <==> other in m - {key};
      assert other in m' <==> other in m' - {key};
    }
    forall other | other != key && other in m ensures m[other] == m'[other] {
      assert (m - {key})[other] == (m' - {key})[other];
    }
  }

  /** The exception is real: whatever the import, when two squatters follow each other and no
      substitution mentions the name, nobody is woken. */
  lemma SquattersGoUnnoticed(c: Cluster, c': Cluster, key: Key, k: Key, cr: Import)
    requires Squats(c, key, k, cr) && Squats(c', key, k, cr)
    ensures SecretEventWakes(c, c', key, Item(k, cr.spec)) <==>
              HasSecretReference(cr.spec, key.name) && (key in c.secrets || key in c'.secrets)
  {
    if key in c.secrets {
      NotOwned(c.secrets[key].labels, k);
    }
    if key in c'.secrets {
      NotOwned(c'.secrets[key].labels, k);
    }
  }

  /** Such a change does alter what a pass reads, for instance when a squatter appears. */
  lemma SquatterAltersReading(c: Cluster, c': Cluster, k: Key, cr: Import, ctx: Context, values: map<string, string>)
    requires RealmData(k, cr, values).Some?
    requires SecretKey(k, cr) !in c.secrets && SecretKey(k, cr) in c'.secrets
    requires Squats(c', SecretKey(k, cr), k, cr)
    ensures Learns(c, k, cr, ReadSecret(ctx, values), false) != Learns(c', k, cr, ReadSecret(ctx, values), false)
  {
    assert Carries(SecretLabels(k), Owner, Text(k.name));
  }

  lemma NotOwned(labels: Labels, k: Key)
    ensures MatchText(labels, map[Owner := Text(k.name)]) <==> OwnerReads(labels, k)
    ensures Carries(labels, Owner, Text(k.name)) ==> OwnerReads(labels, k)
  {
    assert Owner in map[Owner := Text(k.name)];
  }

  /** A change of a Keycloak that alters what any pass of `k` reads wakes `k`. */
  lemma KeycloakChangeWakes(c: Cluster, c': Cluster, q: Key, k: Key, cr: Import, t: Stage, fault: bool)
    requires OnlyKeycloakChanged(c, c', q)
    requires t.Reading() && StepReading(c, k, cr, t, fault) != StepReading(c', k, cr, t, fault)
    ensures WokenByKeycloak(Item(k, cr.spec), q)
  {
    SameBesides(c.keycloaks, c'.keycloaks, q);
  }

  /** Wake-up completeness for Secrets: whatever imports there are besides `k`, the handler's result
      for the object before or after such a change contains `k`. */
  lemma SecretChangeRequested(
    c: Cluster, c': Cluster, key: Key, k: Key, cr: Import, t: Stage, fault: bool, imports: seq<Item>)
    requires OnlySecretChanged(c, c', key) && Item(k, cr.spec) in imports
    requires t.Reading() || t.CleanListSecrets?
    requires Learns(c, k, cr, t, fault) != Learns(c', k, cr, t, fault)
    requires !(Squats(c, key, k, cr) && Squats(c', key, k, cr))
    ensures (key in c.secrets && k in Requests(imports, i => WokenBySecret(i, key, c.secrets[key].labels))) ||
            (key in c'.secrets && k in Requests(imports, i => WokenBySecret(i, key, c'.secrets[key].labels)))
  {
    SecretChangeWakes(c, c', key, k, cr, t, fault);
    var labels := if key in c.secrets && WokenBySecret(Item(k, cr.spec), key, c.secrets[key].labels)
      then c.secrets[key].labels else c'.secrets[key].labels;
    RequestsExact(imports, i => WokenBySecret(i, key, labels), k);
  }

  /** Wake-up completeness for Keycloaks. */
  lemma KeycloakChangeRequested(
    c: Cluster, c': Cluster, q: Key, k: Key, cr: Import, t: Stage, fault: bool, imports: seq<Item>)
    requires OnlyKeycloakChanged(c, c', q) && Item(k, cr.spec) in imports
    requires t.Reading() && StepReading(c, k, cr, t, fault) != StepReading(c', k, cr, t, fault)
    ensures k in Requests(imports, i => WokenByKeycloak(i, q))
  {
    KeycloakChangeWakes(c, c', q, k, cr, t, fault);
    RequestsExact(imports, i => WokenByKeycloak(i, q), k);
  }

  /** The import that a Job of `k` names as its owner: `k` itself, except that a reserved import has
      its name or its namespace overwritten by the version. */
  function NamedOwner(k: Key, version: nat): Key {
    match VersionLabel(k)
    case Owner => Key(k.ns, Digits(version))
    case OwnerNamespace => Key(Digits(version), k.name)
    case _ => k
  }

  /** The Job of an import wakes exactly the import it names as its owner. */
  lemma JobWakesItsImport(k: Key, version: nat, i: Item)
    requires ValidKey(k)
    ensures WokenByJob(i, JobLabels(k, version)) <==> i.key == NamedOwner(k, version)
    ensures NamedOwner(k, version) == k || Reserved(k)
  {
    VersionLabelInjective(k, k);
    var labels := JobLabels(k, version);
    assert Owner in OwnerLabels(i.key) && OwnerNamespace in OwnerLabels(i.key);
    assert WokenByJob(i, labels) <==>
           LabelText(labels[Owner]) == i.key.name && LabelText(labels[OwnerNamespace]) == i.key.ns;
  }

  /** For instance, version 123 of the one reserved import names the import `123` in its namespace. */
  lemma ReservedOwner()
    ensures NamedOwner(Key("owner", "realm.stakater.com"), 123) == Key("owner", "123")
  {
    var k := Key("owner", "realm.stakater.com");
    assert AnnotationKey(k) == KeyText(Owner);
    assert Digits(1) == "1" && Digits(12) == "12" && Digits(123) == "123";
  }

  // ---------------------------------------------------------------- rising edges

  /** The update filter of both controllers: from not done to done. */
  predicate Accepts(before: bool, after: bool) {
    !before && after
  }

  /** Whether the update of a Job, or of a StatefulSet, starts a pass. */
  predicate JobUpdateAccepted(before: Job, after: Job) {
    Accepts(IsJobCompleted(before.conditions), IsJobCompleted(after.conditions))
  }

  predicate SetUpdateAccepted(before: StatefulSet, after: StatefulSet) {
    Accepts(IsStatefulSetReady(before), IsStatefulSetReady(after))
  }

  /** The filters let exactly the rising edges through: from no true Complete condition in front of the
      other Complete ones to one, and from some replica not ready to all ready. */
  lemma FiltersExact(before: Job, after: Job, s: StatefulSet, s': StatefulSet)
    ensures JobUpdateAccepted(before, after) <==>
      !(exists i :: CompletedAt(before.conditions, i)) && exists i :: CompletedAt(after.conditions, i)
    ensures SetUpdateAccepted(s, s') <==> s.readyReplicas != s.replicas && s'.readyReplicas == s'.replicas
  {
    CompletedExactly(before.conditions);
    CompletedExactly(after.conditions);
  }

  /** What a watcher sees of a history when states are dropped in between. */
  ghost function Observed<T>(history: seq<T>, kept: seq<nat>): seq<T>
    requires forall i :: 0 <= i < |kept| ==> kept[i] < |history|
  {
    seq(|kept|, i requires 0 <= i < |kept| => history[kept[i]])
  }

  ghost predicate Coalesced<T>(history: seq<T>, kept: seq<nat>) {
    && history != [] && kept != []
    && (forall i :: 0 <= i < |kept| ==> kept[i] < |history|)
    && (forall i, j :: 0 <= i < j < |kept| ==> kept[i] < kept[j])
    && kept[0] == 0 && kept[|kept| - 1] == |history| - 1
  }

  /** The accepted update at position n is the last one, and everything seen after it is done. */
  ghost predicate LastEdge<T>(seen: seq<T>, done: T -> bool, n: nat) {
    && n + 1 < |seen| && Accepts(done(seen[n]), done(seen[n + 1]))
    && forall m :: n < m < |seen| ==> done(seen[m])
  }

  /** However updates are merged, a history that starts not done and ends done shows an accepted
      update, and the last accepted one comes after the last state that was seen not done. */
  lemma CompletionIsSeen<T>(history: seq<T>, kept: seq<nat>, done: T -> bool)
    requires Coalesced(history, kept) && !done(history[0]) && done(history[|history| - 1])
    ensures exists n :: LastEdge(Observed(history, kept), done, n)
  {
    var seen := Observed(history, kept);
    var n := LastNotDone(seen, done, |seen| - 1);
    assert LastEdge(seen, done, n);
  }

  ghost function LastNotDone<T>(seen: seq<T>, done: T -> bool, hi: nat): (n: nat)
    requires hi < |seen| && !done(seen[0])
    requires forall m :: hi < m < |seen| ==> done(seen[m])
    ensures n <= hi && !done(seen[n]) && forall m :: n < m < |seen| ==> done(seen[m])
  {
    if !done(seen[hi]) then hi else LastNotDone(seen, done, hi - 1)
  }

  /** Update n of this Job starts a pass, and the Job is completed from then on. */
  ghost predicate JobEdge(seen: seq<Job>, n: nat) {
    && n + 1 < |seen| && JobUpdateAccepted(seen[n], seen[n + 1])
    && forall m :: n < m < |seen| ==>
         IsJobCompleted(seen[m].conditions) && JobCondition(Complete, true) in seen[m].conditions
  }

  ghost predicate SetEdge(seen: seq<StatefulSet>, n: nat) {
    && n + 1 < |seen| && SetUpdateAccepted(seen[n], seen[n + 1])
    && forall m :: n < m < |seen| ==> seen[m].readyReplicas == seen[m].replicas
  }

  /** A Job that starts running and ends completed wakes its import, with the completed Job in place. */
  lemma JobCompletionIsSeen(history: seq<Job>, kept: seq<nat>)
    requires Coalesced(history, kept)
    requires !IsJobCompleted(history[0].conditions) && IsJobCompleted(history[|history| - 1].conditions)
    ensures exists n :: JobEdge(Observed(history, kept), n)
  {
    var done := (j: Job) => IsJobCompleted(j.conditions);
    CompletionIsSeen(history, kept, done);
    var seen := Observed(history, kept);
    var n: nat :| LastEdge(seen, done, n);
    forall m | n < m < |seen|
      ensures IsJobCompleted(seen[m].conditions) && JobCondition(Complete, true) in seen[m].conditions
    {
      assert done(seen[m]);
      CompletedExactly(seen[m].conditions);
    }
    assert JobEdge(seen, n);
  }

  /** So does a StatefulSet for its Keycloak. */
  lemma SetReadinessIsSeen(history: seq<StatefulSet>, kept: seq<nat>)
    requires Coalesced(history, kept)
    requires !IsStatefulSetReady(history[0]) && IsStatefulSetReady(history[|history| - 1])
    ensures exists n :: SetEdge(Observed(history, kept), n)
  {
    var done := (s: StatefulSet) => IsStatefulSetReady(s);
    CompletionIsSeen(history, kept, done);
    var seen := Observed(history, kept);
    var n: nat :| LastEdge(seen, done, n);
    assert forall m :: n < m < |seen| ==> done(seen[m]);
    assert SetEdge(seen, n);
  }
}
