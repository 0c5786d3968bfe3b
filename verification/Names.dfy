/** Object names, label keys and the labels that tie import artefacts to their owner. */
module Names {

  /** A namespaced object name. */
  datatype Key = Key(ns: string, name: string)

  datatype Option<+T> = None | Some(value: T)

  ghost predicate NoRepeats<T>(items: seq<T>) {
    forall i, j :: 0 <= i < j < |items| ==> items[i] != items[j]
  }

  /** Kubernetes object and namespace names never contain a slash. */
  predicate ValidKey(k: Key) {
    '/' !in k.ns && '/' !in k.name
  }

  /** The annotation (and Job label) key of an import: `name/namespace`. */
  function AnnotationKey(k: Key): string {
    k.name + "/" + k.ns
  }

  /** The Job of an import is named after it. */
  function JobName(importName: string): string {
    importName + "-import"
  }

  /** The file of the import Secret that holds the realm document. */
  function RealmFile(importName: string): string {
    importName + "-realm.json"
  }

  /** The four fixed label keys of the operator, and every other key. */
  datatype LabelKey = Owner | OwnerNamespace | Watched | App | Other(text: string)

  /** Label values: plain text, or the resourceVersion of an import Secret. The two are kept apart here;
      LabelText gives the text that both have in the cluster. */
  datatype LabelValue = Text(text: string) | Version(version: nat)

  type Labels = map<LabelKey, LabelValue>

  function Digits(n: nat): string {
    if n < 10 then [Digit(n)] else Digits(n / 10) + [Digit(n % 10)]
  }

  function Digit(n: nat): char
    requires n < 10
  {
    '0' + n as char
  }

  function LabelText(v: LabelValue): string {
    match v
    case Text(text) => text
    case Version(version) => Digits(version)
  }

  function KeyText(l: LabelKey): string {
    match l
    case Owner => "realm.stakater.com/owner"
    case OwnerNamespace => "realm.stakater.com/namepsace"
    case Watched => "sso.stakater.com/watched"
    case App => "app"
    case Other(text) => text
  }

  /** Reads a label key: the inverse of KeyText on canonical keys. */
  function Classify(text: string): LabelKey {
    if text == KeyText(Owner) then Owner
    else if text == KeyText(OwnerNamespace) then OwnerNamespace
    else if text == KeyText(Watched) then Watched
    else if text == KeyText(App) then App
    else Other(text)
  }

  /** The label under which a Job of import `k` records the Secret version it imports. */
  function VersionLabel(k: Key): LabelKey {
    Classify(AnnotationKey(k))
  }

  function OwnerLabels(k: Key): Labels {
    map[Owner := Text(k.name), OwnerNamespace := Text(k.ns)]
  }

  function SecretLabels(k: Key): Labels {
    OwnerLabels(k)[Watched := Text("true")]
  }

  function JobLabels(k: Key, version: nat): Labels {
    OwnerLabels(k)[VersionLabel(k) := Version(version)][App := Text("rhbk")]
  }

  predicate Carries(labels: Labels, l: LabelKey, v: LabelValue) {
    l in labels && labels[l] == v
  }

  /** An equality-based selector matches when all its labels are there. */
  predicate MatchSet(labels: Labels, wanted: Labels) {
    forall l | l in wanted :: Carries(labels, l, wanted[l])
  }

  /** The selector used by cleanup: both owner labels. */
  predicate OwnedBy(labels: Labels, k: Key) {
    Carries(labels, Owner, Text(k.name)) && Carries(labels, OwnerNamespace, Text(k.ns))
  }

  /** The imports whose version label overwrites one of their owner labels. */
  predicate Reserved(k: Key) {
    VersionLabel(k) == Owner || VersionLabel(k) == OwnerNamespace
  }

  /** `name/namespace` determines both parts when neither contains a slash. */
  lemma {:induction false} AnnotationKeyInjective(a: Key, b: Key)
    requires ValidKey(a) && ValidKey(b)
    ensures AnnotationKey(a) == AnnotationKey(b) <==> a == b
  {
    if AnnotationKey(a) == AnnotationKey(b) {
      var s, t := AnnotationKey(a), AnnotationKey(b);
      assert s[|a.name|] == '/' && t[|b.name|] == '/';
      assert forall i :: 0 <= i < |a.name| ==> s[i] == a.name[i] != '/';
      assert forall i :: 0 <= i < |b.name| ==> t[i] == b.name[i] != '/';
      assert s[..|a.name|] == a.name && t[..|b.name|] == b.name;
      assert s[|a.name| + 1..] == a.ns && t[|b.name| + 1..] == b.ns;
    }
  }

  /** Distinct imports keep their Job versions under distinct labels. */
  lemma VersionLabelInjective(a: Key, b: Key)
    requires ValidKey(a) && ValidKey(b)
    ensures VersionLabel(a) == VersionLabel(b) <==> a == b
    ensures VersionLabel(a) != App
  {
    AnnotationKeyInjective(a, b);
    assert AnnotationKey(a)[|a.name|] == '/';
    assert KeyText(App) == ['a', 'p', 'p'];
    assert AnnotationKey(a) == KeyText(VersionLabel(a));
    assert AnnotationKey(b) == KeyText(VersionLabel(b));
  }

  /** A Job carries both owner labels exactly when its import is not reserved; the version label
      always survives. */
  lemma JobLabelsOwned(k: Key, version: nat)
    requires ValidKey(k)
    ensures OwnedBy(JobLabels(k, version), k) <==> !Reserved(k)
    ensures Carries(JobLabels(k, version), VersionLabel(k), Version(version))
    ensures Carries(JobLabels(k, version), App, Text("rhbk")) && KeyText(App) == "app"
    ensures Carries(JobLabels(k, version), Owner, Text(k.name)) <==> VersionLabel(k) != Owner
    ensures forall n :: Carries(JobLabels(k, version), Owner, Text(n)) ==> n == k.name
    ensures forall j :: OwnedBy(JobLabels(k, version), j) ==> j == k
    ensures forall j, v :: ValidKey(j) && Carries(JobLabels(k, version), VersionLabel(j), Version(v))
              ==> j == k && v == version
  {
    VersionLabelInjective(k, k);
    forall j, v | ValidKey(j) && Carries(JobLabels(k, version), VersionLabel(j), Version(v))
      ensures j == k && v == version
    {
      VersionLabelInjective(j, k);
      VersionLabelInjective(k, j);
    }
  }

  /** The only two imports that are reserved. */
  lemma ReservedImports(k: Key)
    requires ValidKey(k)
    ensures Reserved(k) <==> k == Key("owner", "realm.stakater.com") || k == Key("namepsace", "realm.stakater.com")
  {
    var o, n := Key("owner", "realm.stakater.com"), Key("namepsace", "realm.stakater.com");
    assert AnnotationKey(o) == KeyText(Owner);
    assert AnnotationKey(n) == KeyText(OwnerNamespace);
    assert KeyText(Owner)[19] != KeyText(OwnerNamespace)[19];
    AnnotationKeyInjective(k, o);
    AnnotationKeyInjective(k, n);
  }
}
