/** Import Secrets that never come to rest: one that is among the inputs of its own expansion, and one
    that two imports of the same name share. */
module SharedSecrets {
  import opened Names
  import opened Cluster
  import opened Passes
  import opened RealmDocument
  import opened QuietPasses
  import opened Convergence

  /** The one substitution of the import reads the realm document of the import Secret itself, and the
      template has some text besides. */
  ghost predicate ReadsItself(k: Key, cr: Import, name: string, before: string, after: string) {
    && k.ns == cr.spec.target.ns && cr.spec.subs == [Substitution(name, k.name, RealmFile(k.name))]
    && ValidName(name) && '%' !in before && '%' !in after && |before| + |after| > 0
    && cr.spec.json == before + "%." + name + "%" + after
  }

  /** The document that the import Secret holds. */
  ghost function Document(c: Cluster, k: Key, cr: Import): string {
    var key := SecretKey(k, cr);
    if key in c.secrets && RealmFile(k.name) in c.secrets[key].data then c.secrets[key].data[RealmFile(k.name)] else ""
  }

  lemma ItselfEmbedded(c: Cluster, k: Key, cr: Import, data: map<string, string>, name: string, before: string,
      after: string)
    requires ReadsItself(k, cr, name, before, after) && Inputs(c, k, cr, data)
    ensures data == map[RealmFile(k.name) := before + EscapeString(Document(c, k, cr)) + after]
  {
    var values := map[name := EscapeString(Document(c, k, cr))];
    assert SecretKey(k, cr) == Key(k.ns, k.name);
    assert Fetched(c, k, cr, 1, values) == Some(values);
    assert Fetched(c, k, cr, 0, map[]) == Some(values);
    TextExpands(before, values);
    TextExpands(after, values);
    HoleTakesValueVerbatim(before, name, after, values);
  }

  /** Whatever the cluster holds, such an import finds its Secret out of date: the expansion is longer
      than the document it was made from. */
  lemma NeverFresh(c: Cluster, k: Key, cr: Import, data: map<string, string>, name: string, before: string,
      after: string)
    requires ReadsItself(k, cr, name, before, after) && Inputs(c, k, cr, data)
    ensures !SecretFresh(c, k, cr, data)
    ensures |data[RealmFile(k.name)]| > |Document(c, k, cr)|
  {
    ItselfEmbedded(c, k, cr, data, name, before, after);
    EscapeGrows(Document(c, k, cr));
  }

  /** A pass that finds the Secret out of date stores it, and leaves every other import alone. */
  lemma PassStores(c: Cluster, k: Key, data: map<string, string>)
    requires k in c.imports && !c.imports[k].deleting && Finalized(c, k) && JobsClear(c, k, c.imports[k])
    requires Inputs(c, k, c.imports[k], data) && !SecretFresh(c, k, c.imports[k], data)
    ensures var c', key := QuietPass(c, k), SecretKey(k, c.imports[k]);
      && c'.secrets == c.secrets[key := Secret(c.rv + 1, SecretLabels(k), data)]
      && c'.imports.Keys == c.imports.Keys && k in c'.imports && c'.imports[k].spec == c.imports[k].spec
      && (forall j :: j in c.imports && j != k ==> c'.imports[j] == c.imports[j])
  {
    RunWork(c, k, c.imports[k], data);
  }

  /** So every pass writes a new version, with a longer document than before. */
  lemma EveryPassWrites(c: Cluster, k: Key, data: map<string, string>, name: string, before: string, after: string)
    requires k in c.imports && !c.imports[k].deleting && Finalized(c, k) && JobsClear(c, k, c.imports[k])
    requires ReadsItself(k, c.imports[k], name, before, after) && Inputs(c, k, c.imports[k], data)
    ensures var cr, c' := c.imports[k], QuietPass(c, k);
      && SecretKey(k, cr) in c'.secrets && c'.secrets[SecretKey(k, cr)].rv == c.rv + 1
      && |Document(c', k, cr)| > |Document(c, k, cr)|
  {
    NeverFresh(c, k, c.imports[k], data, name, before, after);
    PassStores(c, k, data);
  }

  // Imports of the same name with one target namespace.

  ghost predicate Namesakes(c: Cluster, j: Key, k: Key) {
    && j != k && j.name == k.name && j in c.imports && k in c.imports
    && c.imports[j].spec.target.ns == c.imports[k].spec.target.ns
  }

  /** Namesakes share one Secret, and what is up to date for one is out of date for the other. */
  lemma NamesakeSecrets(c: Cluster, j: Key, k: Key, jData: map<string, string>, kData: map<string, string>)
    requires Namesakes(c, j, k)
    ensures SecretKey(j, c.imports[j]) == SecretKey(k, c.imports[k])
    ensures SecretFresh(c, j, c.imports[j], jData) ==> !SecretFresh(c, k, c.imports[k], kData)
  {
    assert SecretLabels(j)[OwnerNamespace] == Text(j.ns) && SecretLabels(k)[OwnerNamespace] == Text(k.ns);
  }

  /** So once one of them has settled the Secret, every pass of the other writes a new version, which
      is out of date for the first. */
  lemma NamesakesTakeTurns(c: Cluster, j: Key, k: Key, jData: map<string, string>, kData: map<string, string>)
    requires Namesakes(c, j, k) && SecretFresh(c, j, c.imports[j], jData)
    requires !c.imports[k].deleting && Finalized(c, k) && JobsClear(c, k, c.imports[k]) &&
      Inputs(c, k, c.imports[k], kData)
    ensures var cr, c' := c.imports[k], QuietPass(c, k);
      && SecretKey(k, cr) in c'.secrets && c'.secrets[SecretKey(k, cr)] == Secret(c.rv + 1, SecretLabels(k), kData)
      && Namesakes(c', j, k) && !SecretFresh(c', j, c'.imports[j], jData)
  {
    NamesakeSecrets(c, j, k, jData, kData);
    PassStores(c, k, kData);
    assert SecretLabels(j)[OwnerNamespace] == Text(j.ns) && SecretLabels(k)[OwnerNamespace] == Text(k.ns);
  }
}
