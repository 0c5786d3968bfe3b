/** The environment of the Keycloak container: defaults overridden by user options through an
    in-place list, then rewritten for the import Job. The lists refine overriding of maps. */
module Environment {
  import opened Names

  datatype SecretRef = SecretRef(name: string, key: string)

  datatype SecretOption = SecretOption(value: string, secret: Option<SecretRef>)

  datatype OptionVar = OptionVar(name: string, value: string, secret: Option<SecretRef>)

  datatype EnvVar = EnvVar(name: string, value: string, valueFrom: Option<SecretRef>)

  datatype Database = Database(host: SecretOption, port: SecretOption, user: SecretOption, password: SecretOption)

  datatype KeycloakSpec = KeycloakSpec(
    name: string, ns: string, host: string, adminUser: SecretOption, adminPassword: SecretOption,
    database: Option<Database>, proxy: bool, options: seq<OptionVar>)

  function Literal(name: string, value: string): EnvVar {
    EnvVar(name, value, None)
  }

  /** A Secret reference wins over a value. */
  function GetEnv(name: string, selector: SecretOption): EnvVar {
    if selector.secret.Some? then EnvVar(name, "", selector.secret) else Literal(name, selector.value)
  }

  /** For user options it is the other way round: a value wins over a Secret reference. */
  function Replacement(o: OptionVar): EnvVar {
    if o.value != "" then Literal(o.name, o.value) else EnvVar(o.name, "", o.secret)
  }

  function ServiceAccountFile(name: string): string {
    "/var/run/secrets/kubernetes.io/serviceaccount/" + name
  }

  function BaseEnv(kc: KeycloakSpec): seq<EnvVar> {
    [ Literal("KC_HOSTNAME", kc.host),
      Literal("KC_HTTPS_PORT", "8443"),
      Literal("KC_HTTP_MANAGEMENT_PORT", "9000"),
      Literal("KC_HEALTH_ENABLED", "true"),
      Literal("KC_CACHE", "ispn"),
      Literal("KC_CACHE_STACK", "kubernetes"),
      GetEnv("KC_BOOTSTRAP_ADMIN_USERNAME", kc.adminUser),
      GetEnv("KC_BOOTSTRAP_ADMIN_PASSWORD", kc.adminPassword),
      Literal("KC_TRUSTSTORE_PATHS",
          "conf/truststores," + ServiceAccountFile("ca.crt") + "," + ServiceAccountFile("service-ca.crt")),
      Literal("KC_TRACING_SERVICE_NAME", kc.name),
      Literal("KC_TRACING_RESOURCE_ATTRIBUTES", "k8s.namespace.name=" + kc.ns),
      Literal("KC_METRICS_ENABLED", "true"),
      Literal("KC_HTTPS_CERTIFICATE_FILE", "/mnt/certificates/tls.crt"),
      Literal("KC_HTTPS_CERTIFICATE_KEY_FILE", "/mnt/certificates/tls.key") ]
  }

  function DatabaseEnv(db: Database): seq<EnvVar> {
    [ Literal("KC_DB", "postgres"),
      GetEnv("KC_DB_USERNAME", db.user),
      GetEnv("KC_DB_PASSWORD", db.password),
      GetEnv("KC_DB_URL_HOST", db.host),
      GetEnv("KC_DB_URL_PORT", db.port),
      Literal("KC_DB_POOL_INITIAL_SIZE", "30"),
      Literal("KC_DB_POOL_MIN_SIZE", "30"),
      Literal("KC_DB_POOL_MAX_SIZE", "30") ]
  }

  function NetworkEnv(proxy: bool): seq<EnvVar> {
    if proxy then [ Literal("KC_HOSTNAME_STRICT", "false"), Literal("KC_PROXY_HEADERS", "xforwarded") ]
    else [ Literal("KC_HOSTNAME_STRICT", "true"), Literal("KC_HTTP_ENABLED", "false"),
        Literal("KC_PROXY_HEADERS", "xforwarded") ]
  }

  function Defaults(kc: KeycloakSpec): seq<EnvVar> {
    BaseEnv(kc) + (if kc.database.Some? then DatabaseEnv(kc.database.value) else []) + NetworkEnv(kc.proxy)
  }

  // What lists mean.

  function EnvNames(vars: seq<EnvVar>): seq<string> {
    if vars == [] then [] else [vars[0].name] + EnvNames(vars[1..])
  }

  /** The variable that a name stands for: the first one. */
  function Lookup(vars: seq<EnvVar>, name: string): Option<EnvVar> {
    if vars == [] then None else if vars[0].name == name then Some(vars[0]) else Lookup(vars[1..], name)
  }

  /** The option that counts for a name: the last one. */
  function LastOption(options: seq<OptionVar>, name: string): Option<OptionVar> {
    if options == [] then None
    else if options[|options| - 1].name == name then Some(options[|options| - 1])
    else LastOption(options[..|options| - 1], name)
  }

  /** The defaults as a map, overridden by the options as a map. */
  function Overridden(vars: seq<EnvVar>, options: seq<OptionVar>, name: string): Option<EnvVar> {
    match LastOption(options, name)
    case Some(o) => Some(Replacement(o))
    case None => Lookup(vars, name)
  }

  /** The names of `vars`, then the new names in the order in which the options first mention them. */
  function OverriddenNames(names: seq<string>, options: seq<OptionVar>): seq<string> {
    if options == [] then names
    else WithName(OverriddenNames(names, options[..|options| - 1]), options[|options| - 1].name)
  }

  function WithName(names: seq<string>, name: string): seq<string> {
    if name in names then names else names + [name]
  }

  lemma {:induction false} LookupName(vars: seq<EnvVar>, name: string)
    ensures Lookup(vars, name).Some? <==> name in EnvNames(vars)
    ensures Lookup(vars, name).Some? ==> Lookup(vars, name).value.name == name
  {
    if vars != [] { LookupName(vars[1..], name); }
  }

  // Replacing or appending one variable.

  function Replaced(vars: seq<EnvVar>, env: EnvVar): seq<EnvVar> {
    if vars == [] then [env]
    else if vars[0].name == env.name then [env] + vars[1..]
    else [vars[0]] + Replaced(vars[1..], env)
  }

  lemma {:induction false} ReplacedLookup(vars: seq<EnvVar>, env: EnvVar, name: string)
    ensures Lookup(Replaced(vars, env), name) == if name == env.name then Some(env) else Lookup(vars, name)
  {
    if vars != [] && vars[0].name != env.name {
      ReplacedLookup(vars[1..], env, name);
      assert Replaced(vars, env)[1..] == Replaced(vars[1..], env);
    } else if vars != [] {
      assert Replaced(vars, env)[1..] == vars[1..];
    }
  }

  lemma {:induction false} ReplacedNames(vars: seq<EnvVar>, env: EnvVar)
    ensures EnvNames(Replaced(vars, env)) == WithName(EnvNames(vars), env.name)
  {
    if vars != [] {
      var names := EnvNames(vars);
      if vars[0].name == env.name {
        assert Replaced(vars, env)[1..] == vars[1..];
        assert env.name == names[0];
      } else {
        ReplacedNames(vars[1..], env);
        assert Replaced(vars, env)[1..] == Replaced(vars[1..], env);
        assert names[1..] == EnvNames(vars[1..]);
        assert env.name in names <==> env.name in names[1..];
      }
    }
  }

  lemma ReplacedTail(vars: seq<EnvVar>, env: EnvVar, i: nat)
    requires i < |vars|
    ensures Replaced(vars[i..], env) ==
      if vars[i].name == env.name then [env] + vars[i + 1..] else [vars[i]] + Replaced(vars[i + 1..], env)
  {
    assert vars[i..][0] == vars[i] && vars[i..][1..] == vars[i + 1..];
  }

  lemma Shifted(vars: seq<EnvVar>, i: nat, tail: seq<EnvVar>)
    requires i < |vars|
    ensures vars[..i] + ([vars[i]] + tail) == vars[..i + 1] + tail
  {
  }

  lemma ReplacedFrom(vars: seq<EnvVar>, env: EnvVar, i: nat)
    requires i < |vars| && Replaced(vars, env) == vars[..i] + Replaced(vars[i..], env)
    ensures vars[i].name == env.name ==> Replaced(vars, env) == vars[i := env]
    ensures vars[i].name != env.name ==> Replaced(vars, env) == vars[..i + 1] + Replaced(vars[i + 1..], env)
  {
    ReplacedTail(vars, env, i);
    if vars[i].name == env.name {
      Spliced(vars, env, i);
    } else {
      Shifted(vars, i, Replaced(vars[i + 1..], env));
    }
  }

  lemma Spliced(vars: seq<EnvVar>, env: EnvVar, i: nat)
    requires i < |vars|
    ensures vars[..i] + ([env] + vars[i + 1..]) == vars[i := env]
  {
  }

  /** A list of variables that is edited in place. */
  class EnvList {
    var vars: seq<EnvVar>

    constructor (vars: seq<EnvVar>)
      ensures this.vars == vars
    {
      this.vars := vars;
    }

    /** Replaces the first variable of that name where it stands, or appends. */
    method AddOrReplace(env: EnvVar)
      modifies this
      ensures vars == Replaced(old(vars), env)
    {
      var i := 0;
      while i < |vars|
        invariant i <= |vars| && vars == old(vars)
        invariant Replaced(vars, env) == vars[..i] + Replaced(vars[i..], env)
      {
        ReplacedFrom(vars, env, i);
        if vars[i].name == env.name {
          vars := vars[i := env];
          return;
        }
        i := i + 1;
      }
      assert vars[..i] == vars && vars[i..] == [];
      vars := vars + [env];
    }
  }

  // Overriding the defaults.

  function Applied(vars: seq<EnvVar>, options: seq<OptionVar>): seq<EnvVar> {
    if options == [] then vars
    else Replaced(Applied(vars, options[..|options| - 1]), Replacement(options[|options| - 1]))
  }

  /** Applying options one by one refines overriding one map by another. */
  lemma {:induction false} AppliedLookup(vars: seq<EnvVar>, options: seq<OptionVar>, name: string)
    ensures Lookup(Applied(vars, options), name) == Overridden(vars, options, name)
  {
    if options != [] {
      var before := options[..|options| - 1];
      AppliedLookup(vars, before, name);
      ReplacedLookup(Applied(vars, before), Replacement(options[|options| - 1]), name);
    }
  }

  lemma {:induction false} AppliedNames(vars: seq<EnvVar>, options: seq<OptionVar>)
    ensures EnvNames(Applied(vars, options)) == OverriddenNames(EnvNames(vars), options)
  {
    if options != [] {
      var before := options[..|options| - 1];
      AppliedNames(vars, before);
      ReplacedNames(Applied(vars, before), Replacement(options[|options| - 1]));
    }
  }

  lemma {:induction false} OverriddenNoRepeats(names: seq<string>, options: seq<OptionVar>)
    requires NoRepeats(names)
    ensures NoRepeats(OverriddenNames(names, options))
  {
    if options != [] { OverriddenNoRepeats(names, options[..|options| - 1]); }
  }

  /** The defaults with the user options applied one by one. Names are distinct, every name has the
      value of its last option or else its default, and the order is that of first mention. */
  method DecorateEnv(kc: KeycloakSpec) returns (r: seq<EnvVar>)
    ensures NoRepeats(EnvNames(r))
    ensures forall name :: Lookup(r, name) == Overridden(Defaults(kc), kc.options, name)
    ensures EnvNames(r) == OverriddenNames(EnvNames(Defaults(kc)), kc.options)
    ensures forall i | 0 <= i < |kc.options| && IsLast(kc.options, i) ::
      Lookup(r, kc.options[i].name) == Some(
        if kc.options[i].value != "" then EnvVar(kc.options[i].name, kc.options[i].value, None)
        else EnvVar(kc.options[i].name, "", kc.options[i].secret))
    ensures OwnValuesStand(kc, r)
  {
    var vars := Defaults(kc);
    var list := new EnvList(vars);
    var i := 0;
    while i < |kc.options|
      invariant i <= |kc.options| && list.vars == Applied(vars, kc.options[..i])
    {
      assert kc.options[..i + 1][..i] == kc.options[..i];
      list.AddOrReplace(Replacement(kc.options[i]));
      i := i + 1;
    }
    assert kc.options[..i] == kc.options;
    r := list.vars;
    forall name ensures Lookup(r, name) == Overridden(vars, kc.options, name) {
      AppliedLookup(vars, kc.options, name);
    }
    AppliedNames(vars, kc.options);
    DefaultsDistinct(kc);
    OverriddenNoRepeats(EnvNames(vars), kc.options);
    forall i | 0 <= i < |kc.options| && IsLast(kc.options, i)
      ensures LastOption(kc.options, kc.options[i].name) == Some(kc.options[i])
    {
      LastOptionIs(kc.options, i);
    }
    DefaultsStand(kc, r);
  }

  /** No later option has the name of option i. */
  ghost predicate IsLast(options: seq<OptionVar>, i: int)
    requires 0 <= i < |options|
  {
    forall j :: i < j < |options| ==> options[j].name != options[i].name
  }

  ghost predicate Unmentioned(options: seq<OptionVar>, name: string) {
    forall i :: 0 <= i < |options| ==> options[i].name != name
  }

  /** Under this name stands the Secret reference if there is one, and the value otherwise. */
  ghost predicate Stands(vars: seq<EnvVar>, name: string, value: string, secret: Option<SecretRef>) {
    Lookup(vars, name) == Some(if secret.Some? then EnvVar(name, "", secret) else EnvVar(name, value, None))
  }

  lemma {:induction false} LastOptionIs(options: seq<OptionVar>, i: nat)
    requires i < |options| && IsLast(options, i)
    ensures LastOption(options, options[i].name) == Some(options[i])
  {
    var k := |options| - 1;
    if i < k {
      assert options[k].name != options[i].name;
      LastOptionIs(options[..k], i);
    }
  }

  lemma {:induction false} NoOption(options: seq<OptionVar>, name: string)
    requires Unmentioned(options, name)
    ensures LastOption(options, name) == None
  {
    if options != [] { NoOption(options[..|options| - 1], name); }
  }

  lemma {:induction false} LookupAt(vars: seq<EnvVar>, i: nat)
    requires NoRepeats(EnvNames(vars)) && i < |vars|
    ensures Lookup(vars, vars[i].name) == Some(vars[i])
  {
    NamesAt(vars);
    if i > 0 {
      assert EnvNames(vars)[0] != EnvNames(vars)[i];
      assert EnvNames(vars[1..]) == EnvNames(vars)[1..];
      LookupAt(vars[1..], i - 1);
    }
  }

  /** What the spec gives stands under its own name, unless an option says otherwise. */
  ghost predicate OwnValuesStand(kc: KeycloakSpec, r: seq<EnvVar>) {
    && StandsUnless(kc, r, "KC_BOOTSTRAP_ADMIN_USERNAME", kc.adminUser)
    && StandsUnless(kc, r, "KC_BOOTSTRAP_ADMIN_PASSWORD", kc.adminPassword)
    && StandsUnless(kc, r, "KC_HOSTNAME", SecretOption(kc.host, None))
    && (kc.database.Some? ==> DatabaseStands(kc, r, kc.database.value))
  }

  ghost predicate DatabaseStands(kc: KeycloakSpec, r: seq<EnvVar>, db: Database) {
    && StandsUnless(kc, r, "KC_DB_USERNAME", db.user)
    && StandsUnless(kc, r, "KC_DB_PASSWORD", db.password)
    && StandsUnless(kc, r, "KC_DB_URL_HOST", db.host)
    && StandsUnless(kc, r, "KC_DB_URL_PORT", db.port)
  }

  ghost predicate StandsUnless(kc: KeycloakSpec, r: seq<EnvVar>, name: string, selector: SecretOption) {
    Unmentioned(kc.options, name) ==> Stands(r, name, selector.value, selector.secret)
  }

  lemma DefaultsStand(kc: KeycloakSpec, r: seq<EnvVar>)
    requires forall name :: Lookup(r, name) == Overridden(Defaults(kc), kc.options, name)
    ensures OwnValuesStand(kc, r)
  {
    DefaultStands(kc, r, 0);
    DefaultStands(kc, r, 6);
    DefaultStands(kc, r, 7);
    if kc.database.Some? { DatabaseDefaultsStand(kc, r); }
  }

  lemma DatabaseDefaultsStand(kc: KeycloakSpec, r: seq<EnvVar>)
    requires kc.database.Some? && forall name :: Lookup(r, name) == Overridden(Defaults(kc), kc.options, name)
    ensures DatabaseStands(kc, r, kc.database.value)
  {
    DatabaseDefaultStands(kc, r, 1);
    DatabaseDefaultStands(kc, r, 2);
    DatabaseDefaultStands(kc, r, 3);
    DatabaseDefaultStands(kc, r, 4);
  }

  lemma DatabaseDefaultStands(kc: KeycloakSpec, r: seq<EnvVar>, i: nat)
    requires kc.database.Some? && i < 8
    requires forall name :: Lookup(r, name) == Overridden(Defaults(kc), kc.options, name)
    ensures var v := DatabaseEnv(kc.database.value)[i]; Unmentioned(kc.options, v.name) ==> Lookup(r, v.name) == Some(v)
  {
    assert Defaults(kc)[14 + i] == DatabaseEnv(kc.database.value)[i];
    DefaultStands(kc, r, 14 + i);
  }

  lemma DefaultStands(kc: KeycloakSpec, r: seq<EnvVar>, i: nat)
    requires i < |Defaults(kc)| && forall name :: Lookup(r, name) == Overridden(Defaults(kc), kc.options, name)
    ensures Unmentioned(kc.options, Defaults(kc)[i].name) ==> Lookup(r, Defaults(kc)[i].name) == Some(Defaults(kc)[i])
  {
    DefaultsDistinct(kc);
    LookupAt(Defaults(kc), i);
    if Unmentioned(kc.options, Defaults(kc)[i].name) { NoOption(kc.options, Defaults(kc)[i].name); }
  }

  // The names of the defaults.

  const BaseNames: seq<string> := [
    "KC_HOSTNAME", "KC_HTTPS_PORT", "KC_HTTP_MANAGEMENT_PORT", "KC_HEALTH_ENABLED", "KC_CACHE", "KC_CACHE_STACK",
    "KC_BOOTSTRAP_ADMIN_USERNAME", "KC_BOOTSTRAP_ADMIN_PASSWORD", "KC_TRUSTSTORE_PATHS", "KC_TRACING_SERVICE_NAME",
    "KC_TRACING_RESOURCE_ATTRIBUTES", "KC_METRICS_ENABLED", "KC_HTTPS_CERTIFICATE_FILE",
        "KC_HTTPS_CERTIFICATE_KEY_FILE"]

  const DatabaseNames: seq<string> := [
    "KC_DB", "KC_DB_USERNAME", "KC_DB_PASSWORD", "KC_DB_URL_HOST", "KC_DB_URL_PORT", "KC_DB_POOL_INITIAL_SIZE",
    "KC_DB_POOL_MIN_SIZE", "KC_DB_POOL_MAX_SIZE"]

  function NetworkNames(proxy: bool): seq<string> {
    if proxy then ["KC_HOSTNAME_STRICT", "KC_PROXY_HEADERS"]
    else ["KC_HOSTNAME_STRICT", "KC_HTTP_ENABLED", "KC_PROXY_HEADERS"]
  }

  lemma {:induction false} NamesAt(vars: seq<EnvVar>)
    ensures |EnvNames(vars)| == |vars| && forall i :: 0 <= i < |vars| ==> EnvNames(vars)[i] == vars[i].name
  {
    if vars != [] { NamesAt(vars[1..]); }
  }

  lemma NamesConcat(a: seq<EnvVar>, b: seq<EnvVar>)
    ensures EnvNames(a + b) == EnvNames(a) + EnvNames(b)
  {
    NamesAt(a);
    NamesAt(b);
    NamesAt(a + b);
  }

  lemma BaseNamed(kc: KeycloakSpec)
    ensures EnvNames(BaseEnv(kc)) == BaseNames
  {
    NamesAt(BaseEnv(kc));
  }

  lemma DatabaseNamed(db: Database)
    ensures EnvNames(DatabaseEnv(db)) == DatabaseNames
  {
    NamesAt(DatabaseEnv(db));
  }

  lemma NetworkNamed(proxy: bool)
    ensures EnvNames(NetworkEnv(proxy)) == NetworkNames(proxy)
  {
    NamesAt(NetworkEnv(proxy));
  }

  ghost predicate Apart(a: seq<string>, b: seq<string>) {
    forall i, j :: 0 <= i < |a| && 0 <= j < |b| ==> a[i] != b[j]
  }

  lemma NoRepeatsConcat(a: seq<string>, b: seq<string>)
    requires NoRepeats(a) && NoRepeats(b) && Apart(a, b)
    ensures NoRepeats(a + b)
  {
  }

  lemma BaseDistinct()
    ensures NoRepeats(BaseNames)
  {
    NoRepeatsConcat(BaseNames[..7], BaseNames[7..]);
    assert BaseNames == BaseNames[..7] + BaseNames[7..];
  }

  lemma DatabaseDistinct()
    ensures NoRepeats(DatabaseNames)
  {
  }

  lemma NetworkDistinct(proxy: bool)
    ensures NoRepeats(NetworkNames(proxy)) && Apart(BaseNames, NetworkNames(proxy))
  {
  }

  /** Only the database variables have a D behind the common prefix. */
  lemma DatabaseApart(proxy: bool)
    ensures Apart(BaseNames, DatabaseNames) && Apart(DatabaseNames, NetworkNames(proxy))
  {
    assert forall i :: 0 <= i < |DatabaseNames| ==> |DatabaseNames[i]| > 3 && DatabaseNames[i][3] == 'D';
    assert forall i :: 0 <= i < |BaseNames| ==> |BaseNames[i]| > 3 && BaseNames[i][3] != 'D';
    assert forall i :: 0 <= i < |NetworkNames(proxy)| ==>
        |NetworkNames(proxy)[i]| > 3 && NetworkNames(proxy)[i][3] != 'D';
  }

  lemma AllDistinct(proxy: bool)
    ensures NoRepeats(BaseNames + DatabaseNames + NetworkNames(proxy))
  {
    BaseDistinct();
    DatabaseDistinct();
    NetworkDistinct(proxy);
    DatabaseApart(proxy);
    NoRepeatsConcat(BaseNames, DatabaseNames);
    assert Apart(BaseNames + DatabaseNames, NetworkNames(proxy));
    NoRepeatsConcat(BaseNames + DatabaseNames, NetworkNames(proxy));
  }

  lemma DefaultsDistinct(kc: KeycloakSpec)
    ensures NoRepeats(EnvNames(Defaults(kc)))
  {
    BaseNamed(kc);
    NetworkNamed(kc.proxy);
    AllDistinct(kc.proxy);
    if kc.database.Some? {
      DatabaseNamed(kc.database.value);
      NamesConcat(BaseEnv(kc), DatabaseEnv(kc.database.value));
      NamesConcat(BaseEnv(kc) + DatabaseEnv(kc.database.value), NetworkEnv(kc.proxy));
    } else {
      assert BaseEnv(kc) + [] == BaseEnv(kc);
      NamesConcat(BaseEnv(kc), NetworkEnv(kc.proxy));
      Shortened(BaseNames, DatabaseNames, NetworkNames(kc.proxy));
    }
  }

  lemma Shortened(a: seq<string>, b: seq<string>, c: seq<string>)
    requires NoRepeats(a + b + c)
    ensures NoRepeats(a + c)
  {
    var all, few := a + b + c, a + c;
    forall i, j | 0 <= i < j < |few| ensures few[i] != few[j] {
      var i', j' := if i < |a| then i else i + |b|, if j < |a| then j else j + |b|;
      assert all[i'] == few[i] && all[j'] == few[j];
    }
  }

  // The import Job.

  /** What becomes of a variable in the Job; an empty replacement drops it. */
  function JobVar(v: EnvVar): Option<EnvVar> {
    if v.name == "KC_CACHE" then Some(Literal(v.name, "local"))
    else if v.name == "KC_HEALTH_ENABLED" then Some(Literal(v.name, "false"))
    else if v.name == "KC_CACHE_STACK" then None
    else Some(v)
  }

  function JobVars(vars: seq<EnvVar>): seq<EnvVar> {
    if vars == [] then []
    else
      var n := JobVar(vars[0]);
      if n.None? then JobVars(vars[1..]) else [n.value] + JobVars(vars[1..])
  }

  function WithoutStack(names: seq<string>): seq<string> {
    if names == [] then []
    else if names[0] == "KC_CACHE_STACK" then WithoutStack(names[1..])
    else [names[0]] + WithoutStack(names[1..])
  }

  /** The list of the Job is the same map, rewritten name by name. */
  lemma {:induction false} JobLookup(vars: seq<EnvVar>, name: string)
    ensures Lookup(JobVars(vars), name) == match Lookup(vars, name) case None => None case Some(v) => JobVar(v)
  {
    if vars != [] {
      JobLookup(vars[1..], name);
      if JobVar(vars[0]).Some? {
        assert JobVars(vars)[1..] == JobVars(vars[1..]);
      } else {
        LookupStack(vars[1..]);
      }
    }
  }

  lemma {:induction false} LookupStack(vars: seq<EnvVar>)
    ensures Lookup(JobVars(vars), "KC_CACHE_STACK") == None
  {
    if vars != [] {
      LookupStack(vars[1..]);
      if JobVar(vars[0]).Some? {
        assert JobVars(vars)[1..] == JobVars(vars[1..]);
      }
    }
  }

  lemma {:induction false} JobOrder(vars: seq<EnvVar>)
    ensures EnvNames(JobVars(vars)) == WithoutStack(EnvNames(vars))
  {
    if vars != [] {
      JobOrder(vars[1..]);
      assert EnvNames(vars)[1..] == EnvNames(vars[1..]);
      if JobVar(vars[0]).Some? {
        assert JobVars(vars)[1..] == JobVars(vars[1..]);
      }
    }
  }

  lemma {:induction false} WithoutStackNoRepeats(names: seq<string>)
    requires NoRepeats(names)
    ensures NoRepeats(WithoutStack(names))
    ensures forall n :: n in WithoutStack(names) ==> n in names
  {
    if names != [] {
      var rest := WithoutStack(names[1..]);
      WithoutStackNoRepeats(names[1..]);
      assert names[0] !in names[1..];
      assert forall j :: 0 < j < 1 + |rest| ==> ([names[0]] + rest)[j] == rest[j - 1];
    }
  }

  /** Rewrites the list for the Job, in a loop that appends to a new list. */
  method JobEnv(vars: seq<EnvVar>) returns (next: seq<EnvVar>)
    ensures next == JobVars(vars)
  {
    next := [];
    var i := 0;
    while i < |vars|
      invariant i <= |vars| && next + JobVars(vars[i..]) == JobVars(vars)
    {
      assert vars[i..][1..] == vars[i + 1..];
      var n := JobVar(vars[i]);
      if n.Some? {
        next := next + [n.value];
      }
      i := i + 1;
    }
  }

  /** The variables of the import Job, from the spec on: whatever the user set, the cache is local,
      health checks are off and there is no cache stack; every other name is as in the StatefulSet,
      and the order is the same. */
  method ImportJobEnv(kc: KeycloakSpec) returns (job: seq<EnvVar>)
    ensures NoRepeats(EnvNames(job))
    ensures Lookup(job, "KC_CACHE") == Some(Literal("KC_CACHE", "local"))
    ensures Lookup(job, "KC_HEALTH_ENABLED") == Some(Literal("KC_HEALTH_ENABLED", "false"))
    ensures Lookup(job, "KC_CACHE_STACK") == None
    ensures forall name :: name != "KC_CACHE" && name != "KC_HEALTH_ENABLED" && name != "KC_CACHE_STACK" ==>
      Lookup(job, name) == Overridden(Defaults(kc), kc.options, name)
    ensures EnvNames(job) == WithoutStack(OverriddenNames(EnvNames(Defaults(kc)), kc.options))
  {
    var vars := DecorateEnv(kc);
    job := JobEnv(vars);
    JobOrder(vars);
    WithoutStackNoRepeats(EnvNames(vars));
    KeepsDefaults(kc, vars);
    LookupStack(vars);
    JobRewrites(vars, "KC_CACHE");
    JobRewrites(vars, "KC_HEALTH_ENABLED");
    forall name | name != "KC_CACHE" && name != "KC_HEALTH_ENABLED" && name != "KC_CACHE_STACK"
      ensures Lookup(job, name) == Lookup(vars, name)
    {
      JobRewrites(vars, name);
    }
  }

  lemma JobRewrites(vars: seq<EnvVar>, name: string)
    ensures Lookup(vars, name).Some? ==>
      Lookup(JobVars(vars), name) == JobVar(Lookup(vars, name).value) && Lookup(vars, name).value.name == name
    ensures Lookup(vars, name).None? ==> Lookup(JobVars(vars), name) == None
  {
    LookupName(vars, name);
    JobLookup(vars, name);
  }

  lemma {:induction false} NamesStay(names: seq<string>, options: seq<OptionVar>, name: string)
    requires name in names
    ensures name in OverriddenNames(names, options)
  {
    if options != [] { NamesStay(names, options[..|options| - 1], name); }
  }

  /** Options can override the cache and health settings but not remove them. */
  lemma KeepsDefaults(kc: KeycloakSpec, vars: seq<EnvVar>)
    requires EnvNames(vars) == OverriddenNames(EnvNames(Defaults(kc)), kc.options)
    ensures Lookup(vars, "KC_CACHE").Some? && Lookup(vars, "KC_HEALTH_ENABLED").Some?
  {
    var defaults := EnvNames(Defaults(kc));
    NamesAt(Defaults(kc));
    assert defaults[4] == Defaults(kc)[4].name == "KC_CACHE";
    assert defaults[3] == Defaults(kc)[3].name == "KC_HEALTH_ENABLED";
    NamesStay(defaults, kc.options, "KC_CACHE");
    NamesStay(defaults, kc.options, "KC_HEALTH_ENABLED");
    LookupName(vars, "KC_CACHE");
    LookupName(vars, "KC_HEALTH_ENABLED");
  }
}
