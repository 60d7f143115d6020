/** Every path a provider puts in the environment leads, through one mount, to the file meant for it. */
module Paths {
  import opened Prelude
  import opened Text
  import opened JsonPatch
  import opened Items
  import opened Annotations
  import opened Resolve
  import opened Plan
  import opened Credentials
  import opened Providers
  import opened MergedPlans
  import opened Pods
  import opened Patch
  import opened Frames
  import ProviderGcp
  import ProviderAws
  import ProviderAz
  import Shell

  /** `path` lies below the directory. */
  predicate Inside(dir: string, path: string) {
    dir + "/" <= path
  }

  /** The second directory is the first or lies below it. */
  predicate Nested(outer: string, inner: string) {
    Inside(outer, inner + "/")
  }

  ghost predicate NoNesting(mounts: seq<VolumeMount>) {
    forall i, j :: 0 <= i < |mounts| && 0 <= j < |mounts| && i != j ==> !Nested(mounts[i].mountPath, mounts[j].mountPath)
  }

  lemma SiblingsNotNested(parent: string, x: string, y: string)
    requires '/' !in x && '/' !in y && Nested(parent + x, parent + y)
    ensures x == y
  {
    var a, b := parent + x + "/", parent + y + "/";
    assert a == b[..|a|];
    var n, m := |parent|, |x|;
    assert forall i :: 0 <= i < m ==> x[i] == a[n + i];
    forall i | 0 <= i < |y|
      ensures b[n + i] == y[i] != '/'
    {
      assert y[i] in y;
    }
    assert a[n + m] == '/' == b[n + m];
    assert m == |y|;
  }

  lemma MountsNotNested(mounts: seq<VolumeMount>, root: string)
    requires MountsPlaced(mounts, root) && Distinct(NameSeq(MountItems(mounts)))
    ensures NoNesting(mounts)
  {
    var names := NameSeq(MountItems(mounts));
    forall i, j | 0 <= i < |mounts| && 0 <= j < |mounts| && i != j
      ensures !Nested(mounts[i].mountPath, mounts[j].mountPath)
    {
      assert mounts[i] in mounts && mounts[j] in mounts;
      var k: VolumeKind :| mounts[i] == k.Mount(root);
      var k': VolumeKind :| mounts[j] == k'.Mount(root);
      assert names[i] == mounts[i].name && names[j] == mounts[j].name;
      KindFacts(k, k');
      KindFacts(k', k);
      if Nested(mounts[i].mountPath, mounts[j].mountPath) {
        SiblingsNotNested(TrimEndSlashes(root) + "/", k.Leaf(), k'.Leaf());
      }
    }
  }

  /** Without nesting, a path lies below one mount at most. */
  lemma OneMount(mounts: seq<VolumeMount>, path: string, i: nat, j: nat)
    requires NoNesting(mounts) && i < |mounts| && j < |mounts|
    requires Inside(mounts[i].mountPath, path) && Inside(mounts[j].mountPath, path)
    ensures i == j
  {
    var a, b := mounts[i].mountPath + "/", mounts[j].mountPath + "/";
    assert |a| <= |b| ==> a == path[..|a|] == b[..|a|];
    assert |b| <= |a| ==> b == path[..|b|] == a[..|b|];
  }

  /** Exactly one mount holds the path, and exactly one volume has its name: the given kind, with the given content. */
  ghost predicate Serves(plan: MutationPlan, root: string, path: string, kind: VolumeKind, file: string, content: Json) {
    && path == kind.Mount(root).mountPath + "/" + file
    && (exists i :: 0 <= i < |plan.containerMounts| && plan.containerMounts[i] == kind.Mount(root)
                    && forall j :: 0 <= j < |plan.containerMounts| && Inside(plan.containerMounts[j].mountPath, path) ==> j == i)
    && (exists i :: 0 <= i < |plan.volumes| && plan.volumes[i] == VolumeSpec(kind.Name(), content)
                    && forall j :: 0 <= j < |plan.volumes| && plan.volumes[j].name == kind.Name() ==> j == i)
  }

  lemma Served(plan: MutationPlan, ids: set<ProviderId>, root: string, kind: VolumeKind, file: string, content: Json)
    requires WellPlanned(plan, ids, root)
    requires kind.Mount(root) in plan.containerMounts && VolumeSpec(kind.Name(), content) in plan.volumes
    ensures Serves(plan, root, kind.Mount(root).mountPath + "/" + file, kind, file, content)
  {
    var mounts, volumes := plan.containerMounts, plan.volumes;
    var dir := kind.Mount(root).mountPath;
    var path := dir + "/" + file;
    MountsNotNested(mounts, root);
    var i :| 0 <= i < |mounts| && mounts[i] == kind.Mount(root);
    assert Inside(dir, path);
    forall j | 0 <= j < |mounts| && Inside(mounts[j].mountPath, path)
      ensures j == i
    {
      OneMount(mounts, path, i, j);
    }
    var v :| 0 <= v < |volumes| && volumes[v] == VolumeSpec(kind.Name(), content);
    var names := NameSeq(VolumeItems(volumes));
    forall j | 0 <= j < |volumes| && volumes[j].name == kind.Name()
      ensures j == v
    {
      assert names[j] == volumes[j].name && names[v] == volumes[v].name;
    }
  }

  // ---- where the pieces of one plan end up ----

  lemma {:induction false} PlanAllHas(providers: seq<Provider>, prim: Primitives, ctx: ProviderContext, q: Provider)
    requires PlanAll(providers, prim, ctx).Ok? && q in providers && q.Enabled(ctx.annotations)
    ensures q.PlanOf(prim, ctx).Ok?
    ensures q.PlanOf(prim, ctx).value.Some? ==> q.PlanOf(prim, ctx).value.value in PlanAll(providers, prim, ctx).value
  {
    var init, last := providers[..|providers| - 1], providers[|providers| - 1];
    assert providers == init + [last];
    if q in init {
      PlanAllHas(init, prim, ctx, q);
    }
  }

  /** Every list of the part is contained in the list of the whole. */
  ghost predicate PartOf(part: MutationPlan, whole: MutationPlan) {
    && (forall v :: v in part.volumes ==> v in whole.volumes)
    && (forall m :: m in part.containerMounts ==> m in whole.containerMounts)
    && (forall e :: e in part.containerEnv ==> e in whole.containerEnv)
    && (forall c :: c in part.initContainers ==> c in whole.initContainers)
    && (forall u :: u in part.configmapUpserts ==> u in whole.configmapUpserts)
  }

  lemma {:induction false} PartOfConcatenated(plans: seq<ProviderPlan>, p: ProviderPlan)
    requires p in plans
    ensures PartOf(Single(p), Concatenated(plans))
  {
    if p != plans[0] {
      assert plans == [plans[0]] + plans[1..];
      PartOfConcatenated(plans[1..], p);
    }
  }

  lemma PartOfMerged(plans: seq<ProviderPlan>, p: ProviderPlan)
    requires p in plans
    ensures PartOf(Single(p), Merged(plans))
  {
    var all := Concatenated(plans);
    PartOfConcatenated(plans, p);
    SortFacts(all.initContainers);
    assert forall c :: c in all.initContainers ==> c in multiset(SortByOrder(all.initContainers));
  }

  // ---- the agreement ----

  function TokenFor(q: Provider, ctx: ProviderContext): TokenSpec {
    match q
    case GcpProvider(cfg) => ProviderGcp.Token(cfg, ctx)
    case AwsProvider(cfg) => ProviderAws.Token(cfg, ctx)
    case AzProvider(cfg) => ProviderAz.Token(cfg, ctx)
  }

  /** Where a provider's token is: under the mount root, without slashes at its end. */
  function TokenPath(root: string, id: ProviderId): string {
    TrimEndSlashes(root) + (match id case Gcp => "/gcp/token" case Aws => "/aws/token" case Az => "/az/token")
  }

  function CredsPath(root: string): string {
    TrimEndSlashes(root) + "/gcp-creds/credentials.json"
  }

  lemma TokenLeaf(id: ProviderId)
    ensures "/" + id.Abbr() + "/" + "token" == match id { case Gcp => "/gcp/token" case Aws => "/aws/token" case Az => "/az/token" }
  {
  }

  lemma CredsLeaf()
    ensures "/" + "gcp-creds" + "/" + ProviderGcp.CREDS_FILENAME == "/gcp-creds/credentials.json"
  {
  }

  lemma Regroup(r: string, x: string, y: string)
    ensures r + "/" + x + "/" + y == r + ("/" + x + "/" + y)
  {
  }

  lemma PathsSpelledOut(root: string, id: ProviderId)
    ensures TokenPath(root, id) == TokenOf(id).Mount(root).mountPath + "/" + "token"
    ensures CredsPath(root) == Creds.Mount(root).mountPath + "/" + ProviderGcp.CREDS_FILENAME
  {
    TokenLeaf(id);
    CredsLeaf();
    Regroup(TrimEndSlashes(root), id.Abbr(), "token");
    Regroup(TrimEndSlashes(root), "gcp-creds", ProviderGcp.CREDS_FILENAME);
  }

  function LifetimeKey(id: ProviderId): string {
    match id
    case Gcp => "cwii.dev/gcp-token-expiration"
    case Aws => "cwii.dev/aws-token-expiration"
    case Az => "cwii.dev/az-token-expiration"
  }

  /** The lifetime of a provider's token: the first annotation when that is a number, else the default; at least 600. */
  function LifetimeFor(id: ProviderId, ctx: ProviderContext): (r: int)
    ensures r >= 600
  {
    var annotated := match ctx.annotations.FirstNonEmpty(LifetimeKey(id)) case None => None case Some(s) => ParseI64(s);
    var seconds := match annotated case Some(n) => n case None => ctx.defaultTokenExpirationSecs;
    if seconds >= 600 then seconds else 600
  }

  /** The account a GCP pod impersonates, if any. */
  function AccountFor(q: Provider, a: AnnotationSet): Option<string>
    requires q.GcpProvider?
  {
    NativeOr(a, "cwii.dev/gcp-service-account", "iam.gke.io/gcp-service-account", q.gcp.nativeAnnotations)
  }

  lemma TokenFacts(q: Provider, ctx: ProviderContext)
    ensures var t := TokenFor(q, ctx);
            && t.TokenFilePath() == TokenPath(ctx.mountRoot, q.Id())
            && t.Mount() == TokenOf(q.Id()).Mount(ctx.mountRoot)
            && t.Volume() == VolumeSpec(TokenOf(q.Id()).Name(), t.Volume().value)
            && t.audience == AudienceFor(q, ctx.annotations)
            && t.fileName == "token"
            && t.expirationSecs == LifetimeFor(q.Id(), ctx)
  {
    var t := TokenFor(q, ctx);
    var dir := TrimEndSlashes(ctx.mountRoot) + "/" + q.Id().Abbr();
    assert t.mountDir == dir && dir[|dir| - 1] == q.Id().Abbr()[|q.Id().Abbr()| - 1];
    assert TrimEndSlashes(dir) == dir;
    PathsSpelledOut(ctx.mountRoot, q.Id());
    AudienceKeys(q.Id());
    match q.Id() case Gcp => GcpKeys(); case Aws => AwsKeys(); case Az => AzKeys();
  }

  /** The volume has one source: a token for this audience, of this lifetime, in a file of this name. */
  ghost predicate SuppliesToken(volume: Json, audience: string, lifetime: int, file: string) {
    && NodeAt(volume, ["projected", "sources"]).Some?
    && var sources := NodeAt(volume, ["projected", "sources"]).value;
       && sources.Arr? && |sources.items| == 1
       && var source := sources.items[0];
          && NodeAt(source, ["serviceAccountToken", "audience"]) == Some(Str(audience))
          && NodeAt(source, ["serviceAccountToken", "expirationSeconds"]) == Some(Num(lifetime))
          && NodeAt(source, ["serviceAccountToken", "path"]) == Some(Str(file))
  }

  lemma TwoDown(m: map<string, Json>, k1: string, k2: string)
    requires k1 in m && m[k1].Obj? && k2 in m[k1].members
    ensures NodeAt(Obj(m), [k1, k2]) == Some(m[k1].members[k2])
  {
    assert [k1, k2][1..] == [k2];
    MemberNode(m[k1].members, k2);
  }

  lemma TokenSupplied(t: TokenSpec)
    ensures SuppliesToken(t.Volume().value, t.audience, t.expirationSecs, t.fileName)
  {
    var volume := t.Volume().value;
    TwoDown(volume.members, "projected", "sources");
    var source := volume.members["projected"].members["sources"].items[0];
    TwoDown(source.members, "serviceAccountToken", "audience");
    TwoDown(source.members, "serviceAccountToken", "expirationSeconds");
    TwoDown(source.members, "serviceAccountToken", "path");
  }

  /** The provider's token path reads the provider's token: its audience, under the file name in the path. */
  lemma TokenPathAgrees(providers: seq<Provider>, prim: Primitives, ctx: ProviderContext, q: Provider)
    requires DistinctIds(providers) && PlanAll(providers, prim, ctx).Ok?
    requires q in providers && q.Enabled(ctx.annotations)
    requires q.PlanOf(prim, ctx).Ok? && q.PlanOf(prim, ctx).value.Some?
    ensures var merged, volume := Merged(PlanAll(providers, prim, ctx).value), TokenFor(q, ctx).Volume().value;
            && NoNesting(merged.containerMounts)
            && Serves(merged, ctx.mountRoot, TokenPath(ctx.mountRoot, q.Id()), TokenOf(q.Id()), "token", volume)
            && SuppliesToken(volume, AudienceFor(q, ctx.annotations), LifetimeFor(q.Id(), ctx), "token")
  {
    var plans := PlanAll(providers, prim, ctx).value;
    var p := q.PlanOf(prim, ctx).value.value;
    var t := TokenFor(q, ctx);
    MergedWellPlanned(providers, prim, ctx);
    PlanAllHas(providers, prim, ctx, q);
    PartOfMerged(plans, p);
    TokenFacts(q, ctx);
    TokenSupplied(t);
    TokenInPlan(q, prim, ctx);
    PathsSpelledOut(ctx.mountRoot, q.Id());
    MountsNotNested(Merged(plans).containerMounts, ctx.mountRoot);
    Served(Merged(plans), IdsOf(providers), ctx.mountRoot, TokenOf(q.Id()), "token", t.Volume().value);
  }

  lemma TokenInPlan(q: Provider, prim: Primitives, ctx: ProviderContext)
    requires q.PlanOf(prim, ctx).Ok? && q.PlanOf(prim, ctx).value.Some?
    ensures var p := q.PlanOf(prim, ctx).value.value;
            TokenFor(q, ctx).Volume() in p.volumes && TokenFor(q, ctx).Mount() in p.containerMounts
  {
  }

  // ---- the environment ----

  /** Exactly one variable of this name, with this value. */
  ghost predicate TheVariable(plan: MutationPlan, name: string, value: string) {
    exists i :: 0 <= i < |plan.containerEnv| && plan.containerEnv[i] == EnvVar(name, value)
                && forall j :: 0 <= j < |plan.containerEnv| && plan.containerEnv[j].name == name ==> j == i
  }

  lemma OnlyVariable(plan: MutationPlan, name: string, value: string)
    requires EnvVar(name, value) in plan.containerEnv && Distinct(NameSeq(EnvItems(plan.containerEnv)))
    ensures TheVariable(plan, name, value)
  {
    var env, names := plan.containerEnv, NameSeq(EnvItems(plan.containerEnv));
    var i :| 0 <= i < |env| && env[i] == EnvVar(name, value);
    forall j | 0 <= j < |env| && env[j].name == name
      ensures j == i
    {
      assert names[j] == env[j].name && names[i] == env[i].name;
    }
  }

  /** The variables a provider must set: the resolved settings that have a value, and its path. */
  function Variables(q: Provider, ctx: ProviderContext): map<string, Option<string>> {
    var a := ctx.annotations;
    match q
    case GcpProvider(_) => map["GOOGLE_APPLICATION_CREDENTIALS" := Some(CredsPath(ctx.mountRoot))]
    case AwsProvider(cfg) => map[
      "AWS_ROLE_ARN" := NativeOr(a, "cwii.dev/aws-role-arn", "eks.amazonaws.com/role-arn", cfg.nativeAnnotations),
      "AWS_WEB_IDENTITY_TOKEN_FILE" := Some(TokenPath(ctx.mountRoot, Aws)),
      "AWS_REGION" := a.FirstNonEmpty("cwii.dev/aws-region"),
      "AWS_ROLE_SESSION_NAME" := a.FirstNonEmpty("cwii.dev/aws-role-session-name")]
    case AzProvider(cfg) => map[
      "AZURE_CLIENT_ID" := NativeOr(a, "cwii.dev/az-client-id", "azure.workload.identity/client-id", cfg.nativeAnnotations),
      "AZURE_TENANT_ID" := NativeOr(a, "cwii.dev/az-tenant-id", "azure.workload.identity/tenant-id", cfg.nativeAnnotations),
      "AZURE_FEDERATED_TOKEN_FILE" := Some(TokenPath(ctx.mountRoot, Az)),
      "AZURE_AUTHORITY_HOST" := a.FirstNonEmpty("cwii.dev/az-authority-host")]
  }

  /** The variables of a plan are those its provider must set, with those values. */
  ghost predicate SetsExactly(env: seq<EnvVar>, variables: map<string, Option<string>>) {
    forall e :: e in env <==> e.name in variables && variables[e.name] == Some(e.value)
  }

  lemma OptionalHas(name: string, value: Option<string>)
    ensures forall e :: e in Optional(name, value) <==> e.name == name && value == Some(e.value)
  {
    if value.Some? {
      assert Optional(name, value)[0] == EnvVar(name, value.value);
    }
  }

  lemma AwsVariablesSet(q: Provider, prim: Primitives, ctx: ProviderContext)
    requires q.AwsProvider? && q.PlanOf(prim, ctx).Ok? && q.PlanOf(prim, ctx).value.Some?
    ensures SetsExactly(q.PlanOf(prim, ctx).value.value.containerEnv, Variables(q, ctx))
  {
    TokenFacts(q, ctx);
    var a := ctx.annotations;
    AwsEnvExactly(ProviderAws.RoleArn(q.aws, a).value, TokenPath(ctx.mountRoot, Aws), a);
    AwsKeyNames();
  }

  lemma AwsKeyNames()
    ensures ProviderAws.K_ROLE_ARN == "cwii.dev/aws-role-arn" && ProviderAws.NATIVE_ROLE_ARN == "eks.amazonaws.com/role-arn"
    ensures ProviderAws.K_REGION == "cwii.dev/aws-region" && ProviderAws.K_SESSION_NAME == "cwii.dev/aws-role-session-name"
  {
  }

  lemma AwsEnvExactly(arn: string, file: string, a: AnnotationSet)
    ensures SetsExactly(ProviderAws.Env(arn, file, a), map[
              "AWS_ROLE_ARN" := Some(arn),
              "AWS_WEB_IDENTITY_TOKEN_FILE" := Some(file),
              "AWS_REGION" := a.FirstNonEmpty(ProviderAws.K_REGION),
              "AWS_ROLE_SESSION_NAME" := a.FirstNonEmpty(ProviderAws.K_SESSION_NAME)])
  {
    var base := [EnvVar("AWS_ROLE_ARN", arn), EnvVar(ProviderAws.TOKEN_VARIABLE, file)];
    var region, session := a.FirstNonEmpty(ProviderAws.K_REGION), a.FirstNonEmpty(ProviderAws.K_SESSION_NAME);
    AwsVariables();
    OptionalHas("AWS_REGION", region);
    OptionalHas("AWS_ROLE_SESSION_NAME", session);
    assert base[0] in base && base[1] in base;
    assert ProviderAws.Env(arn, file, a) == base + Optional("AWS_REGION", region) + Optional("AWS_ROLE_SESSION_NAME", session);
  }

  lemma AzVariablesSet(q: Provider, prim: Primitives, ctx: ProviderContext)
    requires q.AzProvider? && q.PlanOf(prim, ctx).Ok? && q.PlanOf(prim, ctx).value.Some?
    ensures SetsExactly(q.PlanOf(prim, ctx).value.value.containerEnv, Variables(q, ctx))
  {
    TokenFacts(q, ctx);
    var a := ctx.annotations;
    AzEnvExactly(ProviderAz.ClientId(q.az, a).value, ProviderAz.TenantId(q.az, a).value, TokenPath(ctx.mountRoot, Az), a);
  }

  lemma AzEnvExactly(client: string, tenant: string, file: string, a: AnnotationSet)
    ensures SetsExactly(ProviderAz.Env(client, tenant, file, a), map[
              "AZURE_CLIENT_ID" := Some(client),
              "AZURE_TENANT_ID" := Some(tenant),
              "AZURE_FEDERATED_TOKEN_FILE" := Some(file),
              "AZURE_AUTHORITY_HOST" := a.FirstNonEmpty(ProviderAz.K_AUTHORITY_HOST)])
  {
    var base := [EnvVar("AZURE_CLIENT_ID", client), EnvVar("AZURE_TENANT_ID", tenant), EnvVar(ProviderAz.TOKEN_VARIABLE, file)];
    var host := a.FirstNonEmpty(ProviderAz.K_AUTHORITY_HOST);
    AzVariables();
    OptionalHas("AZURE_AUTHORITY_HOST", host);
    assert base[0] in base && base[1] in base && base[2] in base;
    assert ProviderAz.Env(client, tenant, file, a) == base + Optional("AZURE_AUTHORITY_HOST", host);
  }

  lemma GcpVariablesSet(q: Provider, prim: Primitives, ctx: ProviderContext)
    requires q.GcpProvider? && q.PlanOf(prim, ctx).Ok? && q.PlanOf(prim, ctx).value.Some?
    ensures SetsExactly(q.PlanOf(prim, ctx).value.value.containerEnv, Variables(q, ctx))
  {
    GcpShape(q.gcp, prim, ctx, ProviderGcp.DeliveryFor(q.gcp, ctx.annotations).value);
    PathsSpelledOut(ctx.mountRoot, Gcp);
    var env := q.PlanOf(prim, ctx).value.value.containerEnv;
    assert env[0] in env;
  }

  /** What a provider's plan sets is what it must set, and nothing else. */
  lemma VariablesExactly(q: Provider, prim: Primitives, ctx: ProviderContext)
    requires q.PlanOf(prim, ctx).Ok? && q.PlanOf(prim, ctx).value.Some?
    ensures SetsExactly(q.PlanOf(prim, ctx).value.value.containerEnv, Variables(q, ctx))
  {
    match q {
      case GcpProvider(_) => GcpVariablesSet(q, prim, ctx);
      case AwsProvider(_) => AwsVariablesSet(q, prim, ctx);
      case AzProvider(_) => AzVariablesSet(q, prim, ctx);
    }
  }

  /**
   * In the merged plan every variable a provider is to set is there exactly once, with the setting resolved
   * for it: file paths are the provider's own.
   */
  lemma EnvironmentAgrees(providers: seq<Provider>, prim: Primitives, ctx: ProviderContext, q: Provider, name: string)
    requires DistinctIds(providers) && PlanAll(providers, prim, ctx).Ok? && q in providers && q.Enabled(ctx.annotations)
    requires q.PlanOf(prim, ctx).Ok? && q.PlanOf(prim, ctx).value.Some?
    requires name in Variables(q, ctx) && Variables(q, ctx)[name].Some?
    ensures TheVariable(Merged(PlanAll(providers, prim, ctx).value), name, Variables(q, ctx)[name].value)
  {
    VariablesExactly(q, prim, ctx);
    assert EnvVar(name, Variables(q, ctx)[name].value) in q.PlanOf(prim, ctx).value.value.containerEnv;
    var plans := PlanAll(providers, prim, ctx).value;
    PlanAllHas(providers, prim, ctx, q);
    PartOfMerged(plans, q.PlanOf(prim, ctx).value.value);
    MergedWellPlanned(providers, prim, ctx);
    OnlyVariable(Merged(plans), name, Variables(q, ctx)[name].value);
  }

  /** The volume shows this key of this ConfigMap as this file, and nothing else. */
  ghost predicate ShowsConfigMap(volume: Json, name: string, key: string, file: string) {
    && NodeAt(volume, ["configMap", "name"]) == Some(Str(name))
    && NodeAt(volume, ["configMap", "items"]) == Some(Arr([Obj(map["key" := Str(key), "path" := Str(file)])]))
  }

  lemma ConfigMapShown(name: string)
    ensures ShowsConfigMap(ProviderGcp.ConfigMapVolume(name).value, name, "credentials.json", "credentials.json")
  {
    var v := ProviderGcp.ConfigMapVolume(name).value;
    var source := v.members["configMap"];
    assert ["configMap", "name"][1..] == ["name"] && ["configMap", "items"][1..] == ["items"];
    assert NodeAt(source, ["name"]) == Some(source.members["name"]);
    assert NodeAt(source, ["items"]) == Some(source.members["items"]);
  }

  /** The container's one command prints a variable that holds `text` into `file` on the volume it mounts. */
  ghost predicate WritesFile(c: InitContainer, image: string, volume: string, file: string, text: string) {
    exists variable, dir ::
      && c.name == "cwii-gcp-creds-writer"
      && c.image == image
      && c.env == [EnvVar(variable, text)]
      && c.mounts == [VolumeMount(volume, dir, false)]
      && c.command == ["sh", "-c"]
      && c.args == ["printf '%s' \"$" + variable + "\" > " + dir + "/" + file]
  }

  lemma WriterWrites(image: string, text: string)
    ensures WritesFile(ProviderGcp.Writer(image, text), image, "cwii-gcp-creds", "credentials.json", text)
  {
    var c := ProviderGcp.Writer(image, text);
    assert c.env == [EnvVar(ProviderGcp.WRITER_VARIABLE, text)];
    assert c.mounts == [VolumeMount("cwii-gcp-creds", ProviderGcp.WRITER_DIR, false)];
  }

  /** How the document gets onto the volume, for each way of delivery. */
  ghost predicate Supplied(
    plan: MutationPlan, image: string, volume: Json, d: ProviderGcp.Delivery, name: string, text: string)
  {
    match d
    case ConfigMapDelivery =>
      && ShowsConfigMap(volume, name, "credentials.json", "credentials.json")
      && ConfigMapUpsert(name, "credentials.json", text) in plan.configmapUpserts
    case InitContainerDelivery =>
      && volume == Obj(map["name" := Str("cwii-gcp-creds"), "emptyDir" := Obj(map[])])
      && exists c :: c in plan.initContainers && WritesFile(c, image, "cwii-gcp-creds", "credentials.json", text)
  }

  lemma DeliverySupplies(
    cfg: ProviderGcp.GcpConfig, prim: Primitives, ctx: ProviderContext, d: ProviderGcp.Delivery, whole: MutationPlan)
    requires PartOf(Single(ProviderGcp.PlanFor(cfg, prim, ctx, d)), whole)
    ensures var name, text := ProviderGcp.NameFor(cfg, prim, ctx), ProviderGcp.CredsText(cfg, prim, ctx);
            Supplied(whole, cfg.initImage, ProviderGcp.DeliveryVolume(d, name).value, d, name, text)
  {
    var name, text := ProviderGcp.NameFor(cfg, prim, ctx), ProviderGcp.CredsText(cfg, prim, ctx);
    var part := Single(ProviderGcp.PlanFor(cfg, prim, ctx, d));
    match d {
      case ConfigMapDelivery =>
        ConfigMapShown(name);
        assert part.configmapUpserts == [ConfigMapUpsert(name, "credentials.json", text)];
        assert part.configmapUpserts[0] in part.configmapUpserts;
      case InitContainerDelivery =>
        GcpShape(cfg, prim, ctx, d);
        WriterWrites(cfg.initImage, text);
        assert part.initContainers[0] in part.initContainers;
    }
  }

  lemma CredentialsServed(
    providers: seq<Provider>, prim: Primitives, ctx: ProviderContext, cfg: ProviderGcp.GcpConfig, d: ProviderGcp.Delivery)
    requires DistinctIds(providers) && PlanAll(providers, prim, ctx).Ok?
    requires ProviderGcp.PlanFor(cfg, prim, ctx, d) in PlanAll(providers, prim, ctx).value
    ensures Serves(Merged(PlanAll(providers, prim, ctx).value), ctx.mountRoot, CredsPath(ctx.mountRoot), Creds, "credentials.json",
                   ProviderGcp.DeliveryVolume(d, ProviderGcp.NameFor(cfg, prim, ctx)).value)
  {
    var plans := PlanAll(providers, prim, ctx).value;
    var p := ProviderGcp.PlanFor(cfg, prim, ctx, d);
    MergedWellPlanned(providers, prim, ctx);
    PartOfMerged(plans, p);
    GcpShape(cfg, prim, ctx, d);
    DeliveryPieces(cfg, d, ProviderGcp.NameFor(cfg, prim, ctx), "");
    assert p.volumes[1] in p.volumes && p.containerMounts[1] in p.containerMounts;
    PathsSpelledOut(ctx.mountRoot, Gcp);
    Served(Merged(plans), IdsOf(providers), ctx.mountRoot, Creds, "credentials.json", p.volumes[1].value);
  }

  /** The text is the credentials document of the pod's audience and account that reads GCP's own token file. */
  ghost predicate CredentialsText(text: string, q: Provider, prim: Primitives, ctx: ProviderContext)
    requires q.GcpProvider?
  {
    exists doc :: text == prim.encode(doc) && ExternalAccount(
      doc, AudienceFor(q, ctx.annotations), TokenPath(ctx.mountRoot, Gcp), AccountFor(q, ctx.annotations))
  }

  /** The name of the ConfigMap for the pod's audience and account. */
  function CredentialsName(q: Provider, prim: Primitives, ctx: ProviderContext): string
    requires q.GcpProvider?
  {
    "cwii-gcp-creds-" + prim.digest(AudienceFor(q, ctx.annotations) + ['\0'] + AccountFor(q, ctx.annotations).GetOr(""))
  }

  lemma GcpTexts(q: Provider, prim: Primitives, ctx: ProviderContext)
    requires q.GcpProvider?
    ensures ProviderGcp.CredsText(q.gcp, prim, ctx) ==
            prim.encode(CredentialsDocument(AudienceFor(q, ctx.annotations), TokenPath(ctx.mountRoot, Gcp), AccountFor(q, ctx.annotations)))
    ensures CredentialsText(ProviderGcp.CredsText(q.gcp, prim, ctx), q, prim, ctx)
    ensures ProviderGcp.NameFor(q.gcp, prim, ctx) == CredentialsName(q, prim, ctx)
  {
    TokenFacts(q, ctx);
    AudienceKeys(Gcp);
    DocumentIsExternalAccount(AudienceFor(q, ctx.annotations), TokenPath(ctx.mountRoot, Gcp), AccountFor(q, ctx.annotations));
  }

  /**
   * The credentials path is served by the credentials volume, and by that alone. What the volume holds is the
   * document for the resolved audience and account: shown from the ConfigMap that is upserted alongside, or
   * written into the shared directory by an init container, as the pod's delivery mode says. The document
   * reads the token at a path that is served by GCP's token volume alone, whose token has that audience.
   */
  lemma CredentialsPathAgrees(providers: seq<Provider>, prim: Primitives, ctx: ProviderContext, q: Provider)
    requires DistinctIds(providers) && PlanAll(providers, prim, ctx).Ok?
    requires q in providers && q.Enabled(ctx.annotations) && q.GcpProvider?
    requires q.PlanOf(prim, ctx).Ok? && q.PlanOf(prim, ctx).value.Some?
    ensures var merged, root := Merged(PlanAll(providers, prim, ctx).value), ctx.mountRoot;
            exists d, volume: Json, text ::
              && Delivers(q.gcp, ctx.annotations, d)
              && Serves(merged, root, CredsPath(root), Creds, "credentials.json", volume)
              && Supplied(merged, q.gcp.initImage, volume, d, CredentialsName(q, prim, ctx), text)
              && CredentialsText(text, q, prim, ctx)
    ensures var merged, root := Merged(PlanAll(providers, prim, ctx).value), ctx.mountRoot;
            exists volume: Json ::
              && Serves(merged, root, TokenPath(root, Gcp), TokenOf(Gcp), "token", volume)
              && SuppliesToken(volume, AudienceFor(q, ctx.annotations), LifetimeFor(Gcp, ctx), "token")
  {
    var plans := PlanAll(providers, prim, ctx).value;
    var d := ProviderGcp.DeliveryFor(q.gcp, ctx.annotations).value;
    var text := ProviderGcp.CredsText(q.gcp, prim, ctx);
    DeliveryExactly(q.gcp, ctx.annotations, d);
    PlanAllHas(providers, prim, ctx, q);
    PartOfMerged(plans, ProviderGcp.PlanFor(q.gcp, prim, ctx, d));
    GcpTexts(q, prim, ctx);
    CredentialsServed(providers, prim, ctx, q.gcp, d);
    DeliverySupplies(q.gcp, prim, ctx, d, Merged(plans));
    TokenPathAgrees(providers, prim, ctx, q);
  }

  /** With an audience and a valid delivery mode GCP always plans. */
  lemma GcpPlans(q: Provider, prim: Primitives, ctx: ProviderContext, d: ProviderGcp.Delivery)
    requires q.GcpProvider? && AudienceFor(q, ctx.annotations) != ""
    requires Delivers(q.gcp, ctx.annotations, d)
    ensures q.PlanOf(prim, ctx) == Ok(Some(ProviderGcp.PlanFor(q.gcp, prim, ctx, d)))
  {
    AudienceKeys(Gcp);
    DeliveryExactly(q.gcp, ctx.annotations, d);
  }

  /** ConfigMap delivery: the credentials ConfigMap is among the upserts of the merge. */
  lemma CredentialsUpserted(providers: seq<Provider>, prim: Primitives, ctx: ProviderContext, q: Provider)
    requires PlanAll(providers, prim, ctx).Ok?
    requires q in providers && q.Enabled(ctx.annotations) && q.GcpProvider? && AudienceFor(q, ctx.annotations) != ""
    requires Delivers(q.gcp, ctx.annotations, ProviderGcp.ConfigMapDelivery)
    ensures exists text ::
              && CredentialsText(text, q, prim, ctx)
              && ConfigMapUpsert(CredentialsName(q, prim, ctx), "credentials.json", text)
                 in Merged(PlanAll(providers, prim, ctx).value).configmapUpserts
  {
    GcpPlans(q, prim, ctx, ProviderGcp.ConfigMapDelivery);
    var p := ProviderGcp.PlanFor(q.gcp, prim, ctx, ProviderGcp.ConfigMapDelivery);
    PlanAllHas(providers, prim, ctx, q);
    PartOfMerged(PlanAll(providers, prim, ctx).value, p);
    GcpTexts(q, prim, ctx);
    assert Single(p).configmapUpserts[0] in Single(p).configmapUpserts;
  }
}
