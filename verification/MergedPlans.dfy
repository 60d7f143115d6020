/** What holds of every merge of plans that come from distinct providers. */
module MergedPlans {
  import opened Prelude
  import opened Text
  import opened JsonPatch
  import opened Items
  import opened Annotations
  import opened Resolve
  import opened Plan
  import opened Credentials
  import opened Pods
  import opened Patch
  import opened Injection
  import opened Frames
  import opened Providers
  import ProviderGcp
  import ProviderAws
  import ProviderAz
  import Shell
  import Runs

  // ---- who owns a name ----

  /** The provider of a volume, mount or init container name `cwii-<abbr>-...`. */
  function ObjectOwner(name: string): Option<ProviderId> {
    if |name| <= 6 then None
    else if name[5] == 'g' then Some(Gcp)
    else if name[6] == 'w' then Some(Aws)
    else if name[6] == 'z' then Some(Az)
    else None
  }

  /** The provider of an environment variable. */
  function VariableOwner(name: string): Option<ProviderId> {
    if |name| <= 1 then None
    else if name[0] == 'G' then Some(Gcp)
    else if name[1] == 'W' then Some(Aws)
    else if name[1] == 'Z' then Some(Az)
    else None
  }

  /** No name twice, and every name belongs to one of `ids`. */
  ghost predicate Owned(names: seq<string>, owner: string -> Option<ProviderId>, ids: set<ProviderId>) {
    Distinct(names) && forall n :: n in names ==> owner(n).Some? && owner(n).value in ids
  }

  lemma OwnedAppend(
    xs: seq<string>, ys: seq<string>, owner: string -> Option<ProviderId>, a: set<ProviderId>, b: set<ProviderId>)
    requires Owned(xs, owner, a) && Owned(ys, owner, b) && a !! b
    ensures Owned(xs + ys, owner, a + b)
  {
    DistinctAppend(xs, ys);
  }

  ghost predicate PlanOwned(plan: MutationPlan, ids: set<ProviderId>) {
    && Owned(NameSeq(VolumeItems(plan.volumes)), ObjectOwner, ids)
    && Owned(NameSeq(MountItems(plan.containerMounts)), ObjectOwner, ids)
    && Owned(NameSeq(EnvItems(plan.containerEnv)), VariableOwner, ids)
    && Owned(NameSeq(InitItems(plan.initContainers)), ObjectOwner, ids)
  }

  lemma NameSeqAppend(xs: seq<Item>, ys: seq<Item>)
    ensures NameSeq(xs + ys) == NameSeq(xs) + NameSeq(ys)
  {
  }

  lemma PlanOwnedAppend(p: MutationPlan, q: MutationPlan, a: set<ProviderId>, b: set<ProviderId>)
    requires PlanOwned(p, a) && PlanOwned(q, b) && a !! b
    ensures PlanOwned(Append(p, q), a + b)
  {
    Runs.ItemsAppend(p, q);
    NameSeqAppend(VolumeItems(p.volumes), VolumeItems(q.volumes));
    NameSeqAppend(MountItems(p.containerMounts), MountItems(q.containerMounts));
    NameSeqAppend(EnvItems(p.containerEnv), EnvItems(q.containerEnv));
    NameSeqAppend(InitItems(p.initContainers), InitItems(q.initContainers));
    OwnedAppend(NameSeq(VolumeItems(p.volumes)), NameSeq(VolumeItems(q.volumes)), ObjectOwner, a, b);
    OwnedAppend(NameSeq(MountItems(p.containerMounts)), NameSeq(MountItems(q.containerMounts)), ObjectOwner, a, b);
    OwnedAppend(NameSeq(EnvItems(p.containerEnv)), NameSeq(EnvItems(q.containerEnv)), VariableOwner, a, b);
    OwnedAppend(NameSeq(InitItems(p.initContainers)), NameSeq(InitItems(q.initContainers)), ObjectOwner, a, b);
  }

  // ---- where volumes are mounted ----

  /** The volumes cwii plans: each provider's token, and the GCP credentials. */
  datatype VolumeKind = TokenOf(id: ProviderId) | Creds {
    function Name(): string {
      match this
      case TokenOf(id) => "cwii-" + id.Abbr() + "-token"
      case Creds => ProviderGcp.CREDS_VOLUME
    }

    function Leaf(): string {
      match this case TokenOf(id) => id.Abbr() case Creds => "gcp-creds"
    }

    function Owner(): ProviderId {
      match this case TokenOf(id) => id case Creds => Gcp
    }

    /** Mounted read-only in a directory of its own under the root. */
    function Mount(root: string): VolumeMount {
      VolumeMount(Name(), TrimEndSlashes(root) + "/" + Leaf(), true)
    }
  }

  lemma KindFacts(k: VolumeKind, k': VolumeKind)
    ensures ObjectOwner(k.Name()) == Some(k.Owner())
    ensures k != k' ==> k.Name() != k'.Name() && k.Leaf() != k'.Leaf()
    ensures k.Leaf() != "" && '/' !in k.Leaf()
  {
    var n, n' := k.Name(), k'.Name();
    assert k.TokenOf? ==> n[5..] == k.id.Abbr() + "-token" && n[5] == n[5..][0] && n[6] == n[5..][1];
    assert k'.TokenOf? ==> n'[5..] == k'.id.Abbr() + "-token" && n'[5] == n'[5..][0] && n'[6] == n'[5..][1];
    assert k == TokenOf(Gcp) ==> n[9] == n[5..][4] == 't';
    assert k' == TokenOf(Gcp) ==> n'[9] == n'[5..][4] == 't';
  }

  // ---- one provider's plan ----

  ghost predicate MountsPlaced(mounts: seq<VolumeMount>, root: string) {
    forall m :: m in mounts ==> exists k: VolumeKind :: m == k.Mount(root)
  }

  /** What a plan needs to satisfy for the theorems about patches and merges to apply to it. */
  ghost predicate WellPlanned(plan: MutationPlan, ids: set<ProviderId>, root: string) {
    && PlanOwned(plan, ids)
    && MountsCovered(plan)
    && PlanSelfNamed(plan)
    && MountsPlaced(plan.containerMounts, root)
  }

  lemma VerifierNames(
    ctx: ProviderContext, id: ProviderId, image: string, check: string, env: seq<EnvVar>, mounts: seq<VolumeMount>)
    ensures var vs := Verifiers(ctx, id, image, check, env, mounts);
            && |vs| <= 1
            && (forall c :: c in vs ==> c.name == "cwii-" + id.Abbr() + "-verify" && c.mounts == mounts && c.order == 10)
  {
  }

  lemma VerifierNameOwner(id: ProviderId)
    ensures ObjectOwner("cwii-" + id.Abbr() + "-verify") == Some(id)
    ensures id == Gcp ==> "cwii-" + id.Abbr() + "-verify" != "cwii-gcp-creds-writer"
    ensures ObjectOwner("cwii-gcp-creds-writer") == Some(Gcp)
  {
    var n := "cwii-" + id.Abbr() + "-verify";
    assert n[5..] == id.Abbr() + "-verify";
    assert n[5] == n[5..][0] && n[6] == n[5..][1];
  }

  lemma OwnedAtMostOne(names: seq<string>, owner: string -> Option<ProviderId>, id: ProviderId)
    requires |names| <= 1 && forall n :: n in names ==> owner(n) == Some(id)
    ensures Owned(names, owner, {id})
  {
  }

  lemma VerifiersOwned(
    ctx: ProviderContext, id: ProviderId, image: string, check: string, env: seq<EnvVar>, mounts: seq<VolumeMount>)
    ensures Owned(NameSeq(InitItems(Verifiers(ctx, id, image, check, env, mounts))), ObjectOwner, {id})
  {
    var vs := Verifiers(ctx, id, image, check, env, mounts);
    VerifierNames(ctx, id, image, check, env, mounts);
    VerifierNameOwner(id);
    assert forall i :: 0 <= i < |vs| ==> vs[i] in vs && NameSeq(InitItems(vs))[i] == vs[i].name;
    OwnedAtMostOne(NameSeq(InitItems(vs)), ObjectOwner, id);
  }

  lemma TokenPieces(t: TokenSpec, ctx: ProviderContext)
    requires t.mountDir == TrimEndSlashes(ctx.mountRoot) + "/" + t.provider.Abbr()
    ensures t.Mount() == TokenOf(t.provider).Mount(ctx.mountRoot)
    ensures t.Volume().name == TokenOf(t.provider).Name()
    ensures DecodeItem(t.Volume().value) == Ok(t.Volume().ToItem())
  {
  }

  lemma OwnedMaybe(names: seq<string>, more: bool, n: string, owner: string -> Option<ProviderId>, id: ProviderId)
    requires Owned(names, owner, {id}) && n !in names && owner(n) == Some(id)
    ensures Owned(names + if more then [n] else [], owner, {id})
  {
    if more {
      DistinctAppend(names, [n]);
    }
  }

  lemma OwnedPair(m: string, n: string, owner: string -> Option<ProviderId>, id: ProviderId)
    requires m != n && owner(m) == Some(id) && owner(n) == Some(id)
    ensures Owned([m, n], owner, {id})
  {
  }

  lemma AwsVariables()
    ensures "AWS_ROLE_ARN" != ProviderAws.TOKEN_VARIABLE
    ensures "AWS_REGION" !in ["AWS_ROLE_ARN", ProviderAws.TOKEN_VARIABLE]
    ensures "AWS_ROLE_SESSION_NAME" !in ["AWS_ROLE_ARN", ProviderAws.TOKEN_VARIABLE, "AWS_REGION"]
  {
    assert |"AWS_ROLE_ARN"| == 12 && |ProviderAws.TOKEN_VARIABLE| == 27 && |"AWS_REGION"| == 10;
    assert |"AWS_ROLE_SESSION_NAME"| == 21;
  }

  lemma AzVariables()
    ensures "AZURE_CLIENT_ID" != "AZURE_TENANT_ID"
    ensures ProviderAz.TOKEN_VARIABLE !in ["AZURE_CLIENT_ID", "AZURE_TENANT_ID"]
    ensures "AZURE_AUTHORITY_HOST" !in ["AZURE_CLIENT_ID", "AZURE_TENANT_ID", ProviderAz.TOKEN_VARIABLE]
  {
    assert "AZURE_CLIENT_ID"[6] != "AZURE_TENANT_ID"[6];
    assert |"AZURE_CLIENT_ID"| == 15 && |"AZURE_TENANT_ID"| == 15;
    assert |ProviderAz.TOKEN_VARIABLE| == 26 && |"AZURE_AUTHORITY_HOST"| == 20;
  }

  lemma OptionalNames(name: string, value: Option<string>)
    ensures NameSeq(EnvItems(Optional(name, value))) == if value.Some? then [name] else []
  {
  }

  lemma EnvItemsAppend(xs: seq<EnvVar>, ys: seq<EnvVar>)
    ensures NameSeq(EnvItems(xs + ys)) == NameSeq(EnvItems(xs)) + NameSeq(EnvItems(ys))
  {
    assert EnvItems(xs + ys) == EnvItems(xs) + EnvItems(ys);
    NameSeqAppend(EnvItems(xs), EnvItems(ys));
  }

  lemma AwsNames(arn: string, file: string, a: AnnotationSet)
    ensures Owned(NameSeq(EnvItems(ProviderAws.Env(arn, file, a))), VariableOwner, {Aws})
  {
    var base := [EnvVar("AWS_ROLE_ARN", arn), EnvVar(ProviderAws.TOKEN_VARIABLE, file)];
    var region, session := a.FirstNonEmpty(ProviderAws.K_REGION), a.FirstNonEmpty(ProviderAws.K_SESSION_NAME);
    var regionEnv, sessionEnv := Optional("AWS_REGION", region), Optional("AWS_ROLE_SESSION_NAME", session);
    OptionalNames("AWS_REGION", region);
    OptionalNames("AWS_ROLE_SESSION_NAME", session);
    EnvItemsAppend(base, regionEnv);
    EnvItemsAppend(base + regionEnv, sessionEnv);
    var names := NameSeq(EnvItems(base));
    assert names == ["AWS_ROLE_ARN", ProviderAws.TOKEN_VARIABLE];
    AwsVariables();
    OwnedPair("AWS_ROLE_ARN", ProviderAws.TOKEN_VARIABLE, VariableOwner, Aws);
    OwnedMaybe(names, region.Some?, "AWS_REGION", VariableOwner, Aws);
    OwnedMaybe(names + if region.Some? then ["AWS_REGION"] else [], session.Some?, "AWS_ROLE_SESSION_NAME", VariableOwner, Aws);
  }

  lemma AzNames(client: string, tenant: string, file: string, a: AnnotationSet)
    ensures Owned(NameSeq(EnvItems(ProviderAz.Env(client, tenant, file, a))), VariableOwner, {Az})
  {
    var base := [EnvVar("AZURE_CLIENT_ID", client), EnvVar("AZURE_TENANT_ID", tenant), EnvVar(ProviderAz.TOKEN_VARIABLE, file)];
    var host := a.FirstNonEmpty(ProviderAz.K_AUTHORITY_HOST);
    OptionalNames("AZURE_AUTHORITY_HOST", host);
    EnvItemsAppend(base, Optional("AZURE_AUTHORITY_HOST", host));
    var pair := ["AZURE_CLIENT_ID", "AZURE_TENANT_ID"];
    assert NameSeq(EnvItems(base)) == pair + [ProviderAz.TOKEN_VARIABLE];
    AzVariables();
    OwnedPair("AZURE_CLIENT_ID", "AZURE_TENANT_ID", VariableOwner, Az);
    OwnedMaybe(pair, true, ProviderAz.TOKEN_VARIABLE, VariableOwner, Az);
    OwnedMaybe(pair + [ProviderAz.TOKEN_VARIABLE], host.Some?, "AZURE_AUTHORITY_HOST", VariableOwner, Az);
  }

  /** A plan with one token volume, mounted once. */
  lemma OneTokenWellPlanned(
    t: TokenSpec, ctx: ProviderContext, env: seq<EnvVar>, image: string, check: string)
    requires t.mountDir == TrimEndSlashes(ctx.mountRoot) + "/" + t.provider.Abbr()
    requires Owned(NameSeq(EnvItems(env)), VariableOwner, {t.provider})
    ensures WellPlanned(
              Single(ProviderPlan(t.provider, [t.Volume()], [t.Mount()], env,
                                  Verifiers(ctx, t.provider, image, check, env, [t.Mount()]), None)),
              {t.provider}, ctx.mountRoot)
  {
    TokenPieces(t, ctx);
    KindFacts(TokenOf(t.provider), Creds);
    VerifiersOwned(ctx, t.provider, image, check, env, [t.Mount()]);
    VerifierNames(ctx, t.provider, image, check, env, [t.Mount()]);
    var volumes, mounts := VolumeItems([t.Volume()]), MountItems([t.Mount()]);
    assert NameSeq(volumes) == [t.VolumeName()] == NameSeq(mounts);
    OwnedAtMostOne(NameSeq(volumes), ObjectOwner, t.provider);
    assert NamesOf(mounts) == NamesOf(volumes) by {
      assert volumes == [t.Volume().ToItem()] && mounts == [t.Mount().ToItem()];
    }
  }

  lemma DeliveryPieces(cfg: ProviderGcp.GcpConfig, d: ProviderGcp.Delivery, name: string, text: string)
    ensures var v := ProviderGcp.DeliveryVolume(d, name);
            v.name == Creds.Name() && DecodeItem(v.value) == Ok(v.ToItem())
    ensures forall c :: c in ProviderGcp.DeliveryInits(d, cfg, text) ==>
              c.name == "cwii-gcp-creds-writer" && c.mounts == [VolumeMount(Creds.Name(), ProviderGcp.WRITER_DIR, false)]
    ensures |ProviderGcp.DeliveryInits(d, cfg, text)| <= 1
  {
  }

  lemma WritersThenVerifiersOwned(writers: seq<InitContainer>, verifiers: seq<InitContainer>)
    requires |writers| <= 1 && (forall c :: c in writers ==> c.name == "cwii-gcp-creds-writer")
    requires forall c :: c in verifiers ==> c.name == "cwii-" + Gcp.Abbr() + "-verify"
    requires Owned(NameSeq(InitItems(verifiers)), ObjectOwner, {Gcp})
    ensures Owned(NameSeq(InitItems(writers + verifiers)), ObjectOwner, {Gcp})
  {
    VerifierNameOwner(Gcp);
    var w, v := NameSeq(InitItems(writers)), NameSeq(InitItems(verifiers));
    InitNamesAppend(writers, verifiers);
    assert forall i :: 0 <= i < |writers| ==> writers[i] in writers && w[i] == writers[i].name;
    assert forall i :: 0 <= i < |verifiers| ==> verifiers[i] in verifiers && v[i] == verifiers[i].name;
    OwnedAtMostOne(w, ObjectOwner, Gcp);
    DistinctAppend(w, v);
  }

  lemma InitNamesAppend(xs: seq<InitContainer>, ys: seq<InitContainer>)
    ensures NameSeq(InitItems(xs + ys)) == NameSeq(InitItems(xs)) + NameSeq(InitItems(ys))
  {
    assert InitItems(xs + ys) == InitItems(xs) + InitItems(ys);
    NameSeqAppend(InitItems(xs), InitItems(ys));
  }

  lemma PairNames(x: Item, y: Item)
    ensures NamesOf([x, y]) == {x.name, y.name} && NameSeq([x, y]) == [x.name, y.name]
  {
    assert [x, y][0] == x && [x, y][1] == y;
  }

  /** The two volumes of the GCP provider, and init containers that mount one or both of them. */
  ghost predicate MountsTheTwo(c: InitContainer, mounts: seq<VolumeMount>) {
    c.mounts == mounts || exists dir :: c.mounts == [VolumeMount(Creds.Name(), dir, false)]
  }

  lemma TwoVolumesCovered(p: ProviderPlan, t: VolumeSpec, v: VolumeSpec, tm: VolumeMount, vm: VolumeMount)
    requires p.volumes == [t, v] && p.containerMounts == [tm, vm]
    requires t.name == tm.name && v.name == vm.name == Creds.Name()
    requires forall c :: c in p.initContainers ==> MountsTheTwo(c, p.containerMounts)
    ensures MountsCovered(Single(p))
  {
    assert VolumeItems(p.volumes) == [t.ToItem(), v.ToItem()];
    assert MountItems(p.containerMounts) == [tm.ToItem(), vm.ToItem()];
    PairNames(t.ToItem(), v.ToItem());
    PairNames(tm.ToItem(), vm.ToItem());
    forall c | c in p.initContainers
      ensures NamesOf(MountItems(c.mounts)) <= NamesOf(VolumeItems(p.volumes))
    {
      if c.mounts != p.containerMounts {
        var dir :| c.mounts == [VolumeMount(Creds.Name(), dir, false)];
        assert MountItems(c.mounts) == [VolumeMount(Creds.Name(), dir, false).ToItem()];
      }
    }
  }

  lemma TwoVolumesOwned(p: ProviderPlan, t: VolumeSpec, v: VolumeSpec, tm: VolumeMount, vm: VolumeMount, e: EnvVar)
    requires p.volumes == [t, v] && p.containerMounts == [tm, vm] && p.containerEnv == [e]
    requires t.name == tm.name == TokenOf(Gcp).Name() && v.name == vm.name == Creds.Name()
    requires VariableOwner(e.name) == Some(Gcp)
    requires Owned(NameSeq(InitItems(p.initContainers)), ObjectOwner, {Gcp})
    ensures PlanOwned(Single(p), {Gcp})
  {
    KindFacts(TokenOf(Gcp), Creds);
    KindFacts(Creds, Creds);
    assert VolumeItems(p.volumes) == [t.ToItem(), v.ToItem()];
    assert MountItems(p.containerMounts) == [tm.ToItem(), vm.ToItem()];
    PairNames(t.ToItem(), v.ToItem());
    PairNames(tm.ToItem(), vm.ToItem());
    OwnedPair(t.name, v.name, ObjectOwner, Gcp);
    assert NameSeq(EnvItems(p.containerEnv)) == [e.name];
    OwnedAtMostOne([e.name], VariableOwner, Gcp);
  }

  lemma GcpShape(cfg: ProviderGcp.GcpConfig, prim: Primitives, ctx: ProviderContext, d: ProviderGcp.Delivery)
    ensures var p, token := ProviderGcp.PlanFor(cfg, prim, ctx, d), ProviderGcp.Token(cfg, ctx);
            && p.provider == Gcp && token.provider == Gcp
            && p.volumes == [token.Volume(), ProviderGcp.DeliveryVolume(d, ProviderGcp.NameFor(cfg, prim, ctx))]
            && p.containerMounts == [token.Mount(), Creds.Mount(ctx.mountRoot)]
            && p.containerEnv == [EnvVar(ProviderGcp.CREDS_VARIABLE, Creds.Mount(ctx.mountRoot).mountPath + "/" + ProviderGcp.CREDS_FILENAME)]
            && p.initContainers == ProviderGcp.DeliveryInits(d, cfg, ProviderGcp.CredsText(cfg, prim, ctx))
                                   + Verifiers(ctx, Gcp, cfg.verifyImage, ProviderGcp.CHECK, p.containerEnv, p.containerMounts)
            && token.mountDir == TrimEndSlashes(ctx.mountRoot) + "/" + token.provider.Abbr()
  {
  }

  lemma GcpWellPlanned(cfg: ProviderGcp.GcpConfig, prim: Primitives, ctx: ProviderContext, d: ProviderGcp.Delivery)
    ensures WellPlanned(Single(ProviderGcp.PlanFor(cfg, prim, ctx, d)), {Gcp}, ctx.mountRoot)
  {
    var text, name := ProviderGcp.CredsText(cfg, prim, ctx), ProviderGcp.NameFor(cfg, prim, ctx);
    GcpShape(cfg, prim, ctx, d);
    DeliveryPieces(cfg, d, name, text);
    TokenPieces(ProviderGcp.Token(cfg, ctx), ctx);
    TwoVolumesWellPlanned(
      ProviderGcp.PlanFor(cfg, prim, ctx, d), ProviderGcp.Token(cfg, ctx), ProviderGcp.DeliveryVolume(d, name), ctx,
      ProviderGcp.DeliveryInits(d, cfg, text), cfg.verifyImage, ProviderGcp.CHECK);
  }

  lemma TwoVolumesWellPlanned(
    p: ProviderPlan, token: TokenSpec, v: VolumeSpec, ctx: ProviderContext,
    writers: seq<InitContainer>, image: string, check: string)
    requires p.provider == Gcp && token.provider == Gcp
    requires token.Mount() == TokenOf(Gcp).Mount(ctx.mountRoot) && token.Volume().name == TokenOf(Gcp).Name()
    requires DecodeItem(token.Volume().value) == Ok(token.Volume().ToItem())
    requires v.name == Creds.Name() && DecodeItem(v.value) == Ok(v.ToItem())
    requires p.volumes == [token.Volume(), v]
    requires p.containerMounts == [token.Mount(), Creds.Mount(ctx.mountRoot)]
    requires |p.containerEnv| == 1 && p.containerEnv[0].name == ProviderGcp.CREDS_VARIABLE
    requires |writers| <= 1
    requires forall c :: c in writers ==>
               c.name == "cwii-gcp-creds-writer" && c.mounts == [VolumeMount(Creds.Name(), ProviderGcp.WRITER_DIR, false)]
    requires p.initContainers == writers + Verifiers(ctx, Gcp, image, check, p.containerEnv, p.containerMounts)
    ensures WellPlanned(Single(p), {Gcp}, ctx.mountRoot)
  {
    var vm := Creds.Mount(ctx.mountRoot);
    var verifiers := Verifiers(ctx, Gcp, image, check, p.containerEnv, p.containerMounts);
    VerifierNames(ctx, Gcp, image, check, p.containerEnv, p.containerMounts);
    VerifiersOwned(ctx, Gcp, image, check, p.containerEnv, p.containerMounts);
    WritersThenVerifiersOwned(writers, verifiers);
    assert forall c :: c in p.initContainers ==> c in writers || c in verifiers;
    TwoVolumesCovered(p, token.Volume(), v, token.Mount(), vm);
    TwoVolumesOwned(p, token.Volume(), v, token.Mount(), vm, p.containerEnv[0]);
    assert VolumeItems(p.volumes) == [token.Volume().ToItem(), v.ToItem()];
  }

  /** Every plan of every provider, whatever the annotations. */
  lemma ProviderWellPlanned(p: Provider, prim: Primitives, ctx: ProviderContext)
    requires p.PlanOf(prim, ctx).Ok? && p.PlanOf(prim, ctx).value.Some?
    ensures WellPlanned(Single(p.PlanOf(prim, ctx).value.value), {p.Id()}, ctx.mountRoot)
  {
    var a := ctx.annotations;
    match p
    case GcpProvider(cfg) =>
      GcpWellPlanned(cfg, prim, ctx, ProviderGcp.DeliveryFor(cfg, a).value);
    case AwsProvider(cfg) =>
      var token, arn := ProviderAws.Token(cfg, ctx), ProviderAws.RoleArn(cfg, a).value;
      AwsNames(arn, token.TokenFilePath(), a);
      OneTokenWellPlanned(token, ctx, ProviderAws.Env(arn, token.TokenFilePath(), a), cfg.verifyImage, ProviderAws.CHECK);
    case AzProvider(cfg) =>
      var token := ProviderAz.Token(cfg, ctx);
      var client, tenant := ProviderAz.ClientId(cfg, a).value, ProviderAz.TenantId(cfg, a).value;
      AzNames(client, tenant, token.TokenFilePath(), a);
      OneTokenWellPlanned(
        token, ctx, ProviderAz.Env(client, tenant, token.TokenFilePath(), a), cfg.verifyImage, Shell.Render(ProviderAz.CHECK));
  }

  // ---- merges ----

  lemma EmptyWellPlanned(root: string)
    ensures WellPlanned(EMPTY_PLAN, {}, root)
  {
  }

  lemma WellPlannedAppend(p: MutationPlan, q: MutationPlan, a: set<ProviderId>, b: set<ProviderId>, root: string)
    requires WellPlanned(p, a, root) && WellPlanned(q, b, root) && a !! b
    ensures WellPlanned(Append(p, q), a + b, root)
  {
    PlanOwnedAppend(p, q, a, b);
    Runs.ItemsAppend(p, q);
    var all := VolumeItems(p.volumes) + VolumeItems(q.volumes);
    assert NamesOf(VolumeItems(p.volumes)) <= NamesOf(all) && NamesOf(VolumeItems(q.volumes)) <= NamesOf(all);
    assert NamesOf(MountItems(p.containerMounts) + MountItems(q.containerMounts))
        == NamesOf(MountItems(p.containerMounts)) + NamesOf(MountItems(q.containerMounts));
  }

  function IdsOf(providers: seq<Provider>): set<ProviderId> {
    set p | p in providers :: p.Id()
  }

  lemma WellPlannedWiden(p: MutationPlan, a: set<ProviderId>, b: set<ProviderId>, root: string)
    requires WellPlanned(p, a, root) && a <= b
    ensures WellPlanned(p, b, root)
  {
  }

  lemma {:induction false} ConcatenatedWellPlanned(providers: seq<Provider>, prim: Primitives, ctx: ProviderContext)
    requires DistinctIds(providers) && PlanAll(providers, prim, ctx).Ok?
    ensures WellPlanned(Concatenated(PlanAll(providers, prim, ctx).value), IdsOf(providers), ctx.mountRoot)
  {
    if providers == [] {
      EmptyWellPlanned(ctx.mountRoot);
    } else {
      var init, p := providers[..|providers| - 1], providers[|providers| - 1];
      assert providers == init + [p];
      ConcatenatedWellPlanned(init, prim, ctx);
      var earlier := PlanAll(init, prim, ctx).value;
      assert IdsOf(providers) == IdsOf(init) + {p.Id()};
      WellPlannedWiden(Concatenated(earlier), IdsOf(init), IdsOf(providers), ctx.mountRoot);
      if p.Enabled(ctx.annotations) && p.PlanOf(prim, ctx).value.Some? {
        var plan := p.PlanOf(prim, ctx).value.value;
        ProviderWellPlanned(p, prim, ctx);
        ConcatenatedAppend(earlier, [plan]);
        ConcatenatedOne(plan);
        assert p.Id() !in IdsOf(init);
        WellPlannedAppend(Concatenated(earlier), Single(plan), IdsOf(init), {p.Id()}, ctx.mountRoot);
      }
    }
  }

  lemma {:induction false} InsertNames(c: InitContainer, cs: seq<InitContainer>)
    requires Distinct(NameSeq(InitItems(cs))) && c.name !in NameSeq(InitItems(cs))
    ensures Distinct(NameSeq(InitItems(InsertByOrder(c, cs))))
    ensures forall n :: n in NameSeq(InitItems(InsertByOrder(c, cs))) <==> n == c.name || n in NameSeq(InitItems(cs))
  {
    InitNamesAppend([c], cs);
    assert NameSeq(InitItems([c])) == [c.name];
    DistinctCons(c.name, NameSeq(InitItems(cs)));
    if cs != [] && c.order > cs[0].order {
      var head, rest := cs[0], cs[1..];
      assert cs == [head] + rest && NameSeq(InitItems([head])) == [head.name];
      InitNamesAppend([head], rest);
      DistinctCons(head.name, NameSeq(InitItems(rest)));
      InsertNames(c, rest);
      InitNamesAppend([head], InsertByOrder(c, rest));
      DistinctCons(head.name, NameSeq(InitItems(InsertByOrder(c, rest))));
    }
  }

  lemma {:induction false} SortNames(cs: seq<InitContainer>)
    requires Distinct(NameSeq(InitItems(cs)))
    ensures Distinct(NameSeq(InitItems(SortByOrder(cs))))
    ensures forall n :: n in NameSeq(InitItems(SortByOrder(cs))) <==> n in NameSeq(InitItems(cs))
  {
    if cs != [] {
      var head, rest := cs[0], cs[1..];
      assert cs == [head] + rest && NameSeq(InitItems([head])) == [head.name];
      InitNamesAppend([head], rest);
      DistinctCons(head.name, NameSeq(InitItems(rest)));
      SortNames(rest);
      InsertNames(head, SortByOrder(rest));
    }
  }

  /**
   * Whatever the registry's providers plan, their merge names nothing twice, covers its mounts with its
   * volumes, mounts each volume in its own directory and renders every volume under its own name.
   */
  lemma MergedWellPlanned(providers: seq<Provider>, prim: Primitives, ctx: ProviderContext)
    requires DistinctIds(providers) && PlanAll(providers, prim, ctx).Ok?
    ensures WellPlanned(Merged(PlanAll(providers, prim, ctx).value), IdsOf(providers), ctx.mountRoot)
    ensures PlanNamesDistinct(Merged(PlanAll(providers, prim, ctx).value))
  {
    var all := Concatenated(PlanAll(providers, prim, ctx).value);
    ConcatenatedWellPlanned(providers, prim, ctx);
    SortNames(all.initContainers);
    SortFacts(all.initContainers);
    assert forall c :: c in SortByOrder(all.initContainers) ==> c in multiset(all.initContainers);
  }

  // ---- composition over providers ----

  lemma OwnedDisjoint(xs: seq<Item>, ys: seq<Item>, owner: string -> Option<ProviderId>, a: set<ProviderId>, b: set<ProviderId>)
    requires Owned(NameSeq(xs), owner, a) && Owned(NameSeq(ys), owner, b) && a !! b
    ensures NamesOf(xs) !! NamesOf(ys)
  {
    forall n | n in NamesOf(xs)
      ensures n !in NamesOf(ys)
    {
      assert n in NameSeq(xs);
      assert n in NamesOf(ys) ==> n in NameSeq(ys);
    }
  }

  lemma {:induction false} PlanAllAppend(ps: seq<Provider>, qs: seq<Provider>, prim: Primitives, ctx: ProviderContext)
    requires PlanAll(ps, prim, ctx).Ok? && PlanAll(qs, prim, ctx).Ok?
    ensures PlanAll(ps + qs, prim, ctx) == Ok(PlanAll(ps, prim, ctx).value + PlanAll(qs, prim, ctx).value)
    decreases |qs|
  {
    var pps := PlanAll(ps, prim, ctx).value;
    if qs == [] {
      assert ps + qs == ps && pps + [] == pps;
    } else {
      var init, last := qs[..|qs| - 1], qs[|qs| - 1];
      assert qs == init + [last] && ps + qs == (ps + init) + [last];
      PlanAllStep(init, last, prim, ctx);
      PlanAllStep(ps + init, last, prim, ctx);
      PlanAllAppend(ps, init, prim, ctx);
      PlanNextAppend(pps, PlanAll(init, prim, ctx).value, last, prim, ctx);
    }
  }

  /**
   * Two groups of providers in one webhook or in two that run one after the other: the pod comes out the
   * same but for the order of the injected init containers.
   */
  lemma ProviderGroupsCompose(ps: seq<Provider>, qs: seq<Provider>, prim: Primitives, ctx: ProviderContext, pod: Pod)
    requires DistinctIds(ps + qs) && PlanAll(ps, prim, ctx).Ok? && PlanAll(qs, prim, ctx).Ok?
    ensures PlanAll(ps + qs, prim, ctx).Ok?
    ensures var once := InjectPod(pod, Merged(PlanAll(ps + qs, prim, ctx).value));
            var twice := InjectPod(InjectPod(pod, Merged(PlanAll(ps, prim, ctx).value)), Merged(PlanAll(qs, prim, ctx).value));
            Runs.SameUpToInitOrder(once, twice)
  {
    var pps, qqs := PlanAll(ps, prim, ctx).value, PlanAll(qs, prim, ctx).value;
    GroupsDistinct(ps, qs);
    PlanAllAppend(ps, qs, prim, ctx);
    MergedWellPlanned(ps, prim, ctx);
    MergedWellPlanned(qs, prim, ctx);
    DisjointOwners(Merged(pps), Merged(qqs), IdsOf(ps), IdsOf(qs));
    Runs.MergeComposes(pod, pps, qqs);
  }

  lemma DisjointOwners(p: MutationPlan, q: MutationPlan, a: set<ProviderId>, b: set<ProviderId>)
    requires PlanOwned(p, a) && PlanOwned(q, b) && a !! b
    ensures Runs.DisjointNames(p, q)
  {
    OwnedDisjoint(VolumeItems(p.volumes), VolumeItems(q.volumes), ObjectOwner, a, b);
    OwnedDisjoint(MountItems(p.containerMounts), MountItems(q.containerMounts), ObjectOwner, a, b);
    OwnedDisjoint(EnvItems(p.containerEnv), EnvItems(q.containerEnv), VariableOwner, a, b);
    OwnedDisjoint(InitItems(p.initContainers), InitItems(q.initContainers), ObjectOwner, a, b);
  }

  lemma GroupsDistinct(ps: seq<Provider>, qs: seq<Provider>)
    requires DistinctIds(ps + qs)
    ensures DistinctIds(ps) && DistinctIds(qs) && IdsOf(ps) !! IdsOf(qs)
  {
    var all := ps + qs;
    assert forall i :: 0 <= i < |ps| ==> all[i] == ps[i];
    assert forall i :: 0 <= i < |qs| ==> all[|ps| + i] == qs[i];
    forall p, q | p in ps && q in qs
      ensures p.Id() != q.Id()
    {
      var i :| 0 <= i < |ps| && ps[i] == p;
      var j :| 0 <= j < |qs| && qs[j] == q;
      assert all[i].Id() != all[|ps| + j].Id();
    }
  }
}
