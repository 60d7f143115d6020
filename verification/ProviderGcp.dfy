/** The GCP provider: a token, a credentials file delivered in one of two ways, and the variable that names it. */
module ProviderGcp {
  import opened Prelude
  import opened Text
  import opened JsonPatch
  import opened Annotations
  import opened Resolve
  import opened Plan
  import opened Credentials

  const K_SERVICE_ACCOUNT := "cwii.dev/gcp-service-account"
  const K_DELIVERY := "cwii.dev/gcp-delivery"
  const NATIVE_SERVICE_ACCOUNT := "iam.gke.io/gcp-service-account"
  const CREDS_VOLUME := "cwii-gcp-creds"
  const CREDS_FILENAME := "credentials.json"
  const WRITER_DIR := "/cwii/gcp"
  const CREDS_VARIABLE := "GOOGLE_APPLICATION_CREDENTIALS"
  const WRITER_VARIABLE := "CWII_GCP_CREDS_JSON"
  const CHECK := "gcloud auth application-default print-access-token >/dev/null"

  datatype Delivery = ConfigMapDelivery | InitContainerDelivery

  /** `GcpDelivery::from_str` */
  function ParseDelivery(s: string): Result<Delivery> {
    var t := ReplaceChar(Lower(Trim(s)), '_', '-');
    if t == "config-map" || t == "configmap" then Ok(ConfigMapDelivery)
    else if t == "init-container" || t == "initcontainer" then Ok(InitContainerDelivery)
    else Err("unknown gcp delivery mode: " + t)
  }

  datatype GcpConfig = GcpConfig(
    defaultAudience: Option<string>,
    delivery: Delivery,
    initImage: string,
    verifyImage: string,
    nativeAnnotations: bool)

  function Keys(): set<string> {
    {InjectKey(Gcp), AudienceKey(Gcp), TokenExpirationKey(Gcp), VerifyKey(Gcp), VerifyEnforceKey(Gcp), VerifyImageKey(Gcp),
     K_SERVICE_ACCOUNT, K_DELIVERY, NATIVE_SERVICE_ACCOUNT}
  }

  function Enabled(cfg: GcpConfig, a: AnnotationSet): bool {
    EnabledWithNative(a, Gcp, cfg.nativeAnnotations && a.FirstNonEmpty(NATIVE_SERVICE_ACCOUNT).Some?)
  }

  // ---- the settings ----

  function Audience(cfg: GcpConfig, a: AnnotationSet): string {
    a.FirstNonEmpty(AudienceKey(Gcp)).GetOr(cfg.defaultAudience.GetOr(""))
  }

  function ServiceAccount(cfg: GcpConfig, a: AnnotationSet): (r: Option<string>)
    ensures r != Some("")
  {
    NativeOr(a, K_SERVICE_ACCOUNT, NATIVE_SERVICE_ACCOUNT, cfg.nativeAnnotations)
  }

  function DeliveryFor(cfg: GcpConfig, a: AnnotationSet): Result<Delivery> {
    match a.FirstNonEmpty(K_DELIVERY)
    case Some(s) => ParseDelivery(s)
    case None => Ok(cfg.delivery)
  }

  function Token(cfg: GcpConfig, ctx: ProviderContext): TokenSpec {
    ProjectedToken(ctx, Gcp, Audience(cfg, ctx.annotations))
  }

  function CredsText(cfg: GcpConfig, prim: Primitives, ctx: ProviderContext): string {
    prim.encode(CredentialsDocument(
                  Audience(cfg, ctx.annotations), Token(cfg, ctx).TokenFilePath(), ServiceAccount(cfg, ctx.annotations)))
  }

  function NameFor(cfg: GcpConfig, prim: Primitives, ctx: ProviderContext): string {
    ConfigMapName(prim, Audience(cfg, ctx.annotations), ServiceAccount(cfg, ctx.annotations))
  }

  // ---- the pieces ----

  function CredsDir(ctx: ProviderContext): string {
    TrimEndSlashes(ctx.mountRoot) + "/" + "gcp-creds"
  }

  function CredsMount(ctx: ProviderContext): VolumeMount {
    VolumeMount(CREDS_VOLUME, CredsDir(ctx), true)
  }

  function CredsEnv(ctx: ProviderContext): seq<EnvVar> {
    [EnvVar(CREDS_VARIABLE, CredsDir(ctx) + "/" + CREDS_FILENAME)]
  }

  function ConfigMapVolume(name: string): VolumeSpec {
    VolumeSpec(
      CREDS_VOLUME,
      Obj(map[
            "name" := Str(CREDS_VOLUME),
            "configMap" := Obj(map[
              "name" := Str(name),
              "items" := Arr([Obj(map["key" := Str(CREDS_FILENAME), "path" := Str(CREDS_FILENAME)])])])]))
  }

  const EMPTY_DIR_VOLUME := VolumeSpec(CREDS_VOLUME, Obj(map["name" := Str(CREDS_VOLUME), "emptyDir" := Obj(map[])]))

  function Writer(image: string, text: string): InitContainer {
    InitContainer(
      "cwii-gcp-creds-writer",
      image,
      ["sh", "-c"],
      ["printf '%s' \"$" + WRITER_VARIABLE + "\" > " + WRITER_DIR + "/" + CREDS_FILENAME],
      [EnvVar(WRITER_VARIABLE, text)],
      [VolumeMount(CREDS_VOLUME, WRITER_DIR, false)],
      HARDENED_WRITER_SECURITY_CONTEXT,
      WRITER_RESOURCES,
      0)
  }

  function DeliveryVolume(d: Delivery, name: string): VolumeSpec {
    match d case ConfigMapDelivery => ConfigMapVolume(name) case InitContainerDelivery => EMPTY_DIR_VOLUME
  }

  function DeliveryInits(d: Delivery, cfg: GcpConfig, text: string): seq<InitContainer> {
    match d case ConfigMapDelivery => [] case InitContainerDelivery => [Writer(cfg.initImage, text)]
  }

  function DeliveryUpsert(d: Delivery, name: string, text: string): Option<ConfigMapUpsert> {
    match d
    case ConfigMapDelivery => Some(ConfigMapUpsert(name, CREDS_FILENAME, text))
    case InitContainerDelivery => None
  }

  /** The plan once the delivery mode is known. */
  function PlanFor(cfg: GcpConfig, prim: Primitives, ctx: ProviderContext, d: Delivery): ProviderPlan {
    var token := Token(cfg, ctx);
    var mounts := [token.Mount(), CredsMount(ctx)];
    ProviderPlan(
      Gcp,
      [token.Volume(), DeliveryVolume(d, NameFor(cfg, prim, ctx))],
      mounts,
      CredsEnv(ctx),
      DeliveryInits(d, cfg, CredsText(cfg, prim, ctx)) + Verifiers(ctx, Gcp, cfg.verifyImage, CHECK, CredsEnv(ctx), mounts),
      DeliveryUpsert(d, NameFor(cfg, prim, ctx), CredsText(cfg, prim, ctx)))
  }

  /** No audience: skipped. An explicit but unknown delivery mode: an error. */
  function PlanOf(cfg: GcpConfig, prim: Primitives, ctx: ProviderContext): Result<Option<ProviderPlan>> {
    if Audience(cfg, ctx.annotations) == "" then Ok(None)
    else match DeliveryFor(cfg, ctx.annotations)
      case Err(e) => Err(e)
      case Ok(d) => Ok(Some(PlanFor(cfg, prim, ctx, d)))
  }

  method MakePlan(cfg: GcpConfig, prim: Primitives, ctx: ProviderContext) returns (r: Result<Option<ProviderPlan>>)
    ensures r == PlanOf(cfg, prim, ctx)
  {
    var a := ctx.annotations;
    var audience := Audience(cfg, a);
    if audience == "" {
      return Ok(None);
    }
    var token := ProjectedToken(ctx, Gcp, audience);
    var account := ServiceAccount(cfg, a);
    var text := BuildCredentialsJson(prim, audience, token.TokenFilePath(), account);
    var delivery := DeliveryFor(cfg, a);
    if delivery.Err? {
      return Err(delivery.error);
    }
    var volumes := [token.Volume()];
    var mounts := [token.Mount()];
    var inits: seq<InitContainer> := [];
    var upsert: Option<ConfigMapUpsert> := None;
    match delivery.value {
      case ConfigMapDelivery =>
        var name := HashedName(prim, audience, account);
        volumes := volumes + [ConfigMapVolume(name)];
        upsert := Some(ConfigMapUpsert(name, CREDS_FILENAME, text));
      case InitContainerDelivery =>
        volumes := volumes + [EMPTY_DIR_VOLUME];
        inits := inits + [Writer(cfg.initImage, text)];
    }
    assert volumes == [token.Volume(), DeliveryVolume(delivery.value, NameFor(cfg, prim, ctx))];
    assert inits == DeliveryInits(delivery.value, cfg, text);
    assert upsert == DeliveryUpsert(delivery.value, NameFor(cfg, prim, ctx), text);
    mounts := mounts + [CredsMount(ctx)];
    assert mounts == [token.Mount(), CredsMount(ctx)];
    var env := CredsEnv(ctx);
    inits := PushVerifier(inits, ctx, Gcp, cfg.verifyImage, CHECK, env, [token.Mount(), CredsMount(ctx)]);
    r := Ok(Some(ProviderPlan(Gcp, volumes, mounts, env, inits, upsert)));
  }
}
