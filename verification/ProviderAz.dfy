/** The Azure provider: a token and the variables the SDKs read. */
module ProviderAz {
  import opened Prelude
  import opened Text
  import opened Annotations
  import opened Resolve
  import opened Plan
  import opened Shell

  const K_CLIENT_ID := "cwii.dev/az-client-id"
  const K_TENANT_ID := "cwii.dev/az-tenant-id"
  const K_AUTHORITY_HOST := "cwii.dev/az-authority-host"
  const NATIVE_CLIENT_ID := "azure.workload.identity/client-id"
  const NATIVE_TENANT_ID := "azure.workload.identity/tenant-id"
  const TOKEN_VARIABLE := "AZURE_FEDERATED_TOKEN_FILE"

  const LOGIN := "az login --service-principal -u \"$AZURE_CLIENT_ID\" -t \"$AZURE_TENANT_ID\" --federated-token \"$(cat \"$AZURE_FEDERATED_TOKEN_FILE\")\" >/dev/null"
  const SHOW := "az account show >/dev/null"

  /** The check is two commands joined with `&&`. */
  const CHECK := AndOrList(LOGIN, [(And, SHOW)])

  datatype AzConfig = AzConfig(defaultAudience: string, verifyImage: string, nativeAnnotations: bool)

  function Keys(): set<string> {
    {InjectKey(Az), AudienceKey(Az), TokenExpirationKey(Az), VerifyKey(Az), VerifyEnforceKey(Az), VerifyImageKey(Az),
     K_CLIENT_ID, K_TENANT_ID, K_AUTHORITY_HOST, NATIVE_CLIENT_ID, NATIVE_TENANT_ID}
  }

  function Enabled(cfg: AzConfig, a: AnnotationSet): bool {
    EnabledWithNative(a, Az, cfg.nativeAnnotations && a.FirstNonEmpty(NATIVE_CLIENT_ID).Some?)
  }

  function ClientId(cfg: AzConfig, a: AnnotationSet): Option<string> {
    NativeOr(a, K_CLIENT_ID, NATIVE_CLIENT_ID, cfg.nativeAnnotations)
  }

  function TenantId(cfg: AzConfig, a: AnnotationSet): Option<string> {
    NativeOr(a, K_TENANT_ID, NATIVE_TENANT_ID, cfg.nativeAnnotations)
  }

  function Audience(cfg: AzConfig, a: AnnotationSet): string {
    a.FirstNonEmpty(AudienceKey(Az)).GetOr(cfg.defaultAudience)
  }

  function Token(cfg: AzConfig, ctx: ProviderContext): TokenSpec {
    ProjectedToken(ctx, Az, Audience(cfg, ctx.annotations))
  }

  function Env(client: string, tenant: string, tokenFile: string, a: AnnotationSet): seq<EnvVar> {
    [EnvVar("AZURE_CLIENT_ID", client), EnvVar("AZURE_TENANT_ID", tenant), EnvVar(TOKEN_VARIABLE, tokenFile)]
    + Optional("AZURE_AUTHORITY_HOST", a.FirstNonEmpty(K_AUTHORITY_HOST))
  }

  function PlanFor(cfg: AzConfig, ctx: ProviderContext, client: string, tenant: string): ProviderPlan {
    var token := Token(cfg, ctx);
    var env := Env(client, tenant, token.TokenFilePath(), ctx.annotations);
    ProviderPlan(
      Az,
      [token.Volume()],
      [token.Mount()],
      env,
      Verifiers(ctx, Az, cfg.verifyImage, Render(CHECK), env, [token.Mount()]),
      None)
  }

  /** No client or no tenant: skipped. Never an error. */
  function PlanOf(cfg: AzConfig, ctx: ProviderContext): Result<Option<ProviderPlan>> {
    match (ClientId(cfg, ctx.annotations), TenantId(cfg, ctx.annotations))
    case (Some(client), Some(tenant)) => Ok(Some(PlanFor(cfg, ctx, client, tenant)))
    case _ => Ok(None)
  }

  method MakePlan(cfg: AzConfig, ctx: ProviderContext) returns (r: Result<Option<ProviderPlan>>)
    ensures r == PlanOf(cfg, ctx)
  {
    var a := ctx.annotations;
    var client, tenant := ClientId(cfg, a), TenantId(cfg, a);
    if client.None? || tenant.None? {
      return Ok(None);
    }
    var token := ProjectedToken(ctx, Az, Audience(cfg, a));
    var env := [
      EnvVar("AZURE_CLIENT_ID", client.value),
      EnvVar("AZURE_TENANT_ID", tenant.value),
      EnvVar(TOKEN_VARIABLE, token.TokenFilePath())];
    var authority := a.FirstNonEmpty(K_AUTHORITY_HOST);
    if authority.Some? {
      env := env + [EnvVar("AZURE_AUTHORITY_HOST", authority.value)];
    }
    assert env == Env(client.value, tenant.value, token.TokenFilePath(), a);
    var inits := PushVerifier([], ctx, Az, cfg.verifyImage, Render(CHECK), env, [token.Mount()]);
    NilLeft(Verifiers(ctx, Az, cfg.verifyImage, Render(CHECK), env, [token.Mount()]));
    r := Ok(Some(ProviderPlan(Az, [token.Volume()], [token.Mount()], env, inits, None)));
  }
}
