/** The AWS provider: a token and the variables the SDKs read. */
module ProviderAws {
  import opened Prelude
  import opened Text
  import opened Annotations
  import opened Resolve
  import opened Plan

  const K_ROLE_ARN := "cwii.dev/aws-role-arn"
  const K_REGION := "cwii.dev/aws-region"
  const K_SESSION_NAME := "cwii.dev/aws-role-session-name"
  const NATIVE_ROLE_ARN := "eks.amazonaws.com/role-arn"
  const TOKEN_VARIABLE := "AWS_WEB_IDENTITY_TOKEN_FILE"
  const CHECK := "aws sts get-caller-identity"

  datatype AwsConfig = AwsConfig(defaultAudience: string, verifyImage: string, nativeAnnotations: bool)

  function Keys(): set<string> {
    {InjectKey(Aws), AudienceKey(Aws), TokenExpirationKey(Aws), VerifyKey(Aws), VerifyEnforceKey(Aws), VerifyImageKey(Aws),
     K_ROLE_ARN, K_REGION, K_SESSION_NAME, NATIVE_ROLE_ARN}
  }

  function Enabled(cfg: AwsConfig, a: AnnotationSet): bool {
    EnabledWithNative(a, Aws, cfg.nativeAnnotations && a.FirstNonEmpty(NATIVE_ROLE_ARN).Some?)
  }

  function RoleArn(cfg: AwsConfig, a: AnnotationSet): Option<string> {
    NativeOr(a, K_ROLE_ARN, NATIVE_ROLE_ARN, cfg.nativeAnnotations)
  }

  function Audience(cfg: AwsConfig, a: AnnotationSet): string {
    a.FirstNonEmpty(AudienceKey(Aws)).GetOr(cfg.defaultAudience)
  }

  function Token(cfg: AwsConfig, ctx: ProviderContext): TokenSpec {
    ProjectedToken(ctx, Aws, Audience(cfg, ctx.annotations))
  }

  function Env(arn: string, tokenFile: string, a: AnnotationSet): seq<EnvVar> {
    [EnvVar("AWS_ROLE_ARN", arn), EnvVar(TOKEN_VARIABLE, tokenFile)]
    + Optional("AWS_REGION", a.FirstNonEmpty(K_REGION))
    + Optional("AWS_ROLE_SESSION_NAME", a.FirstNonEmpty(K_SESSION_NAME))
  }

  function PlanFor(cfg: AwsConfig, ctx: ProviderContext, arn: string): ProviderPlan {
    var token := Token(cfg, ctx);
    var env := Env(arn, token.TokenFilePath(), ctx.annotations);
    ProviderPlan(
      Aws,
      [token.Volume()],
      [token.Mount()],
      env,
      Verifiers(ctx, Aws, cfg.verifyImage, CHECK, env, [token.Mount()]),
      None)
  }

  /** No role: skipped. Never an error. */
  function PlanOf(cfg: AwsConfig, ctx: ProviderContext): Result<Option<ProviderPlan>> {
    match RoleArn(cfg, ctx.annotations)
    case None => Ok(None)
    case Some(arn) => Ok(Some(PlanFor(cfg, ctx, arn)))
  }

  method MakePlan(cfg: AwsConfig, ctx: ProviderContext) returns (r: Result<Option<ProviderPlan>>)
    ensures r == PlanOf(cfg, ctx)
  {
    var a := ctx.annotations;
    var arn := RoleArn(cfg, a);
    if arn.None? {
      return Ok(None);
    }
    var token := ProjectedToken(ctx, Aws, Audience(cfg, a));
    var env := [EnvVar("AWS_ROLE_ARN", arn.value), EnvVar(TOKEN_VARIABLE, token.TokenFilePath())];
    var region := a.FirstNonEmpty(K_REGION);
    if region.Some? {
      env := env + [EnvVar("AWS_REGION", region.value)];
    }
    var session := a.FirstNonEmpty(K_SESSION_NAME);
    if session.Some? {
      env := env + [EnvVar("AWS_ROLE_SESSION_NAME", session.value)];
    }
    assert env == Env(arn.value, token.TokenFilePath(), a);
    var inits := PushVerifier([], ctx, Aws, cfg.verifyImage, CHECK, env, [token.Mount()]);
    NilLeft(Verifiers(ctx, Aws, cfg.verifyImage, CHECK, env, [token.Mount()]));
    r := Ok(Some(ProviderPlan(Aws, [token.Volume()], [token.Mount()], env, inits, None)));
  }
}
