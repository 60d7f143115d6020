/** Provider identifiers and the annotation keys under `cwii.dev`. */
module Annotations {
  import opened Prelude

  datatype ProviderId = Gcp | Aws | Az {
    function Abbr(): string {
      match this
      case Gcp => "gcp"
      case Aws => "aws"
      case Az => "az"
    }
  }

  const PREFIX := "cwii.dev"
  const K_INJECTED := "cwii.dev/injected"

  function ProviderKey(id: ProviderId, suffix: string): string {
    PREFIX + "/" + id.Abbr() + suffix
  }

  function InjectKey(id: ProviderId): string { ProviderKey(id, "-inject") }
  function AudienceKey(id: ProviderId): string { ProviderKey(id, "-audience") }
  function TokenExpirationKey(id: ProviderId): string { ProviderKey(id, "-token-expiration") }
  function VerifyKey(id: ProviderId): string { ProviderKey(id, "-verify") }
  function VerifyEnforceKey(id: ProviderId): string { ProviderKey(id, "-verify-enforce") }
  function VerifyImageKey(id: ProviderId): string { ProviderKey(id, "-verify-image") }

  /** The provider whose settings a key belongs to, told from three of its characters. */
  function KeyOwner(key: string): Option<ProviderId> {
    if |key| <= 10 then None
    else if key[0] == 'i' then Some(Gcp)
    else if key[0] == 'e' then Some(Aws)
    else if key[0] == 'a' then Some(Az)
    else if key[0] == 'c' && key[9] == 'g' then Some(Gcp)
    else if key[0] == 'c' && key[9] == 'a' && key[10] == 'w' then Some(Aws)
    else if key[0] == 'c' && key[9] == 'a' && key[10] == 'z' then Some(Az)
    else None
  }

  lemma ProviderKeyOwner(id: ProviderId, suffix: string)
    requires suffix != ""
    ensures KeyOwner(ProviderKey(id, suffix)) == Some(id)
  {
    var key := ProviderKey(id, suffix);
    assert key[..9] == "cwii.dev/";
    assert key[9..] == id.Abbr() + suffix;
    assert key[0] == key[..9][0];
    assert key[9] == key[9..][0] && key[10] == key[9..][1];
  }

  /** The marker key is no provider's setting. */
  lemma MarkerKeyOwner()
    ensures KeyOwner(K_INJECTED) == None
  {
  }

  lemma GcpKeys()
    ensures InjectKey(Gcp) == "cwii.dev/gcp-inject"
    ensures AudienceKey(Gcp) == "cwii.dev/gcp-audience"
    ensures TokenExpirationKey(Gcp) == "cwii.dev/gcp-token-expiration"
    ensures VerifyKey(Gcp) == "cwii.dev/gcp-verify"
    ensures VerifyEnforceKey(Gcp) == "cwii.dev/gcp-verify-enforce"
    ensures VerifyImageKey(Gcp) == "cwii.dev/gcp-verify-image"
  {
  }

  lemma AwsKeys()
    ensures InjectKey(Aws) == "cwii.dev/aws-inject"
    ensures AudienceKey(Aws) == "cwii.dev/aws-audience"
    ensures TokenExpirationKey(Aws) == "cwii.dev/aws-token-expiration"
    ensures VerifyKey(Aws) == "cwii.dev/aws-verify"
    ensures VerifyEnforceKey(Aws) == "cwii.dev/aws-verify-enforce"
    ensures VerifyImageKey(Aws) == "cwii.dev/aws-verify-image"
  {
  }

  lemma AzKeys()
    ensures InjectKey(Az) == "cwii.dev/az-inject"
    ensures AudienceKey(Az) == "cwii.dev/az-audience"
    ensures TokenExpirationKey(Az) == "cwii.dev/az-token-expiration"
    ensures VerifyKey(Az) == "cwii.dev/az-verify"
    ensures VerifyEnforceKey(Az) == "cwii.dev/az-verify-enforce"
    ensures VerifyImageKey(Az) == "cwii.dev/az-verify-image"
  {
  }
}
