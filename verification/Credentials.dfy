/** GCP credentials documents and the deterministic name of the ConfigMap that carries them. */
module Credentials {
  import opened Prelude
  import opened JsonPatch

  /** The two library routines the webhook relies on: a digest rendered in hex, and JSON text encoding. */
  datatype Primitives = Primitives(digest: string -> string, encode: Json -> string)

  function ImpersonationUrl(sa: string): string {
    "https://iamcredentials.googleapis.com/v1/projects/-/serviceAccounts/" + sa + ":generateAccessToken"
  }

  function FederatedDocument(audience: string, tokenFile: string): map<string, Json> {
    map[
      "type" := Str("external_account"),
      "audience" := Str(audience),
      "subject_token_type" := Str("urn:ietf:params:oauth:token-type:jwt"),
      "token_url" := Str("https://sts.googleapis.com/v1/token"),
      "token_info_url" := Str("https://sts.googleapis.com/v1/introspect"),
      "credential_source" := Obj(map["file" := Str(tokenFile)])]
  }

  /** The document, with an impersonation hop when a service account is given. */
  function CredentialsDocument(audience: string, tokenFile: string, sa: Option<string>): Json {
    match sa
    case None => Obj(FederatedDocument(audience, tokenFile))
    case Some(s) =>
      Obj(FederatedDocument(audience, tokenFile)["service_account_impersonation_url" := Str(ImpersonationUrl(s))])
  }

  /**
   * An external-account document of this audience whose subject token is read from this file, impersonating
   * the account if there is one.
   */
  ghost predicate ExternalAccount(doc: Json, audience: string, tokenFile: string, sa: Option<string>) {
    && NodeAt(doc, ["type"]) == Some(Str("external_account"))
    && NodeAt(doc, ["audience"]) == Some(Str(audience))
    && NodeAt(doc, ["subject_token_type"]) == Some(Str("urn:ietf:params:oauth:token-type:jwt"))
    && NodeAt(doc, ["token_url"]) == Some(Str("https://sts.googleapis.com/v1/token"))
    && NodeAt(doc, ["token_info_url"]) == Some(Str("https://sts.googleapis.com/v1/introspect"))
    && NodeAt(doc, ["credential_source", "file"]) == Some(Str(tokenFile))
    && NodeAt(doc, ["service_account_impersonation_url"]) ==
       match sa {
         case None => None
         case Some(account) => Some(Str("https://iamcredentials.googleapis.com/v1/projects/-/serviceAccounts/"
                                        + account + ":generateAccessToken"))
       }
  }

  lemma FederatedMembers(audience: string, tokenFile: string)
    ensures var m := FederatedDocument(audience, tokenFile);
            && Member(m, "type") == Str("external_account")
            && Member(m, "audience") == Str(audience)
            && Member(m, "credential_source") == Obj(map["file" := Str(tokenFile)])
            && "service_account_impersonation_url" !in m
  {
    assert |"audience"| == 8 && |"type"| == 4 && |"subject_token_type"| == 18 && |"token_url"| == 9;
    assert |"token_info_url"| == 14 && |"credential_source"| == 17 && |"service_account_impersonation_url"| == 33;
  }

  lemma FederatedEndpoints(audience: string, tokenFile: string)
    ensures var m := FederatedDocument(audience, tokenFile);
            && Member(m, "subject_token_type") == Str("urn:ietf:params:oauth:token-type:jwt")
            && Member(m, "token_url") == Str("https://sts.googleapis.com/v1/token")
            && Member(m, "token_info_url") == Str("https://sts.googleapis.com/v1/introspect")
  {
    assert |"subject_token_type"| == 18 && |"token_url"| == 9 && |"token_info_url"| == 14 && |"credential_source"| == 17;
  }

  lemma AddMember(m: map<string, Json>, key: string, value: Json, other: string)
    requires key !in m && other in m
    ensures Member(m[key := value], other) == Member(m, other)
    ensures NodeAt(Obj(m[key := value]), [other]) == NodeAt(Obj(m), [other]) == Some(Member(m, other))
  {
    MemberNode(m, other);
    MemberNode(m[key := value], other);
  }

  lemma FileNode(m: map<string, Json>, tokenFile: string)
    requires "credential_source" in m && m["credential_source"] == Obj(map["file" := Str(tokenFile)])
    ensures NodeAt(Obj(m), ["credential_source", "file"]) == Some(Str(tokenFile))
  {
    assert ["credential_source", "file"][1..] == ["file"];
    MemberNode(map["file" := Str(tokenFile)], "file");
  }

  lemma DocumentIsExternalAccount(audience: string, tokenFile: string, sa: Option<string>)
    ensures ExternalAccount(CredentialsDocument(audience, tokenFile, sa), audience, tokenFile, sa)
  {
    var m, key := FederatedDocument(audience, tokenFile), "service_account_impersonation_url";
    var value := Str(ImpersonationUrl(sa.GetOr("")));
    FederatedMembers(audience, tokenFile);
    FederatedEndpoints(audience, tokenFile);
    AddMember(m, key, value, "type");
    AddMember(m, key, value, "audience");
    AddMember(m, key, value, "subject_token_type");
    AddMember(m, key, value, "token_url");
    AddMember(m, key, value, "token_info_url");
    AddMember(m, key, value, "credential_source");
    FileNode(m, tokenFile);
    FileNode(m[key := value], tokenFile);
    MemberNode(m, key);
    MemberNode(m[key := value], key);
  }

  method BuildCredentialsJson(prim: Primitives, audience: string, tokenFile: string, sa: Option<string>)
    returns (text: string)
    ensures text == prim.encode(CredentialsDocument(audience, tokenFile, sa))
    ensures exists doc :: text == prim.encode(doc) && ExternalAccount(doc, audience, tokenFile, sa)
  {
    DocumentIsExternalAccount(audience, tokenFile, sa);
    var obj: map<string, Json> := map[];
    obj := obj["type" := Str("external_account")];
    obj := obj["audience" := Str(audience)];
    obj := obj["subject_token_type" := Str("urn:ietf:params:oauth:token-type:jwt")];
    obj := obj["token_url" := Str("https://sts.googleapis.com/v1/token")];
    obj := obj["token_info_url" := Str("https://sts.googleapis.com/v1/introspect")];
    obj := obj["credential_source" := Obj(map["file" := Str(tokenFile)])];
    assert obj == FederatedDocument(audience, tokenFile);
    if sa.Some? {
      obj := obj["service_account_impersonation_url" := Str(ImpersonationUrl(sa.value))];
    }
    text := prim.encode(Obj(obj));
  }

  const NUL: char := '\0'

  /** What is fed to the digest. */
  function Preimage(audience: string, sa: Option<string>): string {
    audience + [NUL] + sa.GetOr("")
  }

  function ConfigMapName(prim: Primitives, audience: string, sa: Option<string>): string {
    "cwii-gcp-creds-" + prim.digest(Preimage(audience, sa))
  }

  method HashedName(prim: Primitives, audience: string, sa: Option<string>) returns (name: string)
    ensures name == ConfigMapName(prim, audience, sa)
    ensures name == "cwii-gcp-creds-" + prim.digest(audience + ['\0'] + sa.GetOr(""))
  {
    var fed := audience;
    fed := fed + [NUL];
    if sa.Some? {
      fed := fed + sa.value;
    }
    assert fed == Preimage(audience, sa);
    name := "cwii-gcp-creds-" + prim.digest(fed);
  }

  /** The pairs the provider names ConfigMaps for: an audience, and an account that is absent or not empty. */
  predicate Nameable(audience: string, sa: Option<string>) {
    audience != "" && sa != Some("")
  }

  /** The digest does not confuse these two inputs. */
  ghost predicate NoCollision(prim: Primitives, p: string, q: string) {
    prim.digest(p) == prim.digest(q) ==> p == q
  }

  /** Two NUL-free audiences: equal preimages mean equal pairs. */
  lemma PreimageDeterminesPair(a: string, s: Option<string>, a': string, s': Option<string>)
    requires Nameable(a, s) && Nameable(a', s')
    requires NUL !in a && NUL !in a'
    ensures Preimage(a, s) == Preimage(a', s') <==> a == a' && s == s'
  {
    if Preimage(a, s) == Preimage(a', s') {
      var p := Preimage(a, s);
      assert p[|a|] == NUL && p[|a'|] == NUL;
      assert forall i :: 0 <= i < |a| ==> p[i] == a[i];
      assert forall i :: 0 <= i < |a'| ==> p[i] == a'[i];
      assert |a| == |a'|;
      assert a == p[..|a|] == a';
      assert s.GetOr("") == p[|a| + 1..] == s'.GetOr("");
    }
  }

  /** Without collisions among the names in use, a name stands for one credentials document per token path. */
  lemma NameDeterminesDocument(prim: Primitives, a: string, s: Option<string>, a': string, s': Option<string>, tokenFile: string)
    requires Nameable(a, s) && Nameable(a', s')
    requires NUL !in a && NUL !in a'
    requires NoCollision(prim, Preimage(a, s), Preimage(a', s'))
    requires ConfigMapName(prim, a, s) == ConfigMapName(prim, a', s')
    ensures a == a' && s == s'
    ensures CredentialsDocument(a, tokenFile, s) == CredentialsDocument(a', tokenFile, s')
  {
    CommonPrefix("cwii-gcp-creds-", prim.digest(Preimage(a, s)), prim.digest(Preimage(a', s')));
    PreimageDeterminesPair(a, s, a', s');
  }

  /** No other nameable pair has this preimage. */
  ghost predicate UniquelyNamed(a: string, s: Option<string>) {
    forall a', s' :: Nameable(a', s') && Preimage(a', s') == Preimage(a, s) ==> a' == a && s' == s
  }

  /**
   * With NUL characters allowed the preimage is ambiguous; it stands for its pair alone exactly when there is
   * no NUL in the account nor in the audience after its first character.
   */
  lemma UniquelyNamedExactly(a: string, s: Option<string>)
    requires Nameable(a, s)
    ensures UniquelyNamed(a, s) <==> NUL !in a[1..] && NUL !in s.GetOr("")
  {
    var t := s.GetOr("");
    if NUL in a[1..] {
      var i :| 0 <= i < |a[1..]| && a[1..][i] == NUL;
      SplitInAudience(a, s, i + 1);
    } else if NUL in t {
      var j :| 0 <= j < |t| && t[j] == NUL;
      SplitInAccount(a, s, j);
    } else {
      forall a', s' | Nameable(a', s') && Preimage(a', s') == Preimage(a, s)
        ensures a' == a && s' == s
      {
        OneSplit(a, s, a', s');
      }
    }
  }

  lemma OneSplit(a: string, s: Option<string>, a': string, s': Option<string>)
    requires Nameable(a, s) && Nameable(a', s') && Preimage(a', s') == Preimage(a, s)
    requires NUL !in a[1..] && NUL !in s.GetOr("")
    ensures a' == a && s' == s
  {
    var p, t, k := Preimage(a, s), s.GetOr(""), |a'|;
    assert p[k] == Preimage(a', s')[k] == NUL;
    forall i | 1 <= i < |p| && i != |a|
      ensures p[i] != NUL
    {
      if i < |a| {
        assert p[i] == a[1..][i - 1];
      } else {
        assert p[i] == t[i - |a| - 1];
      }
    }
    assert k == |a|;
    assert a == p[..k] == a';
    assert t == p[k + 1..] == s'.GetOr("");
  }

  lemma SplitInAudience(a: string, s: Option<string>, i: nat)
    requires Nameable(a, s) && 1 <= i < |a| && a[i] == NUL
    ensures !UniquelyNamed(a, s)
  {
    var a', s' := a[..i], Some(a[i + 1..] + [NUL] + s.GetOr(""));
    assert a == a[..i] + [NUL] + a[i + 1..];
    assert Preimage(a', s') == Preimage(a, s);
    assert Nameable(a', s') && |a'| < |a|;
  }

  lemma SplitInAccount(a: string, s: Option<string>, j: nat)
    requires Nameable(a, s) && j < |s.GetOr("")| && s.GetOr("")[j] == NUL
    ensures !UniquelyNamed(a, s)
  {
    var t := s.GetOr("");
    var a', rest := a + [NUL] + t[..j], t[j + 1..];
    var s' := if rest == "" then None else Some(rest);
    assert t == t[..j] + [NUL] + rest;
    assert Preimage(a', s') == Preimage(a, s);
    assert Nameable(a', s') && |a'| > |a|;
  }
}
