/** What providers ask for, and the merge that combines their requests. */
module Plan {
  import opened Prelude
  import opened Text
  import opened JsonPatch
  import opened Items
  import opened Annotations
  import opened Resolve

  datatype ProviderContext = ProviderContext(
    annotations: AnnotationSet,
    namespace: string,
    serviceAccountName: string,
    mountRoot: string,
    defaultTokenExpirationSecs: int)

  const MIN_TOKEN_EXPIRATION_SECS := 600

  function ClampTokenExpiration(secs: int): int {
    if secs < MIN_TOKEN_EXPIRATION_SECS then MIN_TOKEN_EXPIRATION_SECS else secs
  }

  // ---- the pieces of a plan ----

  datatype VolumeSpec = VolumeSpec(name: string, value: Json) {
    function ToItem(): Item { Item(name, value) }
  }

  datatype VolumeMount = VolumeMount(name: string, mountPath: string, readOnly: bool) {
    function ToValue(): Json {
      Obj(map["name" := Str(name), "mountPath" := Str(mountPath), "readOnly" := Bool(readOnly)])
    }

    function ToItem(): Item { Item(name, ToValue()) }
  }

  datatype EnvVar = EnvVar(name: string, value: string) {
    function ToValue(): Json {
      Obj(map["name" := Str(name), "value" := Str(value)])
    }

    function ToItem(): Item { Item(name, ToValue()) }
  }

  /** A variable that is set only when there is a value for it. */
  function Optional(name: string, value: Option<string>): seq<EnvVar> {
    match value case None => [] case Some(v) => [EnvVar(name, v)]
  }

  datatype InitContainer = InitContainer(
    name: string,
    image: string,
    command: seq<string>,
    args: seq<string>,
    env: seq<EnvVar>,
    mounts: seq<VolumeMount>,
    securityContext: Json,
    resources: Json,
    order: int)
  {
    function ToValue(): Json {
      Obj(map[
            "name" := Str(name),
            "image" := Str(image),
            "imagePullPolicy" := Str("IfNotPresent"),
            "command" := Strings(command),
            "args" := Strings(args),
            "env" := Arr(Bodies(EnvItems(env))),
            "volumeMounts" := Arr(Bodies(MountItems(mounts))),
            "securityContext" := securityContext,
            "resources" := resources])
    }

    function ToItem(): Item { Item(name, ToValue()) }
  }

  function Strings(xs: seq<string>): Json {
    Arr(seq(|xs|, i requires 0 <= i < |xs| => Str(xs[i])))
  }

  function VolumeItems(vs: seq<VolumeSpec>): (r: seq<Item>)
    ensures |r| == |vs|
  {
    seq(|vs|, i requires 0 <= i < |vs| => vs[i].ToItem())
  }

  function MountItems(ms: seq<VolumeMount>): (r: seq<Item>)
    ensures |r| == |ms|
  {
    seq(|ms|, i requires 0 <= i < |ms| => ms[i].ToItem())
  }

  function EnvItems(es: seq<EnvVar>): (r: seq<Item>)
    ensures |r| == |es|
  {
    seq(|es|, i requires 0 <= i < |es| => es[i].ToItem())
  }

  function InitItems(cs: seq<InitContainer>): (r: seq<Item>)
    ensures |r| == |cs|
  {
    seq(|cs|, i requires 0 <= i < |cs| => cs[i].ToItem())
  }

  // ---- projected tokens ----

  datatype TokenSpec = TokenSpec(
    provider: ProviderId,
    audience: string,
    expirationSecs: int,
    mountDir: string,
    fileName: string)
  {
    function VolumeName(): string {
      "cwii-" + provider.Abbr() + "-token"
    }

    function TokenFilePath(): string {
      TrimEndSlashes(mountDir) + "/" + fileName
    }

    function Volume(): VolumeSpec {
      VolumeSpec(
        VolumeName(),
        Obj(map[
              "name" := Str(VolumeName()),
              "projected" := Obj(map[
                "sources" := Arr([Obj(map[
                  "serviceAccountToken" := Obj(map[
                    "audience" := Str(audience),
                    "expirationSeconds" := Num(expirationSecs),
                    "path" := Str(fileName)])])])])]))
    }

    function Mount(): VolumeMount {
      VolumeMount(VolumeName(), mountDir, true)
    }
  }

  function ProjectedToken(ctx: ProviderContext, id: ProviderId, audience: string): TokenSpec {
    TokenSpec(
      id,
      audience,
      ClampTokenExpiration(ctx.annotations.FirstI64(TokenExpirationKey(id)).GetOr(ctx.defaultTokenExpirationSecs)),
      TrimEndSlashes(ctx.mountRoot) + "/" + id.Abbr(),
      "token")
  }

  const TOKEN_SOURCE := ["projected", "sources", "0", "serviceAccountToken"]

  /**
   * The lifetime the kubelet is asked for: never under the Kubernetes minimum, the first non-empty
   * annotation when that is a number of at least 600, and the clamped default when it is no `i64`.
   */
  lemma TokenLifetime(ctx: ProviderContext, id: ProviderId, audience: string)
    ensures var rendered := NodeAt(ProjectedToken(ctx, id, audience).Volume().value, TOKEN_SOURCE + ["expirationSeconds"]);
            var annotated := ctx.annotations.FirstNonEmpty(TokenExpirationKey(id));
            var clampedDefault := if ctx.defaultTokenExpirationSecs >= 600 then ctx.defaultTokenExpirationSecs else 600;
            && rendered.Some? && rendered.value.Num? && rendered.value.n >= 600
            && (match annotated
                case None => rendered.value.n == clampedDefault
                case Some(s) =>
                  match ParseI64(s)
                  case None => rendered.value.n == clampedDefault
                  case Some(n) => rendered.value.n == if n >= 600 then n else 600)
  {
    var token := ProjectedToken(ctx, id, audience);
    TokenSource(token);
    var source := NodeAt(token.Volume().value, TOKEN_SOURCE).value;
    NodeBelow(token.Volume().value, TOKEN_SOURCE, ["expirationSeconds"]);
    assert NodeAt(source, ["expirationSeconds"]) == NodeAt(source.members["expirationSeconds"], []);
  }

  lemma {:induction false} NodeBelow(doc: Json, a: seq<string>, b: seq<string>)
    requires NodeAt(doc, a).Some?
    ensures NodeAt(doc, a + b) == NodeAt(NodeAt(doc, a).value, b)
    decreases |a|
  {
    if a == [] {
      assert a + b == b;
    } else {
      assert (a + b)[1..] == a[1..] + b;
      match doc {
        case Obj(m) => NodeBelow(m[a[0]], a[1..], b);
        case Arr(xs) => NodeBelow(xs[ParseIndex(a[0]).value], a[1..], b);
      }
    }
  }

  /** The volume has one source, the token with this provider's audience, lifetime and file name. */
  lemma TokenSource(t: TokenSpec)
    ensures NodeAt(t.Volume().value, TOKEN_SOURCE) ==
            Some(Obj(map[
                       "audience" := Str(t.audience),
                       "expirationSeconds" := Num(t.expirationSecs),
                       "path" := Str(t.fileName)]))
  {
    var doc := t.Volume().value;
    var projected := doc.members["projected"];
    var sources := projected.members["sources"];
    assert "0"[..0] == "" && DigitsValue("0") == 0;
    assert ParseIndex("0") == Some(0);
    var leaf := sources.items[0].members["serviceAccountToken"];
    assert NodeAt(sources.items[0], ["serviceAccountToken"]) == NodeAt(leaf, []);
    assert ["0", "serviceAccountToken"][1..] == ["serviceAccountToken"];
    assert NodeAt(sources, ["0", "serviceAccountToken"]) == Some(leaf);
    assert ["sources", "0", "serviceAccountToken"][1..] == ["0", "serviceAccountToken"];
    assert NodeAt(projected, ["sources", "0", "serviceAccountToken"]) == Some(leaf);
    assert TOKEN_SOURCE[1..] == ["sources", "0", "serviceAccountToken"];
  }

  // ---- plans and the merge ----

  datatype ConfigMapUpsert = ConfigMapUpsert(name: string, dataKey: string, dataValue: string)

  datatype ProviderPlan = ProviderPlan(
    provider: ProviderId,
    volumes: seq<VolumeSpec>,
    containerMounts: seq<VolumeMount>,
    containerEnv: seq<EnvVar>,
    initContainers: seq<InitContainer>,
    configmapUpsert: Option<ConfigMapUpsert>)

  datatype MutationPlan = MutationPlan(
    volumes: seq<VolumeSpec>,
    containerMounts: seq<VolumeMount>,
    containerEnv: seq<EnvVar>,
    initContainers: seq<InitContainer>,
    configmapUpserts: seq<ConfigMapUpsert>,
    injectedProviders: seq<ProviderId>)

  const EMPTY_PLAN := MutationPlan([], [], [], [], [], [])

  /** One provider's request as a plan of its own. */
  function Single(p: ProviderPlan): MutationPlan {
    MutationPlan(
      p.volumes,
      p.containerMounts,
      p.containerEnv,
      p.initContainers,
      match p.configmapUpsert { case None => [] case Some(u) => [u] },
      [p.provider])
  }

  function Append(a: MutationPlan, b: MutationPlan): MutationPlan {
    MutationPlan(
      a.volumes + b.volumes,
      a.containerMounts + b.containerMounts,
      a.containerEnv + b.containerEnv,
      a.initContainers + b.initContainers,
      a.configmapUpserts + b.configmapUpserts,
      a.injectedProviders + b.injectedProviders)
  }

  /** Every list concatenated in registry order. */
  function Concatenated(plans: seq<ProviderPlan>): MutationPlan {
    if plans == [] then EMPTY_PLAN else Append(Single(plans[0]), Concatenated(plans[1..]))
  }

  lemma AppendAssociative(a: MutationPlan, b: MutationPlan, c: MutationPlan)
    ensures Append(Append(a, b), c) == Append(a, Append(b, c))
    ensures Append(a, EMPTY_PLAN) == a == Append(EMPTY_PLAN, a)
  {
    assert a.volumes + b.volumes + c.volumes == a.volumes + (b.volumes + c.volumes);
    assert a.containerMounts + b.containerMounts + c.containerMounts == a.containerMounts + (b.containerMounts + c.containerMounts);
    assert a.containerEnv + b.containerEnv + c.containerEnv == a.containerEnv + (b.containerEnv + c.containerEnv);
    assert a.initContainers + b.initContainers + c.initContainers == a.initContainers + (b.initContainers + c.initContainers);
    assert a.configmapUpserts + b.configmapUpserts + c.configmapUpserts == a.configmapUpserts + (b.configmapUpserts + c.configmapUpserts);
    assert a.injectedProviders + b.injectedProviders + c.injectedProviders == a.injectedProviders + (b.injectedProviders + c.injectedProviders);
  }

  lemma {:induction false} ConcatenatedAppend(ps: seq<ProviderPlan>, qs: seq<ProviderPlan>)
    ensures Concatenated(ps + qs) == Append(Concatenated(ps), Concatenated(qs))
  {
    if ps == [] {
      assert ps + qs == qs;
      AppendAssociative(Concatenated(qs), EMPTY_PLAN, EMPTY_PLAN);
    } else {
      assert (ps + qs)[1..] == ps[1..] + qs;
      ConcatenatedAppend(ps[1..], qs);
      AppendAssociative(Single(ps[0]), Concatenated(ps[1..]), Concatenated(qs));
    }
  }

  lemma ConcatenatedOne(p: ProviderPlan)
    ensures Concatenated([p]) == Single(p)
  {
    AppendAssociative(Single(p), EMPTY_PLAN, EMPTY_PLAN);
    assert [p][1..] == [];
  }

  // ---- the stable sort ----

  function InsertByOrder(c: InitContainer, cs: seq<InitContainer>): seq<InitContainer> {
    if cs == [] || c.order <= cs[0].order then [c] + cs else [cs[0]] + InsertByOrder(c, cs[1..])
  }

  /** `sort_by_key(|c| c.order)` */
  function SortByOrder(cs: seq<InitContainer>): seq<InitContainer> {
    if cs == [] then [] else InsertByOrder(cs[0], SortByOrder(cs[1..]))
  }

  ghost predicate OrderSorted(cs: seq<InitContainer>) {
    forall i, j :: 0 <= i < j < |cs| ==> cs[i].order <= cs[j].order
  }

  /** The containers of one order, as they come. */
  function OfOrder(cs: seq<InitContainer>, k: int): seq<InitContainer> {
    if cs == [] then [] else (if cs[0].order == k then [cs[0]] else []) + OfOrder(cs[1..], k)
  }

  lemma {:induction false} OfOrderMembers(cs: seq<InitContainer>, k: int)
    ensures forall c :: c in OfOrder(cs, k) <==> c in cs && c.order == k
  {
    if cs != [] {
      OfOrderMembers(cs[1..], k);
      assert cs == [cs[0]] + cs[1..];
    }
  }

  lemma OfOrderCons(c: InitContainer, cs: seq<InitContainer>, k: int)
    ensures OfOrder([c] + cs, k) == (if c.order == k then [c] else []) + OfOrder(cs, k)
  {
    assert ([c] + cs)[1..] == cs;
  }

  lemma {:induction false} InsertClass(c: InitContainer, cs: seq<InitContainer>, k: int)
    ensures OfOrder(InsertByOrder(c, cs), k) == OfOrder([c] + cs, k)
  {
    OfOrderCons(c, cs, k);
    if cs != [] && c.order > cs[0].order {
      InsertClass(c, cs[1..], k);
      OfOrderCons(c, cs[1..], k);
      OfOrderCons(cs[0], InsertByOrder(c, cs[1..]), k);
    }
  }

  lemma {:induction false} InsertMultiset(c: InitContainer, cs: seq<InitContainer>)
    ensures multiset(InsertByOrder(c, cs)) == multiset{c} + multiset(cs)
  {
    if cs != [] {
      assert cs == [cs[0]] + cs[1..];
      InsertMultiset(c, cs[1..]);
    }
  }

  lemma {:induction false} InsertSorted(c: InitContainer, cs: seq<InitContainer>)
    requires OrderSorted(cs)
    ensures OrderSorted(InsertByOrder(c, cs))
  {
    if cs != [] && c.order > cs[0].order {
      var tail := InsertByOrder(c, cs[1..]);
      InsertSorted(c, cs[1..]);
      InsertMultiset(c, cs[1..]);
      forall j | 0 <= j < |tail|
        ensures cs[0].order <= tail[j].order
      {
        assert tail[j] in multiset(tail);
        assert tail[j] == c || tail[j] in cs[1..];
      }
    }
  }

  /** The sort loses and invents nothing, orders by `order`, and keeps equals in their original order. */
  lemma {:induction false} SortFacts(cs: seq<InitContainer>)
    ensures OrderSorted(SortByOrder(cs))
    ensures multiset(SortByOrder(cs)) == multiset(cs)
    ensures forall k :: OfOrder(SortByOrder(cs), k) == OfOrder(cs, k)
  {
    if cs != [] {
      var sorted := SortByOrder(cs[1..]);
      SortFacts(cs[1..]);
      InsertSorted(cs[0], sorted);
      InsertMultiset(cs[0], sorted);
      assert cs == [cs[0]] + cs[1..];
      forall k
        ensures OfOrder(SortByOrder(cs), k) == OfOrder(cs, k)
      {
        InsertClass(cs[0], sorted, k);
        OfOrderCons(cs[0], sorted, k);
        OfOrderCons(cs[0], cs[1..], k);
      }
    }
  }

  lemma SameTail(c: InitContainer, xs: seq<InitContainer>, ys: seq<InitContainer>, k: int)
    requires OfOrder([c] + xs, k) == OfOrder([c] + ys, k)
    ensures OfOrder(xs, k) == OfOrder(ys, k)
  {
    OfOrderCons(c, xs, k);
    OfOrderCons(c, ys, k);
    CommonPrefix(if c.order == k then [c] else [], OfOrder(xs, k), OfOrder(ys, k));
  }

  lemma SameHead(xs: seq<InitContainer>, ys: seq<InitContainer>)
    requires OrderSorted(xs) && OrderSorted(ys) && xs != []
    requires forall k :: OfOrder(xs, k) == OfOrder(ys, k)
    ensures ys != [] && xs[0] == ys[0]
  {
    var k := xs[0].order;
    OfOrderMembers(xs, k);
    OfOrderMembers(ys, k);
    assert xs[0] in OfOrder(ys, k);
    var k' := ys[0].order;
    OfOrderMembers(xs, k');
    OfOrderMembers(ys, k');
    assert ys[0] in OfOrder(xs, k');
    assert k == k';
    assert OfOrder(xs, k)[0] == xs[0] && OfOrder(ys, k)[0] == ys[0];
  }

  /** Sorted lists with the same class at every order are the same list: the stable sort is unique. */
  lemma {:induction false} StableSortUnique(xs: seq<InitContainer>, ys: seq<InitContainer>)
    requires OrderSorted(xs) && OrderSorted(ys)
    requires forall k :: OfOrder(xs, k) == OfOrder(ys, k)
    ensures xs == ys
  {
    if xs == [] {
      if ys != [] {
        SameHead(ys, xs);
      }
    } else {
      SameHead(xs, ys);
      var a, b := xs[1..], ys[1..];
      assert xs == [xs[0]] + a && ys == [xs[0]] + b;
      forall k
        ensures OfOrder(a, k) == OfOrder(b, k)
      {
        SameTail(xs[0], a, b, k);
      }
      StableSortUnique(a, b);
    }
  }

  lemma {:induction false} OfOrderAppend(a: seq<InitContainer>, b: seq<InitContainer>, k: int)
    ensures OfOrder(a + b, k) == OfOrder(a, k) + OfOrder(b, k)
  {
    if a == [] {
      NilLeft(b);
      NilLeft(OfOrder(b, k));
    } else {
      var rest := a[1..];
      assert a == [a[0]] + rest && a + b == [a[0]] + (rest + b);
      OfOrderAppend(rest, b, k);
      OfOrderCons(a[0], rest, k);
      OfOrderCons(a[0], rest + b, k);
      Associative(if a[0].order == k then [a[0]] else [], OfOrder(rest, k), OfOrder(b, k));
    }
  }

  /** `merge`, as a function of the plan list. */
  function Merged(plans: seq<ProviderPlan>): MutationPlan {
    var all := Concatenated(plans);
    all.(initContainers := SortByOrder(all.initContainers))
  }

  method Merge(plans: seq<ProviderPlan>) returns (out: MutationPlan)
    ensures out == Merged(plans)
  {
    out := EMPTY_PLAN;
    for i := 0 to |plans|
      invariant out == Concatenated(plans[..i])
    {
      var p := plans[i];
      ConcatenatedAppend(plans[..i], [p]);
      ConcatenatedOne(p);
      assert plans[..i + 1] == plans[..i] + [p];
      out := out.(injectedProviders := out.injectedProviders + [p.provider]);
      out := out.(volumes := out.volumes + p.volumes);
      out := out.(containerMounts := out.containerMounts + p.containerMounts);
      out := out.(containerEnv := out.containerEnv + p.containerEnv);
      out := out.(initContainers := out.initContainers + p.initContainers);
      out := out.(configmapUpserts := out.configmapUpserts + if p.configmapUpsert.Some? then [p.configmapUpsert.value] else []);
    }
    assert plans[..|plans|] == plans;
    out := out.(initContainers := SortByOrder(out.initContainers));
  }

  /**
   * The merge loses and invents nothing: every list of every plan is in its place, after the lists of the
   * plans before it and before those of the plans behind it; init containers are all there once, sorted.
   */
  lemma MergeConserves(before: seq<ProviderPlan>, p: ProviderPlan, after: seq<ProviderPlan>)
    ensures var whole, a, b := Merged(before + [p] + after), Merged(before), Merged(after);
            && whole.volumes == a.volumes + p.volumes + b.volumes
            && whole.containerMounts == a.containerMounts + p.containerMounts + b.containerMounts
            && whole.containerEnv == a.containerEnv + p.containerEnv + b.containerEnv
            && whole.configmapUpserts == a.configmapUpserts
                                         + (if p.configmapUpsert.Some? then [p.configmapUpsert.value] else [])
                                         + b.configmapUpserts
            && whole.injectedProviders == a.injectedProviders + [p.provider] + b.injectedProviders
            && multiset(whole.initContainers) == multiset(a.initContainers) + multiset(p.initContainers) + multiset(b.initContainers)
            && OrderSorted(whole.initContainers)
  {
    ConcatenatedAppend(before + [p], after);
    ConcatenatedAppend(before, [p]);
    ConcatenatedOne(p);
    SortFacts(Concatenated(before).initContainers);
    SortFacts(Concatenated(after).initContainers);
    SortFacts(Concatenated(before + [p] + after).initContainers);
  }

  /**
   * Merging two lists of plans at once or apart: every list but the init containers is the concatenation,
   * the init containers are the same ones, and in the same order too when no order in the first list
   * exceeds one in the second.
   */
  lemma MergeAppend(ps: seq<ProviderPlan>, qs: seq<ProviderPlan>)
    ensures var whole, first, second := Merged(ps + qs), Merged(ps), Merged(qs);
            && whole.(initContainers := []) == Append(first, second).(initContainers := [])
            && multiset(whole.initContainers) == multiset(first.initContainers + second.initContainers)
            && ((forall a, b :: a in first.initContainers && b in second.initContainers ==> a.order <= b.order) ==>
                  whole.initContainers == first.initContainers + second.initContainers)
  {
    ConcatenatedAppend(ps, qs);
    var a, b := Concatenated(ps).initContainers, Concatenated(qs).initContainers;
    var sa, sb, sab := SortByOrder(a), SortByOrder(b), SortByOrder(a + b);
    SortFacts(a);
    SortFacts(b);
    SortFacts(a + b);
    if forall x, y :: x in sa && y in sb ==> x.order <= y.order {
      forall k
        ensures OfOrder(sa + sb, k) == OfOrder(sab, k)
      {
        OfOrderAppend(sa, sb, k);
        OfOrderAppend(a, b, k);
      }
      forall i, j | 0 <= i < j < |sa + sb|
        ensures (sa + sb)[i].order <= (sa + sb)[j].order
      {
        if i < |sa| <= j {
          assert sa[i] in sa && sb[j - |sa|] in sb;
        }
      }
      StableSortUnique(sab, sa + sb);
    }
  }

  // ---- verification containers ----

  const FAILURE_NOTE := "echo 'cwii: verification check failed (non-enforcing)' >&2"

  function VerifyInitContainer(
    id: ProviderId, image: string, check: string, enforce: bool,
    env: seq<EnvVar>, mounts: seq<VolumeMount>): InitContainer
  {
    InitContainer(
      "cwii-" + id.Abbr() + "-verify",
      image,
      ["sh", "-c"],
      if enforce then [check] else [check + " || " + FAILURE_NOTE],
      env,
      mounts,
      VERIFY_SECURITY_CONTEXT,
      WRITER_RESOURCES,
      10)
  }

  /** The verifier a provider adds when the pod asks for one. */
  function Verifiers(
    ctx: ProviderContext, id: ProviderId, defaultImage: string, check: string,
    env: seq<EnvVar>, mounts: seq<VolumeMount>): seq<InitContainer>
  {
    if ctx.annotations.FirstExplicitBool(VerifyKey(id)).GetOr(false) then
      [VerifyInitContainer(
         id,
         ctx.annotations.FirstNonEmpty(VerifyImageKey(id)).GetOr(defaultImage),
         check,
         ctx.annotations.FirstExplicitBool(VerifyEnforceKey(id)).GetOr(false),
         env,
         mounts)]
    else []
  }

  method PushVerifier(
    inits: seq<InitContainer>, ctx: ProviderContext, id: ProviderId, defaultImage: string, check: string,
    env: seq<EnvVar>, mounts: seq<VolumeMount>) returns (out: seq<InitContainer>)
    ensures out == inits + Verifiers(ctx, id, defaultImage, check, env, mounts)
  {
    out := inits;
    var a := ctx.annotations;
    if a.FirstExplicitBool(VerifyKey(id)).GetOr(false) {
      var enforce := a.FirstExplicitBool(VerifyEnforceKey(id)).GetOr(false);
      var image := a.FirstNonEmpty(VerifyImageKey(id)).GetOr(defaultImage);
      out := out + [VerifyInitContainer(id, image, check, enforce, env, mounts)];
    }
  }

  const DROP_ALL := Obj(map["drop" := Arr([Str("ALL")])])

  const HARDENED_WRITER_SECURITY_CONTEXT := Obj(map[
    "allowPrivilegeEscalation" := Bool(false),
    "readOnlyRootFilesystem" := Bool(true),
    "runAsNonRoot" := Bool(false),
    "capabilities" := DROP_ALL])

  const VERIFY_SECURITY_CONTEXT := Obj(map[
    "allowPrivilegeEscalation" := Bool(false),
    "capabilities" := DROP_ALL])

  const WRITER_RESOURCES := Obj(map[
    "requests" := Obj(map["cpu" := Str("10m"), "memory" := Str("16Mi")]),
    "limits" := Obj(map["cpu" := Str("100m"), "memory" := Str("32Mi")])])
}
