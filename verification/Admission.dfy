/** The admission flow: read, plan, merge, upsert, patch. */
module Admission {
  import opened Prelude
  import opened JsonPatch
  import opened Annotations
  import opened Resolve
  import opened Plan
  import opened Credentials
  import opened Pods
  import opened Patch
  import opened Refinement
  import opened Providers
  import opened Cluster

  datatype CoreConfig = CoreConfig(mountRoot: string, tokenExpirationSecs: int)

  /** One replica of the webhook. */
  datatype Server = Server(providers: seq<Provider>, core: CoreConfig, prim: Primitives)

  datatype Request = Request(target: Option<Pod>, namespace: Option<string>, dryRun: bool)

  /** What the cluster answers during one request: every read, and which writes it refuses. */
  datatype World = World(view: Reads, refuses: MapKey -> bool)

  datatype Outcome = BadRequest | Denied(message: string) | Allowed | Patched(patch: seq<Op>)

  // ---- reading ----

  function NamespaceOf(req: Request, pod: Pod): string {
    match req.namespace
    case Some(ns) => ns
    case None => pod.namespace.GetOr("default")
  }

  function AccountOf(pod: Pod): string {
    match pod.spec case None => "default" case Some(s) => s.serviceAccountName.GetOr("default")
  }

  /** Annotations of an object that may legitimately be absent. */
  function OptionalAnnotations(read: Read): Result<Scope> {
    var found :- ReadAnnotations(read);
    Ok(match found case None => None case Some(annotations) => annotations)
  }

  function AccountKey(req: Request, pod: Pod): ObjectKey {
    ObjectKey("ServiceAccount", NamespaceOf(req, pod), AccountOf(pod))
  }

  function NamespaceKey(req: Request, pod: Pod): ObjectKey {
    ObjectKey("Namespace", "", NamespaceOf(req, pod))
  }

  function ContextFor(core: CoreConfig, req: Request, pod: Pod, owner: Scope, account: Scope, namespace: Scope): ProviderContext {
    ProviderContext(
      AnnotationSet(pod.annotations, owner, account, namespace),
      NamespaceOf(req, pod), AccountOf(pod), core.mountRoot, core.tokenExpirationSecs)
  }

  /** The context providers plan in, when every read succeeds. */
  function Context(core: CoreConfig, req: Request, pod: Pod, view: Reads): Result<ProviderContext> {
    var owner :- OwnerWalk(view, NamespaceOf(req, pod), pod.ownerReferences);
    var account :- OptionalAnnotations(view(AccountKey(req, pod)));
    var namespace :- OptionalAnnotations(view(NamespaceKey(req, pod)));
    Ok(ContextFor(core, req, pod, owner, account, namespace))
  }

  // ---- the context, told from the request and the reads ----

  /** The request's namespace before the pod's, the pod's own account; `default` for what is not given. */
  ghost predicate ActsIn(req: Request, pod: Pod, namespace: string, account: string) {
    && (|| req.namespace == Some(namespace)
        || (req.namespace == None && pod.namespace == Some(namespace))
        || (req.namespace == None && pod.namespace == None && namespace == "default"))
    && (|| (pod.spec.Some? && pod.spec.value.serviceAccountName == Some(account))
        || ((pod.spec.None? || pod.spec.value.serviceAccountName == None) && account == "default"))
  }

  /** The read succeeds with these annotations; an absent object has none. */
  ghost predicate ReadGives(read: Read, annotations: Scope) {
    || (read == Absent && annotations == None)
    || (read.Found? && read.resource.annotations == annotations)
  }

  /** Every part of the context comes from where it should. */
  ghost predicate ContextIs(core: CoreConfig, req: Request, pod: Pod, view: Reads, ctx: ProviderContext) {
    && ActsIn(req, pod, ctx.namespace, ctx.serviceAccountName)
    && ctx.annotations.pod == pod.annotations
    && WalkGives(view, ctx.namespace, pod.ownerReferences, ctx.annotations.owner)
    && ReadGives(view(ObjectKey("ServiceAccount", ctx.namespace, ctx.serviceAccountName)), ctx.annotations.serviceAccount)
    && ReadGives(view(ObjectKey("Namespace", "", ctx.namespace)), ctx.annotations.namespace)
    && ctx.mountRoot == core.mountRoot
    && ctx.defaultTokenExpirationSecs == core.tokenExpirationSecs
  }

  /** A consulted read fails. */
  ghost predicate ReadFails(req: Request, pod: Pod, view: Reads) {
    exists namespace, account ::
      && ActsIn(req, pod, namespace, account)
      && (|| WalkFails(view, namespace, pod.ownerReferences)
          || view(ObjectKey("ServiceAccount", namespace, account)) == Failed
          || view(ObjectKey("Namespace", "", namespace)) == Failed)
  }

  lemma ActsInExactly(req: Request, pod: Pod)
    ensures forall namespace, account ::
              ActsIn(req, pod, namespace, account) <==> namespace == NamespaceOf(req, pod) && account == AccountOf(pod)
  {
  }

  lemma OptionalExactly(read: Read)
    ensures forall s :: OptionalAnnotations(read) == Ok(s) <==> ReadGives(read, s)
    ensures OptionalAnnotations(read).Err? <==> read == Failed
  {
  }

  lemma ContextExactly(core: CoreConfig, req: Request, pod: Pod, view: Reads)
    ensures forall ctx :: Context(core, req, pod, view) == Ok(ctx) <==> ContextIs(core, req, pod, view, ctx)
    ensures Context(core, req, pod, view).Err? <==> ReadFails(req, pod, view)
  {
    ActsInExactly(req, pod);
    OwnerWalkExactly(view, NamespaceOf(req, pod), pod.ownerReferences);
    OptionalExactly(view(AccountKey(req, pod)));
    OptionalExactly(view(NamespaceKey(req, pod)));
    assert ActsIn(req, pod, NamespaceOf(req, pod), AccountOf(pod));
  }

  // ---- deciding ----

  /** What is left to do once planning is over. */
  datatype Prepared = Nothing | Ready(namespace: string, upserts: seq<ConfigMapUpsert>, ops: seq<Op>)

  /** Reading and planning. */
  function PlansFor(server: Server, req: Request, pod: Pod, view: Reads): Result<seq<ProviderPlan>> {
    var ctx :- Context(server.core, req, pod, view);
    PlanAll(server.providers, server.prim, ctx)
  }

  /** Everything up to the first write. */
  function Prepare(server: Server, req: Request, view: Reads): Result<Prepared> {
    if req.target.None? then Err("admission request has no object")
    else
      var pod := req.target.value;
      var plans :- PlansFor(server, req, pod, view);
      if plans == [] then Ok(Nothing)
      else
        var merged := Merged(plans);
        Ok(Ready(NamespaceOf(req, pod), merged.configmapUpserts, BuildOps(pod, merged)))
  }

  function UpsertKey(namespace: string, u: ConfigMapUpsert): MapKey {
    MapKey(namespace, u.name)
  }

  /** How many upserts go through before one is refused. */
  function Accepted(namespace: string, upserts: seq<ConfigMapUpsert>, refuses: MapKey -> bool): (n: nat)
    ensures n <= |upserts|
  {
    if upserts == [] || refuses(UpsertKey(namespace, upserts[0])) then 0
    else 1 + Accepted(namespace, upserts[1..], refuses)
  }

  /** The ConfigMaps after these upserts went through. */
  function Stored(maps: map<MapKey, ConfigMap>, namespace: string, upserts: seq<ConfigMapUpsert>): map<MapKey, ConfigMap>
    decreases |upserts|
  {
    if upserts == [] then maps
    else
      var u := upserts[0];
      Stored(maps[UpsertKey(namespace, u) := CwiiMap(u.dataKey, u.dataValue)], namespace, upserts[1..])
  }

  /** The writes a request performs. */
  function Writes(server: Server, req: Request, view: Reads): seq<ConfigMapUpsert> {
    match Prepare(server, req, view)
    case Ok(Ready(_, upserts, _)) => if req.dryRun then [] else upserts
    case _ => []
  }

  function WriteNamespace(req: Request): string {
    match req.target case None => "" case Some(pod) => NamespaceOf(req, pod)
  }

  /** The names of the attempted writes: those that go through and the one that is refused. */
  function Attempts(namespace: string, upserts: seq<ConfigMapUpsert>, refuses: MapKey -> bool): seq<MapKey> {
    var n := Accepted(namespace, upserts, refuses);
    UpsertKeys(namespace, if n < |upserts| then upserts[..n + 1] else upserts)
  }

  function UpsertKeys(namespace: string, upserts: seq<ConfigMapUpsert>): seq<MapKey> {
    seq(|upserts|, i requires 0 <= i < |upserts| => UpsertKey(namespace, upserts[i]))
  }

  /** How many of them go through. */
  function Landed(server: Server, req: Request, world: World): nat {
    Accepted(WriteNamespace(req), Writes(server, req, world.view), world.refuses)
  }

  /** `handle`: the operations, or the error that becomes a denial. */
  function Answer(server: Server, req: Request, world: World): Result<seq<Op>> {
    var prepared :- Prepare(server, req, world.view);
    match prepared
    case Nothing => Ok([])
    case Ready(_, _, ops) =>
      if Landed(server, req, world) == |Writes(server, req, world.view)| then Ok(ops) else Err("apply ConfigMap")
  }

  function OutcomeOf(server: Server, review: Option<Request>, world: World): Outcome {
    match review
    case None => BadRequest
    case Some(req) =>
      match Answer(server, req, world)
      case Err(_) => Denied("mutation failed")
      case Ok(ops) => if ops == [] then Allowed else Patched(ops)
  }

  // ---- the methods ----

  method ReadContext(core: CoreConfig, req: Request, pod: Pod, view: Reads) returns (r: Result<ProviderContext>)
    ensures r == Context(core, req, pod, view)
    ensures forall ctx :: r == Ok(ctx) <==> ContextIs(core, req, pod, view, ctx)
    ensures r.Err? <==> ReadFails(req, pod, view)
  {
    ContextExactly(core, req, pod, view);
    var owner := OwnerAnnotations(view, NamespaceOf(req, pod), pod.ownerReferences);
    if owner.Err? {
      return Err(owner.error);
    }
    var account := OptionalAnnotations(view(AccountKey(req, pod)));
    if account.Err? {
      return Err(account.error);
    }
    var namespace := OptionalAnnotations(view(NamespaceKey(req, pod)));
    if namespace.Err? {
      return Err(namespace.error);
    }
    r := Ok(ContextFor(core, req, pod, owner.value, account.value, namespace.value));
  }

  lemma PlanAllSnoc(providers: seq<Provider>, i: nat, prim: Primitives, ctx: ProviderContext)
    requires i < |providers|
    ensures PlanAll(providers[..i], prim, ctx).Err? ==> PlanAll(providers[..i + 1], prim, ctx) == PlanAll(providers[..i], prim, ctx)
    ensures PlanAll(providers[..i], prim, ctx).Ok? ==>
              PlanAll(providers[..i + 1], prim, ctx) == PlanNext(PlanAll(providers[..i], prim, ctx).value, providers[i], prim, ctx)
  {
    assert providers[..i + 1] == providers[..i] + [providers[i]];
    PlanAllStep(providers[..i], providers[i], prim, ctx);
  }

  lemma {:induction false} PlanAllStops(providers: seq<Provider>, i: nat, prim: Primitives, ctx: ProviderContext)
    requires i <= |providers| && PlanAll(providers[..i], prim, ctx).Err?
    ensures PlanAll(providers, prim, ctx) == PlanAll(providers[..i], prim, ctx)
    decreases |providers| - i
  {
    if i == |providers| {
      assert providers[..i] == providers;
    } else {
      PlanAllSnoc(providers, i, prim, ctx);
      PlanAllStops(providers, i + 1, prim, ctx);
    }
  }

  /** The provider loop of `handle`. */
  method PlanProviders(providers: seq<Provider>, prim: Primitives, ctx: ProviderContext) returns (r: Result<seq<ProviderPlan>>)
    ensures r == PlanAll(providers, prim, ctx)
  {
    var plans: seq<ProviderPlan> := [];
    for i := 0 to |providers|
      invariant PlanAll(providers[..i], prim, ctx) == Ok(plans)
    {
      PlanAllSnoc(providers, i, prim, ctx);
      if providers[i].Enabled(ctx.annotations) {
        var planned := providers[i].MakePlan(prim, ctx);
        if planned.Err? {
          PlanAllStops(providers, i + 1, prim, ctx);
          return Err(planned.error);
        }
        if planned.value.Some? {
          plans := plans + [planned.value.value];
        }
      }
    }
    assert providers[..|providers|] == providers;
    r := Ok(plans);
  }

  /** The write loop of `handle`: in order, up to the first refusal. */
  method WriteAll(store: Store, namespace: string, upserts: seq<ConfigMapUpsert>, refuses: MapKey -> bool) returns (ok: bool)
    modifies store
    ensures var n := Accepted(namespace, upserts, refuses);
            && ok == (n == |upserts|)
            && store.maps == Stored(old(store.maps), namespace, upserts[..n])
            && store.issued == old(store.issued) + Attempts(namespace, upserts, refuses)
  {
    ghost var n := Accepted(namespace, upserts, refuses);
    for i := 0 to |upserts|
      invariant i <= n && n == i + Accepted(namespace, upserts[i..], refuses)
      invariant store.maps == Stored(old(store.maps), namespace, upserts[..i])
      invariant store.issued == old(store.issued) + UpsertKeys(namespace, upserts[..i])
    {
      var u := upserts[i];
      ok := store.Upsert(namespace, u.name, u.dataKey, u.dataValue, refuses);
      assert UpsertKeys(namespace, upserts[..i + 1]) == UpsertKeys(namespace, upserts[..i]) + [UpsertKey(namespace, u)];
      if !ok {
        return;
      }
      assert upserts[i..][1..] == upserts[i + 1..];
      StoredSnoc(old(store.maps), namespace, upserts[..i], u);
      assert upserts[..i + 1] == upserts[..i] + [u];
    }
    assert upserts[..|upserts|] == upserts;
    ok := true;
  }

  lemma {:induction false} StoredSnoc(maps: map<MapKey, ConfigMap>, namespace: string, upserts: seq<ConfigMapUpsert>, u: ConfigMapUpsert)
    ensures Stored(maps, namespace, upserts + [u]) ==
            Stored(maps, namespace, upserts)[UpsertKey(namespace, u) := CwiiMap(u.dataKey, u.dataValue)]
    decreases |upserts|
  {
    if upserts == [] {
      assert (upserts + [u])[1..] == [];
    } else {
      var first := upserts[0];
      assert (upserts + [u])[1..] == upserts[1..] + [u];
      StoredSnoc(maps[UpsertKey(namespace, first) := CwiiMap(first.dataKey, first.dataValue)], namespace, upserts[1..], u);
    }
  }

  method Handle(server: Server, req: Request, world: World, store: Store) returns (r: Result<seq<Json>>)
    modifies store
    ensures match Answer(server, req, world) {
              case Err(e) => r == Err(e)
              case Ok(ops) => r == Ok(OpValues(ops))
            }
    ensures store.maps == Stored(old(store.maps), WriteNamespace(req), Writes(server, req, world.view)[..Landed(server, req, world)])
    ensures store.issued == old(store.issued) + Attempts(WriteNamespace(req), Writes(server, req, world.view), world.refuses)
  {
    if req.target.None? {
      return Err("admission request has no object");
    }
    var pod := req.target.value;
    var ctx := ReadContext(server.core, req, pod, world.view);
    if ctx.Err? {
      return Err(ctx.error);
    }
    var plans := PlanProviders(server.providers, server.prim, ctx.value);
    if plans.Err? {
      return Err(plans.error);
    }
    if plans.value == [] {
      return Ok([]);
    }
    var merged := Merge(plans.value);
    if !req.dryRun && merged.configmapUpserts != [] {
      var ok := WriteAll(store, NamespaceOf(req, pod), merged.configmapUpserts, world.refuses);
      if !ok {
        return Err("apply ConfigMap");
      }
    }
    var ops := Build(pod, merged);
    r := Ok(OpValues(ops));
  }

  /** `mutate`: the answer as a response. The two ways a patch could be rejected as malformed never happen. */
  method Mutate(server: Server, review: Option<Request>, world: World, store: Store) returns (outcome: Outcome)
    modifies store
    ensures outcome == OutcomeOf(server, review, world)
    ensures review.Some? ==>
              var req := review.value;
              && store.maps == Stored(old(store.maps), WriteNamespace(req), Writes(server, req, world.view)[..Landed(server, req, world)])
              && store.issued == old(store.issued) + Attempts(WriteNamespace(req), Writes(server, req, world.view), world.refuses)
    ensures review.None? ==> store.maps == old(store.maps) && store.issued == old(store.issued)
  {
    if review.None? {
      return BadRequest;
    }
    var handled := Handle(server, review.value, world, store);
    match handled {
      case Err(_) => outcome := Denied("mutation failed");
      case Ok(values) =>
        if values == [] {
          outcome := Allowed;
        } else {
          AnswerIsWellFormed(server, review.value, world);
          match ParsePatch(values) {
            case Some(patch) => outcome := Patched(patch);
            case None => outcome := Denied("invalid patch");
          }
        }
    }
  }

  lemma PreparedOps(server: Server, req: Request, view: Reads)
    requires Prepare(server, req, view).Ok? && Prepare(server, req, view).value.Ready?
    ensures req.target.Some? && PlansFor(server, req, req.target.value, view).Ok?
    ensures Prepare(server, req, view).value.ops ==
            BuildOps(req.target.value, Merged(PlansFor(server, req, req.target.value, view).value))
  {
  }

  lemma AnswerOps(server: Server, req: Request, world: World)
    requires Answer(server, req, world).Ok?
    ensures var prepared := Prepare(server, req, world.view);
            prepared.Ok? && Answer(server, req, world).value == if prepared.value.Ready? then prepared.value.ops else []
  {
  }

  lemma AnswerIsWellFormed(server: Server, req: Request, world: World)
    requires Answer(server, req, world).Ok?
    ensures var ops := Answer(server, req, world).value; ParsePatch(OpValues(ops)) == Some(ops)
  {
    AnswerOps(server, req, world);
    if Prepare(server, req, world.view).value.Ready? {
      PreparedOps(server, req, world.view);
      PatchIsWellFormed(req.target.value, Merged(PlansFor(server, req, req.target.value, world.view).value));
    } else {
      assert OpValues([]) == [];
    }
  }
}
