/** What holds of every admission: failing closed, dry runs, reinvocation and runs of admissions. */
module AdmissionTheorems {
  import opened Prelude
  import opened JsonPatch
  import opened Items
  import opened Annotations
  import opened Resolve
  import opened Plan
  import opened Credentials
  import opened Marker
  import opened Pods
  import opened Patch
  import opened Refinement
  import opened Injection
  import opened Runs
  import opened Frames
  import opened Providers
  import opened MergedPlans
  import opened Cluster
  import opened Admission
  import ProviderGcp
  import ProviderAws
  import ProviderAz

  // ---- failing closed ----

  lemma {:induction false} PlanAllFailsExactly(providers: seq<Provider>, prim: Primitives, ctx: ProviderContext)
    ensures PlanAll(providers, prim, ctx).Err? <==>
            exists q :: q in providers && q.Enabled(ctx.annotations) && q.PlanOf(prim, ctx).Err?
  {
    if providers != [] {
      var init, last := providers[..|providers| - 1], providers[|providers| - 1];
      PlanAllFailsExactly(init, prim, ctx);
      assert providers == init + [last];
    }
  }

  /** The reads succeed and an enabled provider's plan fails. */
  ghost predicate PlanFails(server: Server, req: Request, pod: Pod, view: Reads) {
    exists ctx, q ::
      && ContextIs(server.core, req, pod, view, ctx)
      && q in server.providers && q.Enabled(ctx.annotations) && q.PlanOf(server.prim, ctx).Err?
  }

  /** Planning fails exactly when a consulted read fails or, with all reads made, an enabled provider fails. */
  lemma PlansFailExactly(server: Server, req: Request, pod: Pod, view: Reads)
    ensures PlansFor(server, req, pod, view).Err? <==> ReadFails(req, pod, view) || PlanFails(server, req, pod, view)
  {
    ContextExactly(server.core, req, pod, view);
    if Context(server.core, req, pod, view).Ok? {
      PlanAllFailsExactly(server.providers, server.prim, Context(server.core, req, pod, view).value);
    }
  }

  /** Preparation fails exactly when the pod is missing, a consulted read fails or an enabled provider fails. */
  lemma PrepareFailsExactly(server: Server, req: Request, view: Reads)
    ensures Prepare(server, req, view).Err? <==>
            || req.target.None?
            || ReadFails(req, req.target.value, view)
            || PlanFails(server, req, req.target.value, view)
  {
    if req.target.Some? {
      PlansFailExactly(server, req, req.target.value, view);
    }
  }

  /** Then the answer is a denial and no write is issued. */
  lemma FailClosed(server: Server, req: Request, world: World)
    requires || req.target.None?
             || ReadFails(req, req.target.value, world.view)
             || PlanFails(server, req, req.target.value, world.view)
    ensures OutcomeOf(server, Some(req), world) == Denied("mutation failed")
    ensures Attempts(WriteNamespace(req), Writes(server, req, world.view), world.refuses) == []
  {
    PrepareFailsExactly(server, req, world.view);
  }

  // ---- which annotations count ----

  /**
   * When the reads of a request give the annotations of the owner, the ServiceAccount and the namespace, the
   * providers plan in a context whose every query answers from pod, owner, ServiceAccount and namespace, in
   * that order.
   */
  lemma PlanningReads(
    server: Server, req: Request, pod: Pod, view: Reads, namespace: string, account: string,
    ofOwner: Scope, ofAccount: Scope, ofNamespace: Scope) returns (ctx: ProviderContext)
    requires ActsIn(req, pod, namespace, account)
    requires WalkGives(view, namespace, pod.ownerReferences, ofOwner)
    requires ReadGives(view(ObjectKey("ServiceAccount", namespace, account)), ofAccount)
    requires ReadGives(view(ObjectKey("Namespace", "", namespace)), ofNamespace)
    ensures PlansFor(server, req, pod, view) == PlanAll(server.providers, server.prim, ctx)
    ensures ctx.namespace == namespace && ctx.serviceAccountName == account
    ensures ctx.mountRoot == server.core.mountRoot && ctx.defaultTokenExpirationSecs == server.core.tokenExpirationSecs
    ensures forall key, v ::
              ctx.annotations.FirstNonEmpty(key) == Some(v) <==>
              FirstHolds([pod.annotations, ofOwner, ofAccount, ofNamespace], key, v)
    ensures forall key ::
              && (ctx.annotations.FirstExplicitBool(key) == Some(true) <==>
                  FirstCarries([pod.annotations, ofOwner, ofAccount, ofNamespace], key, "true"))
              && (ctx.annotations.FirstExplicitBool(key) == Some(false) <==>
                  FirstCarries([pod.annotations, ofOwner, ofAccount, ofNamespace], key, "false"))
    ensures forall i :: 0 <= i < 4 ==>
              [ctx.annotations.pod, ctx.annotations.owner, ctx.annotations.serviceAccount, ctx.annotations.namespace][i] ==
              [pod.annotations, ofOwner, ofAccount, ofNamespace][i]
  {
    ContextExactly(server.core, req, pod, view);
    ctx := ProviderContext(
      AnnotationSet(pod := pod.annotations, owner := ofOwner, serviceAccount := ofAccount, namespace := ofNamespace),
      namespace, account, server.core.mountRoot, server.core.tokenExpirationSecs);
    assert ContextIs(server.core, req, pod, view, ctx);
    forall key
      ensures forall v :: ctx.annotations.FirstNonEmpty(key) == Some(v) <==>
                FirstHolds([pod.annotations, ofOwner, ofAccount, ofNamespace], key, v)
      ensures ctx.annotations.FirstExplicitBool(key) == Some(true) <==>
              FirstCarries([pod.annotations, ofOwner, ofAccount, ofNamespace], key, "true")
      ensures ctx.annotations.FirstExplicitBool(key) == Some(false) <==>
              FirstCarries([pod.annotations, ofOwner, ofAccount, ofNamespace], key, "false")
    {
      QueriesExactly(ctx.annotations, key);
    }
  }

  lemma {:induction false} DisabledHasNoPlan(providers: seq<Provider>, prim: Primitives, ctx: ProviderContext, id: ProviderId)
    requires PlanAll(providers, prim, ctx).Ok?
    requires forall q :: q in providers && q.Id() == id ==> !q.Enabled(ctx.annotations)
    ensures forall p :: p in PlanAll(providers, prim, ctx).value ==> p.provider != id
  {
    if providers != [] {
      var init, last := providers[..|providers| - 1], providers[|providers| - 1];
      assert providers == init + [last];
      DisabledHasNoPlan(init, prim, ctx, id);
      PlanCarriesId(last, prim, ctx);
    }
  }

  /**
   * A plain `false` read from the pod, the owner, the ServiceAccount or the namespace keeps the provider out
   * of the plans, whatever the broader scopes say, unless a narrower scope spells `true`.
   */
  lemma FalseKeepsProviderOut(
    server: Server, req: Request, pod: Pod, view: Reads, namespace: string, account: string,
    ofOwner: Scope, ofAccount: Scope, ofNamespace: Scope, id: ProviderId, i: nat)
    requires ActsIn(req, pod, namespace, account)
    requires WalkGives(view, namespace, pod.ownerReferences, ofOwner)
    requires ReadGives(view(ObjectKey("ServiceAccount", namespace, account)), ofAccount)
    requires ReadGives(view(ObjectKey("Namespace", "", namespace)), ofNamespace)
    requires i < 4
    requires var scope := [pod.annotations, ofOwner, ofAccount, ofNamespace][i];
             scope.Some? && SwitchKey(id) in scope.value && scope.value[SwitchKey(id)] == "false"
    requires forall j :: 0 <= j < i ==> !Carries([pod.annotations, ofOwner, ofAccount, ofNamespace][j], SwitchKey(id), "true")
    ensures PlansFor(server, req, pod, view).Ok? ==>
              forall p :: p in PlansFor(server, req, pod, view).value ==> p.provider != id
  {
    var ctx := PlanningReads(server, req, pod, view, namespace, account, ofOwner, ofAccount, ofNamespace);
    forall q | q in server.providers && q.Id() == id
      ensures !q.Enabled(ctx.annotations)
    {
      FalseDisables(q, ctx.annotations, i);
    }
    if PlansFor(server, req, pod, view).Ok? {
      DisabledHasNoPlan(server.providers, server.prim, ctx, id);
    }
  }

  // ---- at most one write ----

  function UpsertBudget(providers: seq<Provider>): nat {
    if exists q :: q in providers && q.GcpProvider? then 1 else 0
  }

  lemma {:induction false} UpsertsWithinBudget(providers: seq<Provider>, prim: Primitives, ctx: ProviderContext)
    requires DistinctIds(providers) && PlanAll(providers, prim, ctx).Ok?
    ensures |Concatenated(PlanAll(providers, prim, ctx).value).configmapUpserts| <= UpsertBudget(providers)
  {
    if providers != [] {
      var init, last := providers[..|providers| - 1], providers[|providers| - 1];
      assert providers == init + [last];
      UpsertsWithinBudget(init, prim, ctx);
      var earlier := PlanAll(init, prim, ctx).value;
      if last.Enabled(ctx.annotations) && last.PlanOf(prim, ctx).value.Some? {
        var plan := last.PlanOf(prim, ctx).value.value;
        ConcatenatedAppend(earlier, [plan]);
        ConcatenatedOne(plan);
        OnlyGcpUpserts(last, prim, ctx);
        if last.GcpProvider? {
          NoOtherGcp(providers);
        }
      }
    }
  }

  lemma OnlyGcpUpserts(q: Provider, prim: Primitives, ctx: ProviderContext)
    requires q.PlanOf(prim, ctx).Ok? && q.PlanOf(prim, ctx).value.Some?
    ensures q.PlanOf(prim, ctx).value.value.configmapUpsert.Some? ==> q.GcpProvider?
  {
  }

  lemma NoOtherGcp(providers: seq<Provider>)
    requires DistinctIds(providers) && providers != [] && providers[|providers| - 1].GcpProvider?
    ensures UpsertBudget(providers[..|providers| - 1]) == 0
    ensures UpsertBudget(providers) == 1
  {
    var init, last := providers[..|providers| - 1], providers[|providers| - 1];
    assert last in providers;
    forall q | q in init
      ensures !q.GcpProvider?
    {
      var i :| 0 <= i < |init| && init[i] == q;
      assert providers[i].Id() != providers[|providers| - 1].Id();
    }
  }

  lemma AtMostOneWrite(server: Server, req: Request, view: Reads)
    requires DistinctIds(server.providers)
    ensures |Writes(server, req, view)| <= 1
  {
    if Prepare(server, req, view).Ok? {
      var ctx := Context(server.core, req, req.target.value, view).value;
      UpsertsWithinBudget(server.providers, server.prim, ctx);
    }
  }

  /** With a registry's providers a denial, whatever its cause, leaves the ConfigMaps as they were. */
  lemma DenialChangesNothing(server: Server, req: Request, world: World, maps: map<MapKey, ConfigMap>)
    requires DistinctIds(server.providers)
    requires OutcomeOf(server, Some(req), world).Denied?
    ensures Stored(maps, WriteNamespace(req), Writes(server, req, world.view)[..Landed(server, req, world)]) == maps
  {
    AtMostOneWrite(server, req, world.view);
  }

  // ---- all outcomes ----

  lemma AcceptedOne(namespace: string, upserts: seq<ConfigMapUpsert>, refuses: MapKey -> bool)
    requires |upserts| <= 1
    ensures Accepted(namespace, upserts, refuses) ==
            if upserts == [] || refuses(MapKey(namespace, upserts[0].name)) then 0 else 1
  {
  }

  lemma StoredOne(maps: map<MapKey, ConfigMap>, namespace: string, u: ConfigMapUpsert)
    ensures Stored(maps, namespace, []) == maps
    ensures exists m :: Holding(m, u.dataKey, u.dataValue) && Stored(maps, namespace, [u]) == maps[MapKey(namespace, u.name) := m]
  {
    var m := CwiiMap(u.dataKey, u.dataValue);
    var maps' := maps[MapKey(namespace, u.name) := m];
    assert UpsertKey(namespace, u) == MapKey(namespace, u.name);
    assert Stored(maps', namespace, [u][1..]) == maps';
    assert Holding(m, u.dataKey, u.dataValue);
  }

  /** What a request leads to, in full: the outcome, the writes attempted and the ConfigMaps afterwards. */
  ghost predicate LeadsToOutcome(
    server: Server, req: Request, world: World, outcome: Outcome, attempts: seq<MapKey>, n: nat)
  {
    && OutcomeOf(server, Some(req), world) == outcome
    && Attempts(WriteNamespace(req), Writes(server, req, world.view), world.refuses) == attempts
    && Landed(server, req, world) == n
  }

  /** Once prepared, with one upsert at most. */
  ghost predicate Settled(
    server: Server, req: Request, world: World, maps: map<MapKey, ConfigMap>,
    namespace: string, upserts: seq<ConfigMapUpsert>, ops: seq<Op>)
  {
    var after := Stored(maps, WriteNamespace(req), Writes(server, req, world.view)[..Landed(server, req, world)]);
    if req.dryRun || upserts == [] then LeadsToOutcome(server, req, world, Patched(ops), [], 0) && after == maps
    else
      var key := MapKey(namespace, upserts[0].name);
      if world.refuses(key) then LeadsToOutcome(server, req, world, Denied("mutation failed"), [key], 0) && after == maps
      else
        && LeadsToOutcome(server, req, world, Patched(ops), [key], 1)
        && exists m :: Holding(m, upserts[0].dataKey, upserts[0].dataValue) && after == maps[key := m]
  }

  lemma ReadyIsSettled(
    server: Server, req: Request, world: World, maps: map<MapKey, ConfigMap>,
    namespace: string, upserts: seq<ConfigMapUpsert>, ops: seq<Op>)
    requires Prepare(server, req, world.view) == Ok(Ready(namespace, upserts, ops))
    requires WriteNamespace(req) == namespace && |upserts| <= 1 && ops != []
    ensures Settled(server, req, world, maps, namespace, upserts, ops)
  {
    AcceptedOne(namespace, Writes(server, req, world.view), world.refuses);
    if upserts != [] {
      StoredOne(maps, namespace, upserts[0]);
      assert upserts == [upserts[0]] && upserts[..0] == [] && upserts[..1] == upserts;
      assert UpsertKeys(namespace, upserts) == [MapKey(namespace, upserts[0].name)];
    }
  }

  lemma NothingIsAllowed(server: Server, req: Request, world: World, maps: map<MapKey, ConfigMap>)
    requires Prepare(server, req, world.view) == Ok(Nothing)
    ensures LeadsToOutcome(server, req, world, Allowed, [], 0)
    ensures Stored(maps, WriteNamespace(req), Writes(server, req, world.view)[..Landed(server, req, world)]) == maps
  {
  }

  lemma PreparedExactly(server: Server, req: Request, pod: Pod, view: Reads, ctx: ProviderContext)
    requires req.target == Some(pod) && ContextIs(server.core, req, pod, view, ctx)
    requires PlanAll(server.providers, server.prim, ctx).Ok?
    ensures WriteNamespace(req) == ctx.namespace
    ensures var plans := PlanAll(server.providers, server.prim, ctx).value;
            Prepare(server, req, view) ==
            Ok(if plans == [] then Nothing else Ready(ctx.namespace, Merged(plans).configmapUpserts, BuildOps(pod, Merged(plans))))
  {
    ContextExactly(server.core, req, pod, view);
    ActsInExactly(req, pod);
  }

  /**
   * A request whose reads and plans succeed. No plan: allowed, nothing written. A dry run, or a plan without
   * ConfigMap: patched, nothing written. Otherwise one write, of the planned name in the request's namespace:
   * refused, a denial and the ConfigMaps as before; accepted, the patch and the planned content.
   */
  lemma OutcomeExactly(
    server: Server, req: Request, pod: Pod, world: World, ctx: ProviderContext, maps: map<MapKey, ConfigMap>)
    requires DistinctIds(server.providers) && req.target == Some(pod)
    requires ContextIs(server.core, req, pod, world.view, ctx)
    requires PlanAll(server.providers, server.prim, ctx).Ok?
    ensures var plans := PlanAll(server.providers, server.prim, ctx).value;
            && |Merged(plans).configmapUpserts| <= 1
            && if plans == [] then
                 && LeadsToOutcome(server, req, world, Allowed, [], 0)
                 && Stored(maps, WriteNamespace(req), Writes(server, req, world.view)[..Landed(server, req, world)]) == maps
               else
                 Settled(server, req, world, maps, ctx.namespace, Merged(plans).configmapUpserts, BuildOps(pod, Merged(plans)))
  {
    var plans := PlanAll(server.providers, server.prim, ctx).value;
    UpsertsWithinBudget(server.providers, server.prim, ctx);
    PreparedExactly(server, req, pod, world.view, ctx);
    if plans == [] {
      NothingIsAllowed(server, req, world, maps);
    } else {
      ReadyIsSettled(server, req, world, maps, ctx.namespace, Merged(plans).configmapUpserts, BuildOps(pod, Merged(plans)));
    }
  }

  // ---- dry runs ----

  lemma PrepareIgnoresDryRun(server: Server, req: Request, view: Reads, dry: bool)
    ensures Prepare(server, req.(dryRun := dry), view) == Prepare(server, req, view)
  {
    if req.target.Some? {
      PlansIgnoreDryRun(server, req, req.target.value, view, dry);
    }
  }

  lemma PlansIgnoreDryRun(server: Server, req: Request, pod: Pod, view: Reads, dry: bool)
    ensures PlansFor(server, req.(dryRun := dry), pod, view) == PlansFor(server, req, pod, view)
  {
    assert Context(server.core, req.(dryRun := dry), pod, view) == Context(server.core, req, pod, view);
  }

  /** A dry run writes nothing and answers what a real run answers when its writes succeed. */
  lemma DryRunFaithful(server: Server, req: Request, world: World)
    ensures Writes(server, req.(dryRun := true), world.view) == []
    ensures Answer(server, req, world).Ok? ==>
              OutcomeOf(server, Some(req.(dryRun := true)), world) == OutcomeOf(server, Some(req), world)
    ensures (forall k :: !world.refuses(k)) ==>
              OutcomeOf(server, Some(req.(dryRun := true)), world) == OutcomeOf(server, Some(req), world)
  {
    PrepareIgnoresDryRun(server, req, world.view, true);
    if forall k :: !world.refuses(k) {
      AllAccepted(WriteNamespace(req), Writes(server, req, world.view), world.refuses);
    }
  }

  lemma {:induction false} AllAccepted(namespace: string, upserts: seq<ConfigMapUpsert>, refuses: MapKey -> bool)
    requires forall k :: !refuses(k)
    ensures Accepted(namespace, upserts, refuses) == |upserts|
  {
    if upserts != [] {
      AllAccepted(namespace, upserts[1..], refuses);
    }
  }

  // ---- reinvocation of the whole flow ----

  lemma {:induction false} PlanAllReadsOnlyKeys(providers: seq<Provider>, prim: Primitives, ctx: ProviderContext, ctx': ProviderContext)
    requires ctx' == ctx.(annotations := ctx'.annotations)
    requires forall q :: q in providers ==> AgreeOn(ctx.annotations, ctx'.annotations, q.Keys())
    ensures PlanAll(providers, prim, ctx) == PlanAll(providers, prim, ctx')
  {
    if providers != [] {
      var init, last := providers[..|providers| - 1], providers[|providers| - 1];
      assert providers == init + [last];
      PlanAllReadsOnlyKeys(init, prim, ctx, ctx');
      NonInterference(last, prim, ctx, ctx');
    }
  }

  /** Injection changes nothing any provider reads on the pod. */
  lemma InjectedAnnotationsAgree(a: AnnotationSet, ids: seq<ProviderId>, q: Provider)
    ensures AgreeOn(a, a.(pod := InjectAnnotations(a.pod, ids)), q.Keys())
  {
    FootprintsDisjoint(q, q);
  }

  lemma ContextOfInjected(server: Server, req: Request, pod: Pod, plan: MutationPlan, view: Reads)
    requires Context(server.core, req, pod, view).Ok?
    ensures var ctx := Context(server.core, req, pod, view).value;
            Context(server.core, req, InjectPod(pod, plan), view) ==
            Ok(ctx.(annotations := ctx.annotations.(pod := InjectAnnotations(pod.annotations, plan.injectedProviders))))
  {
  }

  lemma ReplannedSame(server: Server, req: Request, pod: Pod, plan: MutationPlan, view: Reads)
    requires Context(server.core, req, pod, view).Ok?
    ensures PlansFor(server, req, InjectPod(pod, plan), view) == PlansFor(server, req, pod, view)
  {
    var ctx := Context(server.core, req, pod, view).value;
    ContextOfInjected(server, req, pod, plan, view);
    var ctx' := Context(server.core, req, InjectPod(pod, plan), view).value;
    forall q | q in server.providers
      ensures AgreeOn(ctx.annotations, ctx'.annotations, q.Keys())
    {
      InjectedAnnotationsAgree(ctx.annotations, plan.injectedProviders, q);
    }
    PlanAllReadsOnlyKeys(server.providers, server.prim, ctx, ctx');
  }

  /** What a prepared request holds. */
  ghost predicate PreparedFrom(server: Server, req: Request, pod: Pod, view: Reads, plans: seq<ProviderPlan>) {
    && PlansFor(server, req, pod, view) == Ok(plans)
    && Prepare(server, req.(target := Some(pod)), view) ==
       Ok(Ready(NamespaceOf(req, pod), Merged(plans).configmapUpserts, BuildOps(pod, Merged(plans))))
  }

  lemma PreparedFacts(server: Server, req: Request, pod: Pod, view: Reads, plans: seq<ProviderPlan>)
    requires PlansFor(server, req, pod, view) == Ok(plans) && plans != []
    ensures PreparedFrom(server, req, pod, view, plans)
  {
    assert PlansFor(server, req.(target := Some(pod)), pod, view) == PlansFor(server, req, pod, view);
  }

  lemma PlansWellPlanned(server: Server, req: Request, pod: Pod, view: Reads)
    requires DistinctIds(server.providers) && PlansFor(server, req, pod, view).Ok?
    ensures PlanSelfNamed(Merged(PlansFor(server, req, pod, view).value))
    ensures PlanNamesDistinct(Merged(PlansFor(server, req, pod, view).value))
    ensures MountsCovered(Merged(PlansFor(server, req, pod, view).value))
  {
    MergedWellPlanned(server.providers, server.prim, Context(server.core, req, pod, view).value);
  }

  /**
   * The whole flow is idempotent. Patch a pod, submit the result against the same cluster and configuration:
   * the same plans and so the same ConfigMap writes are prepared, the new patch is a single operation, and
   * applying it leaves the document exactly as it is.
   */
  lemma AdmissionFixedPoint(server: Server, req: Request, view: Reads, doc: Json, pod: Pod, plans: seq<ProviderPlan>)
    requires DistinctIds(server.providers)
    requires DecodePod(doc) == Ok(pod) && HasObject(doc, "metadata") && HasObject(doc, "spec")
    requires PlansFor(server, req, pod, view) == Ok(plans) && plans != []
    ensures PreparedFrom(server, req, pod, view, plans)
    ensures var patched := Apply(doc, BuildOps(pod, Merged(plans)));
            && patched.Some?
            && DecodePod(patched.value).Ok?
            && var pod' := DecodePod(patched.value).value;
               && PreparedFrom(server, req, pod', view, plans)
               && NamespaceOf(req, pod') == NamespaceOf(req, pod)
               && |BuildOps(pod', Merged(plans))| == 1
               && Apply(patched.value, BuildOps(pod', Merged(plans))) == patched
  {
    PreparedFacts(server, req, pod, view, plans);
    PlansWellPlanned(server, req, pod, view);
    Reinvocation(doc, pod, Merged(plans));
    ReplannedSame(server, req, pod, Merged(plans), view);
    PreparedFacts(server, req, InjectPod(pod, Merged(plans)), view, plans);
  }

  // ---- runs of admissions ----

  /** One admission of a pod document: any replica, any request, any state of the cluster. */
  datatype Visit = Visit(server: Server, namespace: Option<string>, dryRun: bool, world: World)

  /** The document after a visit: patched when the answer is a patch, untouched otherwise. */
  function AfterVisit(doc: Json, v: Visit): Option<Json> {
    match DecodePod(doc)
    case Err(_) => None
    case Ok(pod) =>
      match OutcomeOf(v.server, Some(Request(Some(pod), v.namespace, v.dryRun)), v.world)
      case Patched(ops) => Apply(doc, ops)
      case _ => Some(doc)
  }

  function AfterVisits(doc: Json, visits: seq<Visit>): Option<Json>
    decreases |visits|
  {
    if visits == [] then Some(doc)
    else match AfterVisit(doc, visits[0])
      case None => None
      case Some(next) => AfterVisits(next, visits[1..])
  }

  /** What a run of visits keeps. */
  ghost predicate Grown(a: Json, b: Json) {
    && DecodePod(a).Ok? && DecodePod(b).Ok?
    && DocExtends(a, b)
    && NamesIn(OldMarker(DecodePod(a).value.annotations)) <= NamesIn(OldMarker(DecodePod(b).value.annotations))
    && (NamesDistinct(DecodePod(a).value) ==> NamesDistinct(DecodePod(b).value))
  }

  /** A patch answer is the patch of the merged plans. */
  lemma PatchedOps(server: Server, req: Request, pod: Pod, world: World)
    requires req.target == Some(pod) && OutcomeOf(server, Some(req), world).Patched?
    ensures PlansFor(server, req, pod, world.view).Ok? && PlansFor(server, req, pod, world.view).value != []
    ensures OutcomeOf(server, Some(req), world).patch == BuildOps(pod, Merged(PlansFor(server, req, pod, world.view).value))
  {
  }

  lemma InjectionGrows(doc: Json, pod: Pod, plan: MutationPlan)
    requires DecodePod(doc) == Ok(pod) && HasObject(doc, "metadata") && HasObject(doc, "spec")
    requires PlanSelfNamed(plan) && PlanNamesDistinct(plan)
    ensures Apply(doc, BuildOps(pod, plan)).Some? && Grown(doc, Apply(doc, BuildOps(pod, plan)).value)
  {
    StepKeeps(doc, pod, plan);
    if NamesDistinct(pod) {
      InjectKeepsNamesDistinct(pod, plan);
    }
  }

  lemma VisitPatches(doc: Json, pod: Pod, v: Visit)
    requires DecodePod(doc) == Ok(pod)
    ensures var req := Request(Some(pod), v.namespace, v.dryRun);
            var plans := PlansFor(v.server, req, pod, v.world.view);
            || AfterVisit(doc, v) == Some(doc)
            || (plans.Ok? && AfterVisit(doc, v) == Apply(doc, BuildOps(pod, Merged(plans.value))))
  {
    var req := Request(Some(pod), v.namespace, v.dryRun);
    if OutcomeOf(v.server, Some(req), v.world).Patched? {
      PatchedOps(v.server, req, pod, v.world);
    }
  }

  lemma VisitGrows(doc: Json, v: Visit)
    requires DecodePod(doc).Ok? && HasObject(doc, "metadata") && HasObject(doc, "spec")
    requires DistinctIds(v.server.providers)
    ensures AfterVisit(doc, v).Some? && Grown(doc, AfterVisit(doc, v).value)
  {
    var pod := DecodePod(doc).value;
    var req := Request(Some(pod), v.namespace, v.dryRun);
    VisitPatches(doc, pod, v);
    if AfterVisit(doc, v) == Some(doc) {
      DocExtendsReflexive(doc);
    } else {
      PlansWellPlanned(v.server, req, pod, v.world.view);
      InjectionGrows(doc, pod, Merged(PlansFor(v.server, req, pod, v.world.view).value));
    }
  }

  lemma GrownTransitive(a: Json, b: Json, c: Json)
    requires Grown(a, b) && Grown(b, c)
    ensures Grown(a, c)
  {
    DocExtendsTransitive(a, b, c);
  }

  /**
   * Any sequence of admissions of a pod, by replicas of any configuration and with any cluster contents:
   * every patch applies; the user's volumes, init containers, mounts and variables stay an unchanged prefix,
   * the containers and everything else on the document stay as they are, no name is ever duplicated, and the
   * marker only gains names.
   */
  lemma {:induction false} VisitsGrow(doc: Json, visits: seq<Visit>)
    requires DecodePod(doc).Ok? && HasObject(doc, "metadata") && HasObject(doc, "spec")
    requires forall i :: 0 <= i < |visits| ==> DistinctIds(visits[i].server.providers)
    ensures AfterVisits(doc, visits).Some? && Grown(doc, AfterVisits(doc, visits).value)
    decreases |visits|
  {
    if visits == [] {
      DocExtendsReflexive(doc);
    } else {
      VisitGrows(doc, visits[0]);
      var next := AfterVisit(doc, visits[0]).value;
      VisitsGrow(next, visits[1..]);
      GrownTransitive(doc, next, AfterVisits(next, visits[1..]).value);
    }
  }

  /** No patch of any admission leaves a planned mount without its volume. */
  lemma PatchedPodHasNoDanglingMounts(server: Server, req: Request, pod: Pod, view: Reads)
    requires DistinctIds(server.providers) && PlansFor(server, req, pod, view).Ok? && pod.spec.Some?
    ensures var plan := Merged(PlansFor(server, req, pod, view).value);
            var volumes := Names(InjectPod(pod, plan).Volumes());
            && (forall i :: 0 <= i < |pod.Containers()| ==>
                  var before, after := pod.Containers()[i].volumeMounts, InjectPod(pod, plan).Containers()[i].volumeMounts;
                  && before.GetOr([]) <= after.GetOr([])
                  && NamesOf(MountItems(plan.containerMounts)) <= Names(after)
                  && NamesOf(Added(before, after)) <= volumes)
            && NamesOf(MountItems(plan.containerMounts)) <= volumes
            && (forall c :: c in plan.initContainers ==> NamesOf(MountItems(c.mounts)) <= volumes)
  {
    PlansWellPlanned(server, req, pod, view);
    NoDanglingMounts(pod, Merged(PlansFor(server, req, pod, view).value));
    AppendFreshFacts(pod.spec.value.volumes, VolumeItems(Merged(PlansFor(server, req, pod, view).value).volumes));
  }
}
