/** Admissions of many replicas, interleaved write by write over one set of ConfigMaps. */
module Concurrent {
  import opened Prelude
  import opened JsonPatch
  import opened Annotations
  import opened Plan
  import opened Credentials
  import opened Pods
  import opened Providers
  import opened Cluster
  import opened Admission
  import opened AdmissionTheorems
  import opened Paths
  import Text
  import ProviderGcp

  /** One request as one replica handles it. */
  datatype Entry = Entry(server: Server, req: Request, view: Reads)

  /** Not started; writing, with the upserts still to do; answered. */
  datatype Job = Waiting | Writing(left: seq<ConfigMapUpsert>) | Done(outcome: Outcome)

  datatype System = System(maps: map<MapKey, ConfigMap>, jobs: seq<Job>)

  /** The upserts a request's merged plan holds. */
  function Planned(e: Entry): seq<ConfigMapUpsert> {
    match Prepare(e.server, e.req, e.view)
    case Ok(Ready(_, upserts, _)) => upserts
    case _ => []
  }

  function EntryWrites(e: Entry): seq<ConfigMapUpsert> {
    Writes(e.server, e.req, e.view)
  }

  function KeyOf(e: Entry, u: ConfigMapUpsert): MapKey {
    UpsertKey(WriteNamespace(e.req), u)
  }

  function ContentOf(u: ConfigMapUpsert): ConfigMap {
    CwiiMap(u.dataKey, u.dataValue)
  }

  // ---- the steps of one job ----

  function Begun(e: Entry): Job {
    match Prepare(e.server, e.req, e.view)
    case Err(_) => Done(Denied("mutation failed"))
    case Ok(Nothing) => Done(Allowed)
    case Ok(Ready(_, _, _)) => Writing(EntryWrites(e))
  }

  function Finished(e: Entry): Job {
    match Prepare(e.server, e.req, e.view)
    case Ok(Ready(_, _, ops)) => Done(Patched(ops))
    case _ => Done(Denied("mutation failed"))
  }

  /** Job `i` takes one step; a write may go through or be refused. */
  ghost predicate JobStep(es: seq<Entry>, s: System, s': System, i: int) {
    && 0 <= i < |es| == |s.jobs|
    && match s.jobs[i] {
         case Waiting => s' == System(s.maps, s.jobs[i := Begun(es[i])])
         case Writing(left) =>
           if left == [] then s' == System(s.maps, s.jobs[i := Finished(es[i])])
           else
             || s' == System(s.maps[KeyOf(es[i], left[0]) := ContentOf(left[0])], s.jobs[i := Writing(left[1..])])
             || s' == System(s.maps, s.jobs[i := Done(Denied("mutation failed"))])
         case Done(_) => false
       }
  }

  ghost predicate Step(es: seq<Entry>, s: System, s': System) {
    exists i :: JobStep(es, s, s', i)
  }

  ghost predicate IsRun(es: seq<Entry>, run: seq<System>) {
    run != [] && forall k :: 0 <= k < |run| - 1 ==> Step(es, run[k], run[k + 1])
  }

  /** Nobody has started, and nothing foreign sits under a name some request plans to write. */
  ghost predicate Init(es: seq<Entry>, s: System) {
    && |s.jobs| == |es|
    && (forall i :: 0 <= i < |es| ==> s.jobs[i] == Waiting)
    && NamesHoldTheirContent(es, s.maps)
  }

  ghost predicate NamesHoldTheirContent(es: seq<Entry>, maps: map<MapKey, ConfigMap>) {
    forall e, u :: e in es && u in Planned(e) && KeyOf(e, u) in maps ==> maps[KeyOf(e, u)] == ContentOf(u)
  }

  /** Requests that plan the same name plan the same content for it. */
  ghost predicate Coherent(es: seq<Entry>) {
    forall e, u, e', u' :: e in es && u in Planned(e) && e' in es && u' in Planned(e') && KeyOf(e, u) == KeyOf(e', u') ==>
      ContentOf(u) == ContentOf(u')
  }

  // ---- the invariant ----

  ghost predicate JobOk(e: Entry, j: Job, maps: map<MapKey, ConfigMap>) {
    match j
    case Waiting => true
    case Writing(left) =>
      && Prepare(e.server, e.req, e.view).Ok? && Prepare(e.server, e.req, e.view).value.Ready?
      && (forall u :: u in left ==> u in EntryWrites(e))
      && (forall u :: u in EntryWrites(e) ==> u in left || KeyOf(e, u) in maps)
    case Done(outcome) =>
      outcome.Patched? ==>
        && Prepare(e.server, e.req, e.view).Ok? && Prepare(e.server, e.req, e.view).value.Ready?
        && outcome.patch == Prepare(e.server, e.req, e.view).value.ops
        && (forall u :: u in EntryWrites(e) ==> KeyOf(e, u) in maps)
  }

  ghost predicate Inv(es: seq<Entry>, s: System) {
    && |s.jobs| == |es|
    && NamesHoldTheirContent(es, s.maps)
    && forall i :: 0 <= i < |es| ==> JobOk(es[i], s.jobs[i], s.maps)
  }

  /** Nothing stored is lost or changed. */
  ghost predicate Preserved(a: map<MapKey, ConfigMap>, b: map<MapKey, ConfigMap>) {
    forall k :: k in a ==> k in b && b[k] == a[k]
  }

  lemma WritesArePlanned(e: Entry)
    ensures forall u :: u in EntryWrites(e) ==> u in Planned(e)
  {
  }

  lemma JobOkPreserved(e: Entry, j: Job, a: map<MapKey, ConfigMap>, b: map<MapKey, ConfigMap>)
    requires JobOk(e, j, a) && Preserved(a, b)
    ensures JobOk(e, j, b)
  {
  }

  lemma OneWrite(es: seq<Entry>, maps: map<MapKey, ConfigMap>, e: Entry, u: ConfigMapUpsert)
    requires Coherent(es) && NamesHoldTheirContent(es, maps) && e in es && u in Planned(e)
    ensures var maps' := maps[KeyOf(e, u) := ContentOf(u)];
            NamesHoldTheirContent(es, maps') && Preserved(maps, maps')
  {
  }

  lemma BegunIsOk(e: Entry, maps: map<MapKey, ConfigMap>)
    ensures JobOk(e, Begun(e), maps)
  {
  }

  lemma FinishedIsOk(e: Entry, maps: map<MapKey, ConfigMap>)
    requires JobOk(e, Writing([]), maps)
    ensures JobOk(e, Finished(e), maps)
  {
  }

  /** Writing the head of `left` leaves every upsert of `all` either in the tail or stored. */
  lemma HeadWritten(e: Entry, all: seq<ConfigMapUpsert>, left: seq<ConfigMapUpsert>, maps: map<MapKey, ConfigMap>)
    requires left != []
    requires forall u :: u in left ==> u in all
    requires forall u :: u in all ==> u in left || KeyOf(e, u) in maps
    ensures forall u :: u in left[1..] ==> u in all
    ensures forall u :: u in all ==> u in left[1..] || KeyOf(e, u) in maps[KeyOf(e, left[0]) := ContentOf(left[0])]
  {
    assert left == [left[0]] + left[1..];
  }

  lemma WrittenIsOk(e: Entry, left: seq<ConfigMapUpsert>, maps: map<MapKey, ConfigMap>)
    requires left != [] && JobOk(e, Writing(left), maps)
    ensures JobOk(e, Writing(left[1..]), maps[KeyOf(e, left[0]) := ContentOf(left[0])])
  {
    HeadWritten(e, EntryWrites(e), left, maps);
  }

  lemma StepKeepsMaps(es: seq<Entry>, s: System, s': System, i: int)
    requires Coherent(es) && Inv(es, s) && JobStep(es, s, s', i)
    ensures NamesHoldTheirContent(es, s'.maps) && Preserved(s.maps, s'.maps)
  {
    var e, j := es[i], s.jobs[i];
    if j.Writing? && j.left != [] {
      assert JobOk(e, j, s.maps);
      WritesArePlanned(e);
      assert j.left[0] in j.left;
      OneWrite(es, s.maps, e, j.left[0]);
    }
  }

  lemma StepKeepsInv(es: seq<Entry>, s: System, s': System)
    requires Coherent(es) && Inv(es, s) && Step(es, s, s')
    ensures Inv(es, s') && Preserved(s.maps, s'.maps)
  {
    var i :| JobStep(es, s, s', i);
    StepKeepsMaps(es, s, s', i);
    match s.jobs[i] {
      case Waiting => BegunIsOk(es[i], s.maps);
      case Writing(left) =>
        if left == [] {
          FinishedIsOk(es[i], s.maps);
        } else {
          WrittenIsOk(es[i], left, s.maps);
        }
    }
    forall k | 0 <= k < |es| && k != i
      ensures JobOk(es[k], s'.jobs[k], s'.maps)
    {
      JobOkPreserved(es[k], s.jobs[k], s.maps, s'.maps);
    }
  }

  lemma {:induction false} RunKeepsInv(es: seq<Entry>, run: seq<System>, a: nat, b: nat)
    requires Coherent(es) && IsRun(es, run) && Init(es, run[0]) && a <= b < |run|
    ensures Inv(es, run[b]) && Preserved(run[a].maps, run[b].maps)
    decreases b
  {
    if b > 0 {
      RunKeepsInv(es, run, if a < b then a else b - 1, b - 1);
      assert Step(es, run[b - 1], run[b - 1 + 1]);
      StepKeepsInv(es, run[b - 1], run[b]);
    }
  }

  /**
   * In every interleaving of any requests: a ConfigMap once stored keeps its name and content for good, and
   * whenever a request that is not a dry run has been answered with a patch, every ConfigMap of its plan is
   * there, then and ever after, with exactly the content of its plan.
   */
  lemma InterleavedWritesAreSafe(es: seq<Entry>, run: seq<System>, a: nat, b: nat, i: nat)
    requires Coherent(es) && IsRun(es, run) && Init(es, run[0]) && a <= b < |run| && i < |es|
    ensures Preserved(run[a].maps, run[b].maps)
    ensures |run[a].jobs| == |es|
    ensures run[a].jobs[i].Done? && run[a].jobs[i].outcome.Patched? && !es[i].req.dryRun ==>
              forall u :: u in Planned(es[i]) ==>
                var key := MapKey(WriteNamespace(es[i].req), u.name);
                key in run[b].maps && Holding(run[b].maps[key], u.dataKey, u.dataValue)
  {
    RunKeepsInv(es, run, a, b);
    RunKeepsInv(es, run, a, a);
    assert JobOk(es[i], run[a].jobs[i], run[a].maps);
    forall u | u in Planned(es[i])
      ensures KeyOf(es[i], u) == MapKey(WriteNamespace(es[i].req), u.name) && Holding(ContentOf(u), u.dataKey, u.dataValue)
    {
    }
  }

  // ---- why requests agree on contents ----

  /** Some GCP provider's setting is behind this upsert. */
  ghost predicate ComesFrom(u: ConfigMapUpsert, q: Provider, prim: Primitives, ctx: ProviderContext) {
    && q.GcpProvider?
    && var audience, account := AudienceFor(q, ctx.annotations), AccountFor(q, ctx.annotations);
       && Nameable(audience, account)
       && u == ConfigMapUpsert(
                 ConfigMapName(prim, audience, account),
                 ProviderGcp.CREDS_FILENAME,
                 prim.encode(CredentialsDocument(audience, TokenPath(ctx.mountRoot, Gcp), account)))
  }

  lemma ProviderUpsertOrigin(q: Provider, prim: Primitives, ctx: ProviderContext)
    requires q.PlanOf(prim, ctx).Ok? && q.PlanOf(prim, ctx).value.Some?
    ensures forall u :: u in Single(q.PlanOf(prim, ctx).value.value).configmapUpserts ==> ComesFrom(u, q, prim, ctx)
  {
    if q.GcpProvider? {
      GcpTexts(q, prim, ctx);
      AudienceKeys(Gcp);
    }
  }

  lemma {:induction false} UpsertOrigin(providers: seq<Provider>, prim: Primitives, ctx: ProviderContext, u: ConfigMapUpsert)
    requires PlanAll(providers, prim, ctx).Ok? && u in Concatenated(PlanAll(providers, prim, ctx).value).configmapUpserts
    ensures exists q :: q in providers && ComesFrom(u, q, prim, ctx)
  {
    var init, last := providers[..|providers| - 1], providers[|providers| - 1];
    assert providers == init + [last];
    var earlier := PlanAll(init, prim, ctx).value;
    if u in Concatenated(earlier).configmapUpserts {
      UpsertOrigin(init, prim, ctx, u);
    } else {
      var plan := last.PlanOf(prim, ctx).value.value;
      ConcatenatedAppend(earlier, [plan]);
      ConcatenatedOne(plan);
      ProviderUpsertOrigin(last, prim, ctx);
    }
  }

  /** The context of an entry whose request got as far as planning. */
  function EntryContext(e: Entry): ProviderContext
    requires e.req.target.Some? && Context(e.server.core, e.req, e.req.target.value, e.view).Ok?
  {
    Context(e.server.core, e.req, e.req.target.value, e.view).value
  }

  ghost predicate Plans(e: Entry) {
    e.req.target.Some? && Context(e.server.core, e.req, e.req.target.value, e.view).Ok?
  }

  /** What the digest is fed for one GCP provider of one entry. */
  function Fed(e: Entry, q: Provider): string
    requires Plans(e) && q.GcpProvider?
  {
    Preimage(AudienceFor(q, EntryContext(e).annotations), AccountFor(q, EntryContext(e).annotations))
  }

  /**
   * The replicas run the same code under one mount root, up to trailing slashes; no audience holds a NUL; and
   * the digest does not confuse any two inputs that occur.
   */
  ghost predicate Deployment(es: seq<Entry>, prim: Primitives, root: string) {
    && (forall e :: e in es ==> e.server.prim == prim && Text.TrimEndSlashes(e.server.core.mountRoot) == root)
    && (forall e, q :: e in es && Plans(e) && q in e.server.providers && q.GcpProvider? ==>
          NUL !in AudienceFor(q, EntryContext(e).annotations))
    && (forall e, q, e', q' |
          && e in es && Plans(e) && q in e.server.providers && q.GcpProvider?
          && e' in es && Plans(e') && q' in e'.server.providers && q'.GcpProvider? ::
          NoCollision(prim, Fed(e, q), Fed(e', q')))
  }

  lemma PlannedOrigin(e: Entry, u: ConfigMapUpsert)
    requires u in Planned(e)
    ensures Plans(e)
    ensures exists q :: q in e.server.providers && ComesFrom(u, q, e.server.prim, EntryContext(e))
  {
    UpsertOrigin(e.server.providers, e.server.prim, EntryContext(e), u);
  }

  lemma RootOfContext(e: Entry)
    requires Plans(e)
    ensures EntryContext(e).mountRoot == e.server.core.mountRoot
  {
  }

  /** In such a deployment equal names mean equal contents. */
  lemma DeploymentIsCoherent(es: seq<Entry>, prim: Primitives, root: string)
    requires Deployment(es, prim, root)
    ensures Coherent(es)
  {
    forall e, u, e', u' | e in es && u in Planned(e) && e' in es && u' in Planned(e') && KeyOf(e, u) == KeyOf(e', u')
      ensures ContentOf(u) == ContentOf(u')
    {
      PlannedOrigin(e, u);
      PlannedOrigin(e', u');
      RootOfContext(e);
      RootOfContext(e');
      var q :| q in e.server.providers && ComesFrom(u, q, prim, EntryContext(e));
      var q' :| q' in e'.server.providers && ComesFrom(u', q', prim, EntryContext(e'));
      assert NoCollision(prim, Fed(e, q), Fed(e', q'));
      NameDeterminesDocument(
        prim,
        AudienceFor(q, EntryContext(e).annotations), AccountFor(q, EntryContext(e).annotations),
        AudienceFor(q', EntryContext(e').annotations), AccountFor(q', EntryContext(e').annotations),
        TokenPath(EntryContext(e).mountRoot, Gcp));
    }
  }

  /**
   * Replicas of one deployment, interleaved in any way: once a request for a GCP pod with ConfigMap delivery
   * has been answered with a patch, its ConfigMap is there for good, in the request's namespace, and holds
   * exactly the credentials of that pod's audience and account, reading the token where the patch mounts it.
   */
  lemma PatchedPodsHaveTheirCredentials(
    es: seq<Entry>, prim: Primitives, root: string, run: seq<System>, a: nat, b: nat, i: nat,
    pod: Pod, ctx: ProviderContext, q: Provider)
    requires Deployment(es, prim, root) && IsRun(es, run) && Init(es, run[0]) && a <= b < |run| && i < |es|
    requires es[i].req.target == Some(pod) && ContextIs(es[i].server.core, es[i].req, pod, es[i].view, ctx)
    requires DistinctIds(es[i].server.providers) && q in es[i].server.providers && q.GcpProvider?
    requires q.Enabled(ctx.annotations) && AudienceFor(q, ctx.annotations) != ""
    requires Delivers(q.gcp, ctx.annotations, ProviderGcp.ConfigMapDelivery)
    requires |run[a].jobs| == |es| && run[a].jobs[i].Done? && run[a].jobs[i].outcome.Patched? && !es[i].req.dryRun
    ensures var key := MapKey(ctx.namespace, CredentialsName(q, prim, ctx));
            && key in run[b].maps
            && exists text :: CredentialsText(text, q, prim, ctx) && Holding(run[b].maps[key], "credentials.json", text)
  {
    var e := es[i];
    ContextExactly(e.server.core, e.req, pod, e.view);
    ActsInExactly(e.req, pod);
    DeploymentIsCoherent(es, prim, root);
    AnsweredFromPlans(es, run, a, i);
    InterleavedWritesAreSafe(es, run, a, b, i);
    CredentialsUpserted(e.server.providers, prim, ctx, q);
  }

  lemma AnsweredFromPlans(es: seq<Entry>, run: seq<System>, a: nat, i: nat)
    requires Coherent(es) && IsRun(es, run) && Init(es, run[0]) && a < |run| && i < |es| && Plans(es[i])
    requires |run[a].jobs| == |es| && run[a].jobs[i].Done? && run[a].jobs[i].outcome.Patched?
    ensures var plans := PlanAll(es[i].server.providers, es[i].server.prim, EntryContext(es[i]));
            plans.Ok? && Planned(es[i]) == Merged(plans.value).configmapUpserts
  {
    RunKeepsInv(es, run, a, a);
    assert JobOk(es[i], run[a].jobs[i], run[a].maps);
  }

  // ---- one request on its own ----

  /** Where job `i` on its own ends up, from the moment it writes. */
  function WrittenAlone(es: seq<Entry>, s: System, i: nat, left: seq<ConfigMapUpsert>, refuses: MapKey -> bool): System
    requires i < |es| == |s.jobs|
  {
    var ns := WriteNamespace(es[i].req);
    var n := Accepted(ns, left, refuses);
    System(Stored(s.maps, ns, left[..n]), s.jobs[i := if n == |left| then Finished(es[i]) else Done(Denied("mutation failed"))])
  }

  lemma WrittenAloneStep(es: seq<Entry>, s: System, i: nat, left: seq<ConfigMapUpsert>, refuses: MapKey -> bool)
    requires i < |es| == |s.jobs| && left != [] && !refuses(KeyOf(es[i], left[0]))
    ensures var s' := System(s.maps[KeyOf(es[i], left[0]) := ContentOf(left[0])], s.jobs[i := Writing(left[1..])]);
            WrittenAlone(es, s, i, left, refuses) == WrittenAlone(es, s', i, left[1..], refuses)
  {
    var n := Accepted(WriteNamespace(es[i].req), left, refuses);
    assert left[..n] == [left[0]] + left[1..][..n - 1];
    assert left[..n][1..] == left[1..][..n - 1];
  }

  lemma OneStepRun(es: seq<Entry>, s: System, s': System, i: nat)
    requires JobStep(es, s, s', i)
    ensures IsRun(es, [s, s'])
  {
  }

  /** The run of job `i` alone from the moment it writes. */
  lemma WriteRun(es: seq<Entry>, s: System, i: nat, left: seq<ConfigMapUpsert>, refuses: MapKey -> bool) returns (run: seq<System>)
    requires i < |es| == |s.jobs| && s.jobs[i] == Writing(left)
    ensures IsRun(es, run) && run[0] == s && run[|run| - 1] == WrittenAlone(es, s, i, left, refuses)
    decreases |left|
  {
    if left == [] || refuses(KeyOf(es[i], left[0])) {
      var s' := WrittenAlone(es, s, i, left, refuses);
      OneStepRun(es, s, s', i);
      run := [s, s'];
    } else {
      var s' := System(s.maps[KeyOf(es[i], left[0]) := ContentOf(left[0])], s.jobs[i := Writing(left[1..])]);
      assert JobStep(es, s, s', i);
      WrittenAloneStep(es, s, i, left, refuses);
      var rest := WriteRun(es, s', i, left[1..], refuses);
      run := RunCons(es, s, rest);
    }
  }

  lemma RunCons(es: seq<Entry>, s: System, rest: seq<System>) returns (run: seq<System>)
    requires IsRun(es, rest) && Step(es, s, rest[0])
    ensures IsRun(es, run) && run[0] == s && run[|run| - 1] == rest[|rest| - 1]
  {
    run := [s] + rest;
    forall k | 0 <= k < |run| - 1
      ensures Step(es, run[k], run[k + 1])
    {
      if k > 0 {
        assert Step(es, rest[k - 1], rest[k - 1 + 1]);
      }
    }
  }

  /** What one call of `Mutate` leaves behind. */
  function Mutated(es: seq<Entry>, s: System, i: nat, refuses: MapKey -> bool): System
    requires i < |es| == |s.jobs|
  {
    var e := es[i];
    var world := World(e.view, refuses);
    System(
      Stored(s.maps, WriteNamespace(e.req), EntryWrites(e)[..Landed(e.server, e.req, world)]),
      s.jobs[i := Done(OutcomeOf(e.server, Some(e.req), world))])
  }

  lemma OutcomeAlone(e: Entry, refuses: MapKey -> bool)
    ensures var outcome := OutcomeOf(e.server, Some(e.req), World(e.view, refuses));
            var n := Accepted(WriteNamespace(e.req), EntryWrites(e), refuses);
            if Begun(e).Writing? then
              && Begun(e) == Writing(EntryWrites(e))
              && Done(outcome) == (if n == |EntryWrites(e)| then Finished(e) else Done(Denied("mutation failed")))
            else Begun(e) == Done(outcome) && EntryWrites(e) == []
  {
  }

  lemma MutatedIsWrittenAlone(es: seq<Entry>, s: System, i: nat, refuses: MapKey -> bool)
    requires i < |es| == |s.jobs|
    ensures var s' := System(s.maps, s.jobs[i := Begun(es[i])]);
            Mutated(es, s, i, refuses) ==
            if Begun(es[i]).Writing? then WrittenAlone(es, s', i, EntryWrites(es[i]), refuses) else s'
  {
    OutcomeAlone(es[i], refuses);
    var j := Done(OutcomeOf(es[i].server, Some(es[i].req), World(es[i].view, refuses)));
    assert s.jobs[i := Begun(es[i])][i := j] == s.jobs[i := j];
  }

  /** What `Mutate` does in one call is one of the interleavings: its job's steps with nobody in between. */
  lemma MutateIsARun(es: seq<Entry>, s: System, i: nat, refuses: MapKey -> bool) returns (run: seq<System>)
    requires i < |es| == |s.jobs| && s.jobs[i] == Waiting
    ensures IsRun(es, run) && run[0] == s && run[|run| - 1] == Mutated(es, s, i, refuses)
  {
    var s' := System(s.maps, s.jobs[i := Begun(es[i])]);
    assert JobStep(es, s, s', i);
    MutatedIsWrittenAlone(es, s, i, refuses);
    OutcomeAlone(es[i], refuses);
    if Begun(es[i]).Writing? {
      var rest := WriteRun(es, s', i, EntryWrites(es[i]), refuses);
      run := RunCons(es, s, rest);
    } else {
      OneStepRun(es, s, s', i);
      run := [s, s'];
    }
  }
}
