/** What the webhook reads from the cluster, and the ConfigMaps it writes there. */
module Cluster {
  import opened Prelude
  import opened Resolve
  import opened Pods

  datatype ObjectKey = ObjectKey(kind: string, namespace: string, name: string)

  datatype KubeObject = KubeObject(annotations: Scope, ownerReferences: Option<seq<OwnerRef>>)

  /** The three results of `get_opt`. */
  datatype Read = Failed | Absent | Found(resource: KubeObject)

  /** What every read of one request would return. */
  type Reads = ObjectKey -> Read

  // ---- first hits ----

  /** The first result that is not a miss: a hit, or the error met on the way. */
  function FirstHit<T>(results: seq<Result<Option<T>>>): Result<Option<T>> {
    if results == [] then Ok(None)
    else if results[0] == Ok(None) then FirstHit(results[1..])
    else results[0]
  }

  /** Where `results` stops missing. */
  ghost predicate StopsAt<T(!new)>(results: seq<Result<Option<T>>>, i: int) {
    0 <= i < |results| && results[i] != Ok(None) && forall j :: 0 <= j < i ==> results[j] == Ok(None)
  }

  lemma {:induction false} FirstHitAt<T(!new)>(results: seq<Result<Option<T>>>, i: nat)
    requires StopsAt(results, i)
    ensures FirstHit(results) == results[i]
  {
    if i > 0 {
      FirstHitAt(results[1..], i - 1);
    }
  }

  lemma {:induction false} FirstHitNone<T(!new)>(results: seq<Result<Option<T>>>)
    requires forall j :: 0 <= j < |results| ==> results[j] == Ok(None)
    ensures FirstHit(results) == Ok(None)
  {
    if results != [] {
      FirstHitNone(results[1..]);
    }
  }

  // ---- the owner walk ----

  function ReadAnnotations(read: Read): Result<Option<Scope>> {
    match read
    case Failed => Err("read failed")
    case Absent => Ok(None)
    case Found(o) => Ok(Some(o.annotations))
  }

  /** What an owner of a ReplicaSet resolves to: only an existing Deployment counts. */
  function DeploymentOwner(view: Reads, namespace: string, ro: OwnerRef): Result<Option<Scope>> {
    if ro.kind == "Deployment" then ReadAnnotations(view(ObjectKey("Deployment", namespace, ro.name))) else Ok(None)
  }

  function DeploymentOwners(view: Reads, namespace: string, owners: seq<OwnerRef>): (r: seq<Result<Option<Scope>>>)
    ensures |r| == |owners|
  {
    seq(|owners|, i requires 0 <= i < |owners| => DeploymentOwner(view, namespace, owners[i]))
  }

  /** What one owner reference of a pod resolves to. */
  function Workload(view: Reads, namespace: string, owner: OwnerRef): Result<Option<Scope>> {
    if owner.kind == "ReplicaSet" then
      match view(ObjectKey("ReplicaSet", namespace, owner.name))
      case Failed => Err("read failed")
      case Absent => Ok(None)
      case Found(rs) =>
        var d :- FirstHit(DeploymentOwners(view, namespace, rs.ownerReferences.GetOr([])));
        Ok(Some(match d case None => rs.annotations case Some(annotations) => annotations))
    else if owner.kind == "StatefulSet" || owner.kind == "DaemonSet" || owner.kind == "Job" then
      ReadAnnotations(view(ObjectKey(owner.kind, namespace, owner.name)))
    else Ok(None)
  }

  function Workloads(view: Reads, namespace: string, refs: seq<OwnerRef>): (r: seq<Result<Option<Scope>>>)
    ensures |r| == |refs|
  {
    seq(|refs|, i requires 0 <= i < |refs| => Workload(view, namespace, refs[i]))
  }

  /** `owner_annotations` as a function: the first reference that resolves decides. */
  function OwnerWalk(view: Reads, namespace: string, refs: Option<seq<OwnerRef>>): Result<Scope> {
    var hit :- FirstHit(Workloads(view, namespace, refs.GetOr([])));
    Ok(match hit case None => None case Some(annotations) => annotations)
  }

  // ---- the walk, told from the reads ----

  /** The Deployment owner that decides for a ReplicaSet: the first whose read is not absent. */
  ghost predicate FirstDeployment(view: Reads, namespace: string, owners: seq<OwnerRef>, k: int) {
    && 0 <= k < |owners|
    && owners[k].kind == "Deployment" && view(ObjectKey("Deployment", namespace, owners[k].name)) != Absent
    && forall j :: 0 <= j < k && owners[j].kind == "Deployment" ==>
         view(ObjectKey("Deployment", namespace, owners[j].name)) == Absent
  }

  /** The reference leads to a workload with these annotations. */
  ghost predicate LeadsTo(view: Reads, namespace: string, owner: OwnerRef, annotations: Scope) {
    if owner.kind == "ReplicaSet" then
      var read := view(ObjectKey("ReplicaSet", namespace, owner.name));
      && read.Found?
      && var owners := read.resource.ownerReferences.GetOr([]);
         if exists k :: FirstDeployment(view, namespace, owners, k) then
           exists k :: FirstDeployment(view, namespace, owners, k)
                       && var d := view(ObjectKey("Deployment", namespace, owners[k].name));
                          d.Found? && d.resource.annotations == annotations
         else read.resource.annotations == annotations
    else
      && owner.kind in ["StatefulSet", "DaemonSet", "Job"]
      && var read := view(ObjectKey(owner.kind, namespace, owner.name));
         read.Found? && read.resource.annotations == annotations
  }

  /** Following the reference meets an error. */
  ghost predicate LeadsToError(view: Reads, namespace: string, owner: OwnerRef) {
    && owner.kind in ["ReplicaSet", "StatefulSet", "DaemonSet", "Job"]
    && var read := view(ObjectKey(owner.kind, namespace, owner.name));
       || read == Failed
       || (owner.kind == "ReplicaSet" && read.Found?
           && var owners := read.resource.ownerReferences.GetOr([]);
              exists k :: FirstDeployment(view, namespace, owners, k)
                          && view(ObjectKey("Deployment", namespace, owners[k].name)) == Failed)
  }

  /** The reference is of a kind nobody follows, or what it names is not there. */
  ghost predicate LeadsNowhere(view: Reads, namespace: string, owner: OwnerRef) {
    || owner.kind !in ["ReplicaSet", "StatefulSet", "DaemonSet", "Job"]
    || view(ObjectKey(owner.kind, namespace, owner.name)) == Absent
  }

  /** The first reference that leads anywhere leads to these annotations; without one there are none. */
  ghost predicate WalkGives(view: Reads, namespace: string, refs: Option<seq<OwnerRef>>, annotations: Scope) {
    var owners := refs.GetOr([]);
    || (exists i :: 0 <= i < |owners| && LeadsTo(view, namespace, owners[i], annotations)
                    && forall j :: 0 <= j < i ==> LeadsNowhere(view, namespace, owners[j]))
    || (annotations == None && forall j :: 0 <= j < |owners| ==> LeadsNowhere(view, namespace, owners[j]))
  }

  /** The first reference that leads anywhere leads to an error. */
  ghost predicate WalkFails(view: Reads, namespace: string, refs: Option<seq<OwnerRef>>) {
    var owners := refs.GetOr([]);
    exists i :: 0 <= i < |owners| && LeadsToError(view, namespace, owners[i])
                && forall j :: 0 <= j < i ==> LeadsNowhere(view, namespace, owners[j])
  }

  /** The answer is what the walk gives, and an error when it fails. */
  ghost predicate WalkAnswers(view: Reads, namespace: string, refs: Option<seq<OwnerRef>>, r: Result<Scope>) {
    && (forall s :: r == Ok(s) <==> WalkGives(view, namespace, refs, s))
    && (r.Err? <==> WalkFails(view, namespace, refs))
  }

  lemma FirstDeploymentUnique(view: Reads, namespace: string, owners: seq<OwnerRef>, k: int, l: int)
    requires FirstDeployment(view, namespace, owners, k) && FirstDeployment(view, namespace, owners, l)
    ensures k == l
  {
  }

  lemma FirstDeploymentHits(view: Reads, namespace: string, owners: seq<OwnerRef>, k: int)
    requires FirstDeployment(view, namespace, owners, k)
    ensures FirstHit(DeploymentOwners(view, namespace, owners)) ==
            ReadAnnotations(view(ObjectKey("Deployment", namespace, owners[k].name)))
  {
    FirstHitAt(DeploymentOwners(view, namespace, owners), k);
  }

  lemma {:induction false} NoDeploymentHits(view: Reads, namespace: string, owners: seq<OwnerRef>, n: nat)
    requires n <= |owners| && !exists k :: FirstDeployment(view, namespace, owners, k)
    ensures forall j :: 0 <= j < n ==> DeploymentOwner(view, namespace, owners[j]) == Ok(None)
  {
    if n > 0 {
      NoDeploymentHits(view, namespace, owners, n - 1);
      if DeploymentOwner(view, namespace, owners[n - 1]) != Ok(None) {
        assert FirstDeployment(view, namespace, owners, n - 1);
      }
    }
  }

  /** Where one reference leads. */
  lemma WorkloadExactly(view: Reads, namespace: string, owner: OwnerRef)
    ensures forall s :: Workload(view, namespace, owner) == Ok(Some(s)) <==> LeadsTo(view, namespace, owner, s)
    ensures Workload(view, namespace, owner).Err? <==> LeadsToError(view, namespace, owner)
    ensures Workload(view, namespace, owner) == Ok(None) <==> LeadsNowhere(view, namespace, owner)
  {
    if owner.kind == "ReplicaSet" && view(ObjectKey("ReplicaSet", namespace, owner.name)).Found? {
      var owners := view(ObjectKey("ReplicaSet", namespace, owner.name)).resource.ownerReferences.GetOr([]);
      if k :| FirstDeployment(view, namespace, owners, k) {
        FirstDeploymentHits(view, namespace, owners, k);
        forall l | FirstDeployment(view, namespace, owners, l)
          ensures l == k
        {
          FirstDeploymentUnique(view, namespace, owners, k, l);
        }
      } else {
        NoDeploymentHits(view, namespace, owners, |owners|);
        FirstHitNone(DeploymentOwners(view, namespace, owners));
      }
    }
  }

  lemma {:induction false} FirstHitSplit<T(!new)>(results: seq<Result<Option<T>>>)
    ensures FirstHit(results) == Ok(None) <==> forall j :: 0 <= j < |results| ==> results[j] == Ok(None)
    ensures FirstHit(results) != Ok(None) ==> exists i :: StopsAt(results, i)
  {
    if results != [] {
      var rest := results[1..];
      FirstHitSplit(rest);
      if results[0] != Ok(None) {
        assert StopsAt(results, 0);
      } else if i :| StopsAt(rest, i) {
        assert StopsAt(results, i + 1) by {
          assert forall j :: 0 < j < i + 1 ==> results[j] == rest[j - 1];
        }
      }
      assert forall j :: 0 < j < |results| ==> results[j] == rest[j - 1];
      assert forall j :: 0 <= j < |rest| ==> rest[j] == results[j + 1];
    }
  }

  /** What the walk answers, on the reads: all cases. */
  lemma OwnerWalkExactly(view: Reads, namespace: string, refs: Option<seq<OwnerRef>>)
    ensures WalkAnswers(view, namespace, refs, OwnerWalk(view, namespace, refs))
  {
    var owners := refs.GetOr([]);
    var results := Workloads(view, namespace, owners);
    forall i | 0 <= i < |owners|
      ensures LeadsAs(view, namespace, owners[i], results[i])
    {
      WorkloadExactly(view, namespace, owners[i]);
    }
    FirstHitSplit(results);
    if i :| StopsAt(results, i) {
      WalkStops(view, namespace, refs, results, i);
    } else {
      WalkEnds(view, namespace, refs, results);
    }
  }

  ghost predicate LeadsAs(view: Reads, namespace: string, owner: OwnerRef, result: Result<Option<Scope>>) {
    && (forall s :: result == Ok(Some(s)) <==> LeadsTo(view, namespace, owner, s))
    && (result.Err? <==> LeadsToError(view, namespace, owner))
    && (result == Ok(None) <==> LeadsNowhere(view, namespace, owner))
  }

  lemma WalkStops(view: Reads, namespace: string, refs: Option<seq<OwnerRef>>, results: seq<Result<Option<Scope>>>, i: nat)
    requires results == Workloads(view, namespace, refs.GetOr([])) && StopsAt(results, i)
    requires forall j :: 0 <= j < |results| ==> LeadsAs(view, namespace, refs.GetOr([])[j], results[j])
    ensures WalkAnswers(view, namespace, refs, OwnerWalk(view, namespace, refs))
  {
    var owners := refs.GetOr([]);
    FirstHitAt(results, i);
    assert LeadsAs(view, namespace, owners[i], results[i]);
    assert !LeadsNowhere(view, namespace, owners[i]);
    forall l | 0 <= l < |owners| && !LeadsNowhere(view, namespace, owners[l]) && forall j :: 0 <= j < l ==> LeadsNowhere(view, namespace, owners[j])
      ensures l == i
    {
      assert LeadsAs(view, namespace, owners[l], results[l]);
    }
    forall j | 0 <= j < i
      ensures LeadsNowhere(view, namespace, owners[j])
    {
      assert LeadsAs(view, namespace, owners[j], results[j]);
    }
    LeadsOneWay(view, namespace, owners);
  }

  /** A reference that leads somewhere does not lead nowhere. */
  lemma LeadsOneWay(view: Reads, namespace: string, owners: seq<OwnerRef>)
    ensures forall i, s :: 0 <= i < |owners| && LeadsTo(view, namespace, owners[i], s) ==> !LeadsNowhere(view, namespace, owners[i])
    ensures forall i :: 0 <= i < |owners| && LeadsToError(view, namespace, owners[i]) ==> !LeadsNowhere(view, namespace, owners[i])
  {
  }

  lemma WalkEnds(view: Reads, namespace: string, refs: Option<seq<OwnerRef>>, results: seq<Result<Option<Scope>>>)
    requires results == Workloads(view, namespace, refs.GetOr([]))
    requires forall j :: 0 <= j < |results| ==> results[j] == Ok(None)
    requires forall j :: 0 <= j < |results| ==> LeadsAs(view, namespace, refs.GetOr([])[j], results[j])
    ensures WalkAnswers(view, namespace, refs, OwnerWalk(view, namespace, refs))
  {
    var owners := refs.GetOr([]);
    FirstHitNone(results);
    forall j | 0 <= j < |owners|
      ensures LeadsNowhere(view, namespace, owners[j])
    {
      assert LeadsAs(view, namespace, owners[j], results[j]);
    }
    LeadsOneWay(view, namespace, owners);
  }

  method OwnerAnnotations(view: Reads, namespace: string, refs: Option<seq<OwnerRef>>) returns (r: Result<Scope>)
    ensures r == OwnerWalk(view, namespace, refs)
  {
    if refs.None? {
      return Ok(None);
    }
    var owners := refs.value;
    ghost var results := Workloads(view, namespace, owners);
    for i := 0 to |owners|
      invariant forall j :: 0 <= j < i ==> results[j] == Ok(None)
    {
      var owner := owners[i];
      if owner.kind == "ReplicaSet" {
        match view(ObjectKey("ReplicaSet", namespace, owner.name)) {
          case Failed =>
            FirstHitAt(results, i);
            return Err("read failed");
          case Absent =>
          case Found(rs) =>
            if rs.ownerReferences.Some? {
              var rsOwners := rs.ownerReferences.value;
              ghost var inner := DeploymentOwners(view, namespace, rsOwners);
              for k := 0 to |rsOwners|
                invariant forall j :: 0 <= j < k ==> inner[j] == Ok(None)
              {
                if rsOwners[k].kind == "Deployment" {
                  match view(ObjectKey("Deployment", namespace, rsOwners[k].name)) {
                    case Failed =>
                      FirstHitAt(inner, k);
                      FirstHitAt(results, i);
                      return Err("read failed");
                    case Absent =>
                    case Found(d) =>
                      FirstHitAt(inner, k);
                      FirstHitAt(results, i);
                      return Ok(d.annotations);
                  }
                }
              }
              FirstHitNone(inner);
            }
            FirstHitAt(results, i);
            return Ok(rs.annotations);
        }
      } else if owner.kind == "StatefulSet" || owner.kind == "DaemonSet" || owner.kind == "Job" {
        match view(ObjectKey(owner.kind, namespace, owner.name)) {
          case Failed =>
            FirstHitAt(results, i);
            return Err("read failed");
          case Absent =>
          case Found(o) =>
            FirstHitAt(results, i);
            return Ok(o.annotations);
        }
      }
    }
    FirstHitNone(results);
    r := Ok(None);
  }

  /**
   * The walk in terms of the references alone: it stops at the first one that does not resolve to nothing and
   * answers what that one resolves to; a ReplicaSet answers for its first existing Deployment owner, and for
   * itself only when it has none.
   */
  lemma OwnerWalkStopsFirst(view: Reads, namespace: string, refs: seq<OwnerRef>, i: nat)
    requires i < |refs| && Workload(view, namespace, refs[i]) != Ok(None)
    requires forall j :: 0 <= j < i ==> Workload(view, namespace, refs[j]) == Ok(None)
    ensures OwnerWalk(view, namespace, Some(refs)).Err? <==> Workload(view, namespace, refs[i]).Err?
    ensures Workload(view, namespace, refs[i]).Ok? ==>
              OwnerWalk(view, namespace, Some(refs)) == Ok(Workload(view, namespace, refs[i]).value.value)
    ensures forall more :: OwnerWalk(view, namespace, Some(refs + more)) == OwnerWalk(view, namespace, Some(refs))
  {
    FirstHitAt(Workloads(view, namespace, refs), i);
    forall more: seq<OwnerRef>
      ensures OwnerWalk(view, namespace, Some(refs + more)) == OwnerWalk(view, namespace, Some(refs))
    {
      FirstHitAt(Workloads(view, namespace, refs + more), i);
    }
  }

  lemma OwnerWalkFindsNothing(view: Reads, namespace: string, refs: seq<OwnerRef>)
    requires forall j :: 0 <= j < |refs| ==> Workload(view, namespace, refs[j]) == Ok(None)
    ensures OwnerWalk(view, namespace, Some(refs)) == Ok(None)
  {
    FirstHitNone(Workloads(view, namespace, refs));
  }

  lemma DeploymentPreferred(view: Reads, namespace: string, owner: OwnerRef, rs: KubeObject, k: nat)
    requires owner.kind == "ReplicaSet" && view(ObjectKey("ReplicaSet", namespace, owner.name)) == Found(rs)
    requires rs.ownerReferences.Some? && k < |rs.ownerReferences.value|
    requires DeploymentOwner(view, namespace, rs.ownerReferences.value[k]) != Ok(None)
    requires forall j :: 0 <= j < k ==> DeploymentOwner(view, namespace, rs.ownerReferences.value[j]) == Ok(None)
    ensures Workload(view, namespace, owner) == DeploymentOwner(view, namespace, rs.ownerReferences.value[k])
  {
    FirstHitAt(DeploymentOwners(view, namespace, rs.ownerReferences.value), k);
  }

  // ---- ConfigMaps ----

  datatype ConfigMap = ConfigMap(labels: map<string, string>, data: map<string, string>)

  datatype MapKey = MapKey(namespace: string, name: string)

  const MANAGED_BY := "app.kubernetes.io/managed-by"
  const MANAGER := "cwii"

  /** The object an upsert applies. */
  function CwiiMap(key: string, value: string): ConfigMap {
    ConfigMap(map[MANAGED_BY := MANAGER], map[key := value])
  }

  /** Managed by cwii, with one key. */
  predicate Holding(m: ConfigMap, key: string, value: string) {
    m.labels == map["app.kubernetes.io/managed-by" := "cwii"] && m.data == map[key := value]
  }

  /** The ConfigMaps of a cluster. A write the server refuses changes nothing. */
  class Store {
    var maps: map<MapKey, ConfigMap>
    ghost var issued: seq<MapKey>

    method Upsert(namespace: string, name: string, dataKey: string, dataValue: string, refuses: MapKey -> bool)
      returns (ok: bool)
      modifies this
      ensures ok == !refuses(MapKey(namespace, name))
      ensures issued == old(issued) + [MapKey(namespace, name)]
      ensures maps == if ok then old(maps)[MapKey(namespace, name) := CwiiMap(dataKey, dataValue)] else old(maps)
      ensures ok ==> MapKey(namespace, name) in maps && Holding(maps[MapKey(namespace, name)], dataKey, dataValue)
    {
      var data: map<string, string> := map[];
      data := data[dataKey := dataValue];
      var labels: map<string, string> := map[];
      labels := labels[MANAGED_BY := MANAGER];
      issued := issued + [MapKey(namespace, name)];
      ok := !refuses(MapKey(namespace, name));
      if ok {
        maps := maps[MapKey(namespace, name) := ConfigMap(labels, data)];
      }
    }
  }
}
