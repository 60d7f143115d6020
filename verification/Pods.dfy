/** The typed view of a pod document that the webhook decides on. An absent member and `null` read alike. */
module Pods {
  import opened Prelude
  import opened JsonPatch
  import opened Items
  import opened Resolve

  datatype OwnerRef = OwnerRef(kind: string, name: string)

  datatype Container = Container(volumeMounts: ItemList, env: ItemList)

  datatype PodSpec = PodSpec(
    serviceAccountName: Option<string>,
    volumes: ItemList,
    initContainers: ItemList,
    containers: seq<Container>)

  datatype Pod = Pod(
    annotations: Scope,
    namespace: Option<string>,
    ownerReferences: Option<seq<OwnerRef>>,
    spec: Option<PodSpec>)
  {
    function Containers(): seq<Container> {
      match spec case None => [] case Some(s) => s.containers
    }

    function Volumes(): ItemList {
      match spec case None => None case Some(s) => s.volumes
    }

    function InitContainers(): ItemList {
      match spec case None => None case Some(s) => s.initContainers
    }
  }

  function DecodeString(j: Json): Result<Option<string>> {
    match j
    case Null => Ok(None)
    case Str(s) => Ok(Some(s))
    case _ => Err("expected a string")
  }

  /** A required string field defaults to the empty string. */
  function DecodeName(m: map<string, Json>, key: string): Result<string> {
    var s :- DecodeString(Member(m, key));
    Ok(s.GetOr(""))
  }

  function DecodeItem(j: Json): Result<Item> {
    match j
    case Obj(m) =>
      var name :- DecodeName(m, "name");
      Ok(Item(name, j))
    case _ => Err("expected an object")
  }

  function DecodeItems(js: seq<Json>): (r: Result<seq<Item>>)
    ensures r.Ok? ==> |r.value| == |js|
  {
    if js == [] then Ok([])
    else
      var first :- DecodeItem(js[0]);
      var rest :- DecodeItems(js[1..]);
      Ok([first] + rest)
  }

  function DecodeList(j: Json): Result<ItemList> {
    match j
    case Null => Ok(None)
    case Arr(js) =>
      var items :- DecodeItems(js);
      Ok(Some(items))
    case _ => Err("expected an array")
  }

  function DecodeContainer(j: Json): Result<Container> {
    match j
    case Obj(m) =>
      var mounts :- DecodeList(Member(m, "volumeMounts"));
      var env :- DecodeList(Member(m, "env"));
      Ok(Container(mounts, env))
    case _ => Err("expected an object")
  }

  function DecodeContainers(js: seq<Json>): (r: Result<seq<Container>>)
    ensures r.Ok? ==> |r.value| == |js|
  {
    if js == [] then Ok([])
    else
      var first :- DecodeContainer(js[0]);
      var rest :- DecodeContainers(js[1..]);
      Ok([first] + rest)
  }

  function DecodeContainerList(j: Json): Result<seq<Container>> {
    match j
    case Null => Ok([])
    case Arr(js) => DecodeContainers(js)
    case _ => Err("expected an array")
  }

  function DecodeSpec(j: Json): Result<Option<PodSpec>> {
    match j
    case Null => Ok(None)
    case Obj(m) =>
      var account :- DecodeString(Member(m, "serviceAccountName"));
      var volumes :- DecodeList(Member(m, "volumes"));
      var inits :- DecodeList(Member(m, "initContainers"));
      var containers :- DecodeContainerList(Member(m, "containers"));
      Ok(Some(PodSpec(account, volumes, inits, containers)))
    case _ => Err("expected an object")
  }

  function DecodeAnnotations(j: Json): Result<Scope> {
    match j
    case Null => Ok(None)
    case Obj(m) =>
      if forall k <- m :: m[k].Str? then Ok(Some(map k | k in m :: m[k].s)) else Err("expected string values")
    case _ => Err("expected an object")
  }

  function DecodeOwners(js: seq<Json>): Result<seq<OwnerRef>> {
    if js == [] then Ok([])
    else if !js[0].Obj? then Err("expected an object")
    else
      var kind :- DecodeName(js[0].members, "kind");
      var name :- DecodeName(js[0].members, "name");
      var rest :- DecodeOwners(js[1..]);
      Ok([OwnerRef(kind, name)] + rest)
  }

  function DecodeOwnerList(j: Json): Result<Option<seq<OwnerRef>>> {
    match j
    case Null => Ok(None)
    case Arr(js) =>
      var owners :- DecodeOwners(js);
      Ok(Some(owners))
    case _ => Err("expected an array")
  }

  /** Missing metadata and missing spec are both accepted. */
  function DecodePod(doc: Json): Result<Pod> {
    match doc
    case Obj(m) =>
      var meta :- (match Member(m, "metadata")
                   case Null => Ok(map[])
                   case Obj(mm) => Ok(mm)
                   case _ => Err("expected an object"));
      var annotations :- DecodeAnnotations(Member(meta, "annotations"));
      var namespace :- DecodeString(Member(meta, "namespace"));
      var owners :- DecodeOwnerList(Member(meta, "ownerReferences"));
      var spec :- DecodeSpec(Member(m, "spec"));
      Ok(Pod(annotations, namespace, owners, spec))
    case _ => Err("expected an object")
  }
}
