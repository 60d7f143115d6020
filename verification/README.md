# cwii, verified

cwii is a Kubernetes mutating admission webhook. It decides from annotations on a pod, its owning workload,
its ServiceAccount and its namespace which clouds (GCP, AWS, Azure) the pod federates with, asks one provider
per cloud for a plan, merges the plans, stores the GCP credentials ConfigMap and answers with an RFC 6902
patch that adds volumes, mounts, variables, init containers and a status marker.

This project models the whole path from annotations to patched pod and proves what the webhook is for:

- the patch applies to a pod document exactly when the document has what the plan needs, and then amounts to a
  direct injection on the document and on the typed pod;
- reinvocation of the whole admission flow changes nothing; patches compose; runs of any admissions keep
  everything the user wrote;
- every container of a patched pod has every variable its providers must set, with the value resolved from the
  annotation texts, and every path among them leads through exactly one mount to that provider's own file;
- annotations are consulted on pod, owner, ServiceAccount and namespace, in that order, each read from where it
  should be;
- any failure is a denial without a write, a dry run answers what a real run answers;
- replicas that interleave their writes in any way never disagree on the content of a ConfigMap.

## Layout

| module | what it is about |
|---|---|
| `Prelude`, `Text` | options, results, and the string routines of the Rust standard library |
| `JsonPatch` | JSON documents, RFC 6901 pointers (sections 3 and 4), RFC 6902 `add` (sections 4.1 and 5) |
| `Items` | named list entries and adding the ones not yet there |
| `Annotations`, `Resolve` | annotation keys and their resolution over the four scopes |
| `Plan`, `Marker` | the plan representation, the merge with its stable sort, the marker codec |
| `Pods` | the typed view of a pod document |
| `PatchedPods`, `EndToEnd` | what a patched document holds, member by member; from annotations to containers |
| `Patch`, `Refinement`, `Injection` | the operations, the direct injection, and why they agree |
| `Runs`, `Frames` | reinvocation, composition, and what runs of patches keep |
| `Shell`, `Credentials` | exit status of the verification checks; credentials documents and ConfigMap names |
| `ProviderGcp`, `ProviderAws`, `ProviderAz`, `Providers` | the providers, the registry, non-interference |
| `MergedPlans`, `Paths`, `Inits` | what holds of every merge of provider plans; where paths lead; writers and verifiers |
| `Cluster`, `Admission`, `AdmissionTheorems` | the owner walk, the store, the admission flow and its theorems |
| `Concurrent` | admissions of many replicas, interleaved write by write |

Code that changes state step by step is modelled by methods with loops, or by classes (`Patch.PatchList`,
`Cluster.Store`), each proved equal to a specification function; the theorems are about those functions. What
the specification functions themselves mean is stated apart from them: on the characters of annotation texts,
on the cluster reads, and on the members of JSON documents.

## Model

| member | source | states |
|---|---|---|
| `Refinement.PatchAppliesExactly` | crates/cwii-core/src/patch.rs:18-106 | for every document that decodes and every plan, applying the operations in order succeeds if and only if `metadata` is an object and `spec` is one too (or the plan adds no volume and no init container), and then gives exactly the direct injection: every parent exists when its operation runs, indices stay valid, missing and `null` arrays are created first |
| `Refinement.PatchIsWellFormed` | crates/cwii-core/src/admission.rs:46-66 | reading the JSON form of any built patch gives back its operations, so a patch is never refused as malformed |
| `PatchedPods.PatchedDocument` | crates/cwii-core/src/patch.rs:18-106 | after the patch applies, each list of the document is what it was followed by the planned entries whose name was not there, in order, with every member as planned (`value` of variables, `mountPath` and `readOnly` of mounts, the whole volume, image, command, arguments, environment and mounts of init containers); the marker annotation holds the old names and the injected providers |
| `PatchedPods.PodIsRead` | crates/cwii-core/src/admission.rs:92-109 | the namespace, account, annotations and owner references decided on are those at their places in the document |
| `EndToEnd.PatchedExactly` | crates/cwii-core/src/admission.rs:144-192 | once reads and plans succeed: allowed unchanged if and only if no provider that takes part is configured, patched if and only if one is and, unless it is a dry run, no write is refused |
| `EndToEnd.ContainersHaveTheVariables` | crates/cwii-core/src/patch.rs:71-83 | when the answer is a patch, every main container has after it every variable of every provider that takes part, once, with the resolved value, unless it had one of that name |
| `EndToEnd.ContainersHaveTheToken` | crates/cwii-core/src/plan.rs:122-161 | and a read-only mount at the directory of the token path, and the pod one volume of that name with a single token source of the resolved audience and lifetime |
| `EndToEnd.ContainersHaveTheCredentials` | crates/cwii-provider-gcp/src/lib.rs:124-195 | and for GCP a read-only mount at the directory of the credentials path, of a volume that shows the named ConfigMap or is written to by the one writer container, as the delivery annotation says |
| `EndToEnd.PodHasTheVerifier` | crates/cwii-core/src/plan.rs:220-246 | and, when the pod asks for one, one verifier that runs the check with those variables and mounts |
| `EndToEnd.ExampleIsPatched` | crates/cwii-core/src/admission.rs:88-193 | a pod whose one annotation is `cwii.dev/gcp-inject: "true"`, in an empty cluster, is patched by a server with a default audience, so the four results above are not void |
| `Refinement.ArrayApplies` | crates/cwii-core/src/patch.rs:113-126 | the operations of `add_array` grow the array by the items, in order, creating it when it is absent |
| `Refinement.ListApplies` | crates/cwii-core/src/patch.rs:22-35 | the guarded additions for one list apply and add exactly the entries whose name is new |
| `Refinement.ContainersApply` | crates/cwii-core/src/patch.rs:54-85 | after the operations of the first n containers those containers are injected and all others untouched |
| `Refinement.MarkerPointer` | crates/cwii-core/src/patch.rs:87-94 | the escaped marker key in the path decodes to the marker key (RFC 6901 section 3) |
| `Patch.PathLiterals` | crates/cwii-core/src/patch.rs:30-102 | the paths the operations are built from, spelled out |
| `Patch.Build` | crates/cwii-core/src/patch.rs:18-106 | the operations pushed are those of the specification; what they leave in a document is `PatchedPods.PatchedDocument` |
| `Patch.PatchList.AddArray` | crates/cwii-core/src/patch.rs:115-126 | pushes one append per item when the array exists, one `add` of the whole array when it does not, nothing when there are no items |
| `Patch.PatchList.AddFreshArray` | crates/cwii-core/src/patch.rs:22-35 | pushes additions for the entries whose name is not on the list yet |
| `Patch.PatchList.AddContainers` | crates/cwii-core/src/patch.rs:55-85 | pushes mounts and then variables for each main container in turn |
| `Items.AppendFreshFacts` | crates/cwii-core/src/patch.rs:22-52 | guarded addition keeps the old entries as a prefix, and afterwards exactly the old and the requested names are present |
| `Items.AppendFreshIdempotent` | crates/cwii-core/src/patch.rs:3-6 | adding the same entries again adds nothing |
| `JsonPatch.PointerRoundTrip` | crates/cwii-core/src/patch.rs:87-94 | any list of reference tokens survives being written as a pointer string and read back |
| `JsonPatch.ApplyAppend` | crates/cwii-core/src/patch.rs:18-106 | applying a concatenation of operations is applying the parts in order, failing when either fails |
| `JsonPatch.AddBelow` | crates/cwii-core/src/patch.rs:113-126 | adding below a node is adding inside that node and changes nothing elsewhere; it fails when the node is missing |
| `Injection.InjectionDecodes` | crates/cwii-core/src/patch.rs:18-106 | the patched document reads as the typed injection of what the original read as |
| `Runs.Reinvocation` | crates/cwii-core/src/patch.rs:3-6 | patch, decode, rebuild: the new patch is a single operation and applying it leaves the document exactly as it is |
| `Runs.RebuildIsMarkerOnly` | crates/cwii-core/src/patch.rs:18-106 | built against the injected pod, the plan asks for nothing but the marker already there |
| `Runs.InjectPodIdempotent` | crates/cwii-core/src/patch.rs:3-6 | injecting twice is injecting once |
| `Runs.MergeComposes` | crates/cwii-core/src/plan.rs:202-214 | for plan lists with disjoint names, one patch of the joint merge and two patches in a row give the same pod up to the order of init containers, and exactly the same pod when no order in the first list exceeds one in the second |
| `Runs.InjectAppend` | crates/cwii-core/src/patch.rs:22-106 | injecting two plans with disjoint names in a row is injecting their concatenation |
| `Frames.InjectDocExtends` | crates/cwii-core/src/patch.rs:22-106 | a patch only appends to volumes, init containers, mounts and variables and rewrites the marker: containers keep number and order, every other member and annotation is untouched |
| `Frames.RunInvariant` | crates/cwii-core/src/patch.rs:22-106 | any run of patches with any plans succeeds, keeps that frame, and the marker holds what it held plus every injected provider |
| `Frames.RunKeepsNamesDistinct` | crates/cwii-core/src/patch.rs:22-85 | runs of plans without repeated names never make two entries of one name on a pod that starts without them |
| `Frames.NoDanglingMounts` | crates/cwii-core/src/patch.rs:22-85 | whatever was on the pod, every mount added to a container, every planned mount already there and every mount of a planned init container names a volume of the patched pod |
| `Frames.InjectedInitsInOrder` | crates/cwii-core/src/patch.rs:37-52 | the init containers added follow the pod's own, are exactly those planned and not yet present, and come sorted by order |
| `Marker.MergedMarker` | crates/cwii-core/src/patch.rs:129-148 | the set built name by name and joined is the specified marker |
| `Marker.PiecesOfJoin` | crates/cwii-core/src/patch.rs:137-147 | splitting, trimming and dropping empties undoes joining, for all lists of non-empty, trimmed, comma-free names |
| `Marker.MarkerRoundTrip` | crates/cwii-core/src/patch.rs:128-148 | the written marker reads back as the union of the old names and the injected providers |
| `Marker.MarkerCanonical` | crates/cwii-core/src/patch.rs:128-148 | two markers are the same string if and only if they stand for the same set, whatever the old spelling and provider order |
| `Marker.MarkerSorted` | crates/cwii-core/src/patch.rs:128-148 | the marker is the join of a strictly sorted list of names and reads back as that list |
| `Marker.MarkerCompose` | crates/cwii-core/src/patch.rs:128-148 | merging in two rounds is merging once, and re-merging changes nothing |
| `Marker.MarkerExample` | crates/cwii-core/src/patch.rs:144-147 | on a fresh pod all three providers give `aws,az,gcp` |
| `Plan.Merge` | crates/cwii-core/src/plan.rs:202-214 | the loop and the sort compute the specified merge |
| `Plan.MergeConserves` | crates/cwii-core/src/plan.rs:200-214 | for any plan anywhere in the list: its volumes, mounts, variables, upsert and id stand in registry order between those of the plans before and after it, and no init container is lost or duplicated |
| `Plan.SortFacts` | crates/cwii-core/src/plan.rs:212 | the sort is by order, keeps the multiset, and keeps the sequence of every order class |
| `Plan.StableSortUnique` | crates/cwii-core/src/plan.rs:200-212 | there is only one list with those properties |
| `Plan.MergeAppend` | crates/cwii-core/src/plan.rs:202-214 | how the merge of a concatenation relates to the two merges |
| `Plan.TokenLifetime` | crates/cwii-core/src/plan.rs:15-28 | the rendered `expirationSeconds` is at least 600, is the first non-empty annotation when that parses as an `i64` of at least 600, and otherwise the default or 600, whichever is more |
| `Plan.TokenSource` | crates/cwii-core/src/plan.rs:136-153 | the rendered volume has one token source with this provider's audience, lifetime and file name |
| `Plan.PushVerifier` | crates/cwii-provider-gcp/src/lib.rs:197-228 | appends the provider's verifier when the pod asks for one, nothing otherwise |
| `Shell.VerifierStatus` | crates/cwii-core/src/plan.rs:220-234 | for checks of any number of commands joined with `&&` and `\|\|` (equal precedence, left to right): the wrapped form renders as the check followed by the note and exits 0 for every outcome when `echo` succeeds; the enforcing form is the check itself |
| `Text.TrimFacts` | crates/cwii-core/src/resolve.rs:67-78 | trimming removes exactly the surrounding whitespace |
| `Text.SplitJoin` | crates/cwii-core/src/patch.rs:137-147 | splitting undoes joining when no piece holds the separator |
| `Text.TrimExactly` | crates/cwii-core/src/resolve.rs:67-78 | the trimmed text is the one piece without whitespace at its ends that has nothing but whitespace around it |
| `Text.LessExactly` | crates/cwii-core/src/patch.rs:130 | the order of names is decided by the first character that differs, and a proper prefix comes first |
| `Text.ParseNumeral` | crates/cwii-core/src/resolve.rs:81-83 | every decimal numeral with any sign and leading zeros parses to its value, or to nothing when that is no `i64` |
| `Text.OnlyNumeralsParse` | crates/cwii-core/src/resolve.rs:81-83 | nothing else parses |
| `Resolve.ReadBoolExactly` | crates/cwii-core/src/resolve.rs:54-65 | a text is explicitly true (false) if and only if without surrounding whitespace it is the word `true` (`false`) in any ASCII case, letter by letter |
| `Resolve.QueriesExactly` | crates/cwii-core/src/resolve.rs:48-78 | both queries on the texts of pod, owner, ServiceAccount and namespace: the first that spells `true` or `false`; the first that is more than whitespace, stripped |
| `Resolve.NativeOrExactly` | crates/cwii-core/src/resolve.rs:21-36 | a setting is the first text under its own key; without any, and only with native annotations honoured, the first under the native key |
| `Resolve.ScanIsLeast` | crates/cwii-core/src/resolve.rs:52-78 | over any number of scopes, the scan answers with the value of the narrowest scope holding a usable one, and with nothing if and only if there is none |
| `Resolve.ScanBroader` | crates/cwii-core/src/resolve.rs:52-78 | once narrower scopes decide, broader ones are irrelevant; until then they decide alone |
| `Resolve.PodOwnerAccountNamespace` | crates/cwii-core/src/resolve.rs:48-50 | the order of the four scopes |
| `Resolve.NarrowFalseWins` | crates/cwii-core/src/resolve.rs:3-6 | a scope that spells `false`, with no narrower scope spelling `true`, suppresses every broader `true` |
| `Resolve.NativeOnlyAsFallback` | crates/cwii-core/src/resolve.rs:21-36 | with a usable cwii value in any scope, native annotations and the compatibility switch leave the result alone |
| `Resolve.QueriesReadOnlyKeys` | crates/cwii-core/src/resolve.rs:52-83 | every query depends on the values under its key only |
| `Resolve.FirstI64MeetsDocumentation` | crates/cwii-core/src/resolve.rs:80-83 | the integer query meets its documentation if and only if the first non-empty value parses or no value does |
| `Resolve.MalformedNarrowValueHidesBroader` | crates/cwii-core/src/resolve.rs:80-83 | otherwise it answers nothing where the documentation promises the broader value |
| `Resolve.MalformedExample` | crates/cwii-core/src/resolve.rs:80-83 | a concrete pair of annotations for which code and documentation differ |
| `Annotations.ProviderKeyOwner` | crates/cwii-core/src/annotations.rs:16-44 | every key built for a provider belongs to that provider alone |
| `Annotations.MarkerKeyOwner` | crates/cwii-core/src/annotations.rs:12-14 | the marker key belongs to no provider |
| `Annotations.GcpKeys` | crates/cwii-core/src/annotations.rs:16-44 | the six keys of the GCP provider, spelled out |
| `Annotations.AwsKeys` | crates/cwii-core/src/annotations.rs:16-44 | the six keys of the AWS provider, spelled out |
| `Annotations.AzKeys` | crates/cwii-core/src/annotations.rs:16-44 | the six keys of the Azure provider, spelled out |
| `Credentials.BuildCredentialsJson` | crates/cwii-provider-gcp/src/credentials.rs:12-38 | the text encodes an external-account document of the given audience whose `credential_source.file` is the token file, with an impersonation URL holding the account if and only if there is one |
| `Credentials.DocumentIsExternalAccount` | crates/cwii-provider-gcp/src/credentials.rs:12-38 | the same of the document the other theorems go through, member by member |
| `Credentials.HashedName` | crates/cwii-provider-gcp/src/credentials.rs:42-52 | the name is the fixed prefix and the digest of audience, NUL, account |
| `Credentials.PreimageDeterminesPair` | crates/cwii-provider-gcp/src/credentials.rs:42-48 | for NUL-free audiences and absent or non-empty accounts, equal hash inputs mean equal pairs |
| `Credentials.NameDeterminesDocument` | crates/cwii-provider-gcp/src/credentials.rs:40-52 | without a digest collision, equal names mean equal credentials for one token path |
| `Credentials.UniquelyNamedExactly` | crates/cwii-provider-gcp/src/credentials.rs:42-48 | with NULs allowed, a hash input stands for its pair alone if and only if there is no NUL in the account or in the audience after its first character |
| `ProviderGcp.MakePlan` | crates/cwii-provider-gcp/src/lib.rs:93-238 | the plan assembled step by step is the specified one: skipped without audience, an error on an unknown delivery mode, two ways of delivery |
| `ProviderAws.MakePlan` | crates/cwii-provider-aws/src/lib.rs:59-143 | the plan assembled step by step is the specified one: skipped without a role |
| `ProviderAz.MakePlan` | crates/cwii-provider-az/src/lib.rs:62-144 | the plan assembled step by step is the specified one: skipped without client or tenant |
| `Providers.Registry` | crates/cwii/src/config.rs:119-152 | exactly the enabled providers, one of each kind at most, in the order gcp, aws, az |
| `Providers.EnabledExactly` | crates/cwii-core/src/resolve.rs:13-19 | a provider takes part if and only if the first of pod, owner, ServiceAccount and namespace whose inject annotation spells `true` or `false` spells `true`, or none does and its native annotation is honoured and present |
| `Providers.FalseDisables` | crates/cwii-core/src/resolve.rs:3-6 | the plain text `false` disables a provider unless a narrower scope spells `true` |
| `Providers.DeliveryExactly` | crates/cwii-provider-gcp/src/lib.rs:37-47 | which delivery mode a pod gets, told from the letters of the first annotation text; the mode of the server without one; an error for any other text |
| `Providers.PlanOutcomeExactly` | crates/cwii-core/src/provider.rs:60-66 | a provider that takes part fails if and only if it is a configured GCP provider under an unknown delivery mode, and otherwise plans if and only if the settings it needs are there |
| `Providers.FootprintsDisjoint` | crates/cwii-core/src/annotations.rs:12-44 | the keys of different providers are disjoint and none of them is the marker key |
| `Providers.NonInterference` | crates/cwii-core/src/resolve.rs:3-6 | annotations outside a provider's keys, at any scope, change neither its decision nor its plan |
| `Providers.PlanAllStep` | crates/cwii-core/src/admission.rs:144-173 | planning with one more provider is the earlier planning, then that provider; an error stays |
| `Providers.OtherSlicesUnchanged` | crates/cwii-core/src/admission.rs:144-173 | two requests that differ only in one provider's keys: when neither fails, the plans of all other providers are the same |
| `MergedPlans.ProviderWellPlanned` | crates/cwii-provider-gcp/src/lib.rs:134-237 | every plan of every provider names nothing twice, uses its own names only, mounts only volumes it adds, each in a directory of its own |
| `MergedPlans.MergedWellPlanned` | crates/cwii-core/src/plan.rs:202-214 | so does every merge of plans of distinct providers, after the sort |
| `MergedPlans.ProviderGroupsCompose` | crates/cwii-core/src/plan.rs:200-214 | two groups of providers in one webhook or in two that run in a row: the same pod up to init container order |
| `Paths.TokenPathAgrees` | crates/cwii-core/src/plan.rs:23-36 | for every mount root: no mount directory of the merged plan is another one or lies below it, and each token path lies under exactly one mount, of the one volume that supplies a token of the provider's audience and resolved lifetime, under that file name |
| `Paths.VariablesExactly` | crates/cwii-provider-aws/src/lib.rs:85-106 | the variables of a plan are those its provider must set, with the settings resolved under their annotation keys, and no others |
| `Paths.EnvironmentAgrees` | crates/cwii-provider-aws/src/lib.rs:85-106 | every variable a provider is to set is in the merged plan exactly once, with the setting resolved for it or its own path |
| `Paths.CredentialsPathAgrees` | crates/cwii-provider-gcp/src/lib.rs:121-195 | the credentials path lies under exactly one mount, of a volume that shows the document from the ConfigMap upserted alongside or receives it from the writer container, as the delivery annotation says; the document has the resolved audience and account and reads the token at a path served by GCP's token volume alone, whose token has that audience |
| `Paths.CredentialsUpserted` | crates/cwii-provider-gcp/src/lib.rs:139-157 | with ConfigMap delivery the merge upserts, under the name digested from audience and account, a document of that audience and account |
| `Inits.VerifierSeesWhatContainersSee` | crates/cwii-provider-gcp/src/lib.rs:197-228 | a plan holds a verifier if and only if the pod asks for one, and it has the environment and mounts of the main containers, the resolved image and the plain or wrapped check |
| `Inits.SidecarsExactly` | crates/cwii-provider-gcp/src/lib.rs:139-184 | a plan holds a writer if and only if it is GCP delivery by init container, and upserts a ConfigMap if and only if it is GCP delivery by ConfigMap; every init container drops all capabilities, forbids privilege escalation and has small resources |
| `Inits.VolumesExactly` | crates/cwii-provider-gcp/src/lib.rs:134-190 | the volumes and mounts of a plan: the token and, for GCP, the credentials, each mounted read-only |
| `Inits.WriterBeforeVerifiers` | crates/cwii-core/src/plan.rs:88-90 | on the patched pod the injected credentials writer precedes every injected verifier |
| `Cluster.OwnerAnnotations` | crates/cwii-core/src/k8s.rs:19-68 | the nested loops with their early returns compute the specified walk |
| `Cluster.OwnerWalkStopsFirst` | crates/cwii-core/src/k8s.rs:27-68 | the walk answers, or fails, as the first reference that does not resolve to nothing; references after it are never consulted |
| `Cluster.OwnerWalkFindsNothing` | crates/cwii-core/src/k8s.rs:67 | without such a reference there are no owner annotations |
| `Cluster.DeploymentPreferred` | crates/cwii-core/src/k8s.rs:29-45 | a ReplicaSet answers for its first existing Deployment owner |
| `Cluster.WorkloadExactly` | crates/cwii-core/src/k8s.rs:27-66 | where one reference leads, on the reads: a found StatefulSet, DaemonSet or Job gives its annotations; a found ReplicaSet those of its first Deployment owner that is not absent, its own when all are; absent objects and other kinds lead nowhere, failed reads to an error |
| `Cluster.OwnerWalkExactly` | crates/cwii-core/src/k8s.rs:19-68 | the walk answers what the first reference that leads anywhere leads to, and nothing when there is none |
| `Cluster.Store.Upsert` | crates/cwii-core/src/k8s.rs:89-125 | stores a ConfigMap of exactly one key, labelled as managed by cwii, under its name unless the server refuses, and touches nothing else |
| `Admission.ReadContext` | crates/cwii-core/src/admission.rs:97-139 | the context planned in: namespace and account of the request and the pod, the owner's annotations from the walk, the ServiceAccount's and the namespace's from their objects; an error if and only if one of these reads fails |
| `Admission.ContextExactly` | crates/cwii-core/src/admission.rs:97-139 | the same of the function the other theorems go through; the request's namespace comes before the pod's, and `default` stands for what is not given |
| `Admission.PlanProviders` | crates/cwii-core/src/admission.rs:144-173 | the provider loop computes the specified planning |
| `Admission.WriteAll` | crates/cwii-core/src/admission.rs:182-190 | writes in order up to the first refusal |
| `Admission.Handle` | crates/cwii-core/src/admission.rs:88-193 | the answer, the stored ConfigMaps and the writes issued, for every request and every state of the cluster |
| `Admission.Mutate` | crates/cwii-core/src/admission.rs:28-78 | the same for the outcome |
| `Admission.AnswerIsWellFormed` | crates/cwii-core/src/admission.rs:46-66 | no answer of the flow is refused as malformed |
| `AdmissionTheorems.PlanAllFailsExactly` | crates/cwii-core/src/admission.rs:171 | planning fails if and only if an enabled provider's plan fails |
| `AdmissionTheorems.PrepareFailsExactly` | crates/cwii-core/src/admission.rs:92-173 | the flow fails before its first write if and only if the pod is missing, a consulted read fails, or, with all of them made, an enabled provider fails |
| `AdmissionTheorems.FailClosed` | crates/cwii-core/src/admission.rs:111-173 | in each of those cases the outcome is a denial and no write is issued |
| `AdmissionTheorems.PlanningReads` | crates/cwii-core/src/admission.rs:114-139 | given what the reads of the owner, the ServiceAccount and the namespace return, every query of the providers answers from pod, owner, ServiceAccount and namespace, in that order |
| `AdmissionTheorems.FalseKeepsProviderOut` | crates/cwii-core/src/admission.rs:144-148 | a plain `false` read from any of the four keeps the provider out of the plans whatever the broader ones say, unless a narrower one spells `true` |
| `AdmissionTheorems.OutcomeExactly` | crates/cwii-core/src/admission.rs:175-192 | once reads and plans succeed: the outcome, the writes attempted and the ConfigMaps afterwards, in all cases of no plan, dry run, no ConfigMap, refused and accepted write |
| `AdmissionTheorems.AtMostOneWrite` | crates/cwii-core/src/admission.rs:182-190 | a request of a registry's providers writes one ConfigMap at most |
| `AdmissionTheorems.DenialChangesNothing` | crates/cwii-core/src/admission.rs:67-73 | so a denial of any cause, a refused write included, leaves the ConfigMaps as they were |
| `AdmissionTheorems.DryRunFaithful` | crates/cwii-core/src/admission.rs:182-190 | a dry run writes nothing and has the outcome of the real run whenever the real run's writes succeed |
| `AdmissionTheorems.AdmissionFixedPoint` | crates/cwii-core/src/admission.rs:141-192 | apply the patch, submit the result against the same cluster and configuration: the same plans and writes, a patch of one operation, and a document that stays exactly as it is |
| `AdmissionTheorems.VisitsGrow` | crates/cwii-core/src/admission.rs:88-193 | any sequence of admissions by replicas of any configuration and cluster contents: every patch applies, the frame holds, names stay distinct and the marker only gains names |
| `AdmissionTheorems.PatchedPodHasNoDanglingMounts` | crates/cwii-core/src/patch.rs:22-85 | no patch of any admission leaves a cwii mount without its volume |
| `Concurrent.InterleavedWritesAreSafe` | crates/cwii-core/src/admission.rs:180-192 | in every interleaving of requests that agree on contents, a stored ConfigMap keeps its content for good, and every real request answered with a patch finds the ConfigMaps of its plan stored with exactly the planned key and text, then and ever after |
| `Concurrent.DeploymentIsCoherent` | crates/cwii-provider-gcp/src/lib.rs:139-157 | replicas with one mount root, NUL-free audiences and no digest collision among the inputs that occur do agree on contents |
| `Concurrent.PatchedPodsHaveTheirCredentials` | crates/cwii-core/src/admission.rs:180-192 | in such a deployment a patched GCP pod's ConfigMap is there for good, in the request's namespace, and its one key holds an external-account document of that pod's own audience and account that reads the token where the patch mounts it |
| `Concurrent.MutateIsARun` | crates/cwii-core/src/admission.rs:88-193 | one call of the modelled admission is one of the interleavings |
| `Concurrent.RunKeepsInv` | crates/cwii-core/src/k8s.rs:87-125 | the invariant behind it: names hold their content, and each job's finished writes are stored |

## Code and documentation

- `first_i64` is documented as the first value that parses (crates/cwii-core/src/resolve.rs:80); the code takes
  the first non-empty value and then parses it. The model follows the code, `Resolve.FirstI64MeetsDocumentation`
  says exactly when the two agree.
- The marker example `gcp,aws` (crates/cwii-core/src/annotations.rs:13) is not sorted; the code writes `aws,gcp`.
- The ConfigMap name is documented with 6 hexadecimal digits (docs/architecture.md:271); the code encodes 6 bytes,
  that is 12 digits (crates/cwii-provider-gcp/src/credentials.rs:49-50). No proof depends on the length.
- Volumes and the other lists are bootstrapped below `/spec` and the marker below `/metadata`; a document without
  those objects makes the patch fail. `Refinement.PatchAppliesExactly` gives the exact condition. An API server
  always sends both.

## Left out

- HTTP, TLS, the router, process start and command line flags: input and output only.
- Telemetry and log lines, and the settings used in them alone.
- The kube client and the field-manager rules of server-side apply: a read is a function from object keys to
  found, absent or failed, an upsert is a store step that the server may refuse.
- Changes of the cluster in the middle of one request: what one request reads is fixed, though arbitrary and
  different for each request. Foreign writers and deletions of ConfigMaps are excluded in `Concurrent`.
- SHA-256, hexadecimal encoding and JSON text: two uninterpreted functions, `digest` and `encode`. That `digest`
  does not collide is assumed only for the inputs that occur, and only where a theorem says so.
- Decoding of pods by k8s-openapi beyond the members read: an absent member and `null` read alike, a missing
  required string reads as the empty string, a member of the wrong kind is an error. Members the webhook does not
  read are not checked.
- The bytes of strings: strings are sequences of characters, which order and compare as their UTF-8 forms do.
- Texts of error messages, and the failure to serialize a parsed patch (crates/cwii-core/src/admission.rs:50-56).
- The parsing of the server's delivery flag in `Config::providers`: configurations come with the mode parsed.
- User mounts that share a directory with a cwii mount under another name: the code guards by name only, so path
  uniqueness is claimed for the merged plan and not against arbitrary pods.
- The exit status of single commands: `Shell` takes each command's outcome as given.
- Helm chart, RBAC and installation documents.
- The block that each of the three providers spells out for its verifier is written once, and the test for a dry
  run stands before the write loop rather than inside it.
- The shell beyond how AND-OR lists combine exit statuses: commands are not parsed.
