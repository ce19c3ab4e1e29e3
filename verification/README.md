# Quobyte Kubernetes deployer, modelled in Dafny

`quobyte-k8s-deployer.py` is a one-shot bootstrapper that brings a Quobyte
storage cluster up on Kubernetes. It works through a fixed sequence of steps:

1. the namespace, the config map and three services;
2. the registry DaemonSet, then the registries, where the bootstrap registry must
   be running before any other registry node is labelled;
3. the API/webconsole deployment, with a wait for its pod;
4. the metadata, data and client DaemonSets, each with its node labels;
5. the management pod.

Every create step follows the same read-then-write pattern: list first, and
create only when the list raised.

This project models the decision logic behind those client calls and proves
what it guarantees.

## How the model is built

- **Control plane.** `Cluster.ControlPlane` is a class holding the objects that
  exist (`Store`: namespaces, config maps, services, DaemonSets, deployments and
  pods by name, plus each node's labels) and the log of calls received. Its
  invariant `Valid()` says that the objects are exactly what the logged calls
  made of the initial ones.
- **The Kubernetes client.** The client is replaced by an oracle. The reply to a
  call (`Response(items)`, `ApiError` or `ValueErr`) is any function of the
  calls issued before it and of the call itself. The deployer talks to the
  cluster only through `ControlPlane.Request`.
- **Procedures.** Each procedure of the deployer is modelled twice:
  - a method over the control plane, with the procedure's loops and branches;
  - a function `…Run(oracle, log, …)` giving the calls the procedure issues and
    how it ends (`Ok` or `Fail(failure)`).

  Each method's postcondition ties the calls it issued and the status it
  returned to that function. The properties are proved as lemmas about the
  functions.
- **Exceptions.** An exception nothing catches ends the run: `Fail(Crashed(…))`
  for IndexError, for AttributeError on `None.items` and for an uncaught
  ValueError. The two `TimeoutError`s and the "no bootstrap node" ValueError are
  failures of their own.
- **Version substitution.** `set_version_in_spec` is a function on a manifest
  datatype and a method that rewrites the images in an array, in place. Python's
  `str.replace` is `Text.Replace`.
- **Node-label patch.** The patch is one JSON Patch "add" operation (section 4.1
  of RFC 6902). Its path is the JSON Pointer (RFC 6901)
  `/metadata/labels/<key>`, with the key pasted in unescaped.

The model follows the code as written, including these behaviours:

- A list call that answers, even with no items, counts as "already there": the
  create (or the label patch) happens only when the list raised.
- The namespace check looks for a namespace called `quobyte`, whatever namespace
  is configured.
- The bootstrap registry node is labelled only when the first registry pod list
  raised ValueError.
- An empty first pod list makes `items[0]` raise IndexError, which ends the run.
- The wait for a pod makes 20 attempts and sleeps 15 seconds after each
  unsuccessful one, the twentieth included. Only the attempts are modelled, not
  the sleeps.
- Only the presence of the `bootstrap` key of a registry entry matters, not its
  value.
- The metadata step treats `all` as a node name like any other.
- The data step labels a configured node list with `quobyte_metadata`.
- The webconsole step waits only when it attempted the creation.
- An empty data or client node list fails on `nodes[0]`.
- When the full node list raised ApiException, `api_response.items` fails on
  `None`. ValueError from that list is not caught.

## Model

| member | source | states |
|---|---|---|
| Text.Replace | quobyte-k8s-deployer.py:93-102 | `str.replace(old, new)`: left to right, every occurrence of the token not overlapping an earlier replaced one becomes the version |
| Text.ReplaceFree | quobyte-k8s-deployer.py:93 | `s.replace('VERSION', v)` of a string containing no `VERSION` is the string itself |
| Text.ReplaceLeavesNoToken | quobyte-k8s-deployer.py:93 | with a non-empty version that shares no character with `VERSION`, no occurrence of the token is left after the replacement |
| Text.ReplaceIdempotent | quobyte-k8s-deployer.py:93 | for such a version, replacing a second time changes nothing |
| Text.TrailingToken | quobyte-k8s-deployer.py:96 | an image tag ending in the token, with no `V` before the token, ends in the version afterwards and is otherwise unchanged |
| Text.ReplaceImageTag | quobyte-k8s-deployer.py:96 | `quobyte/registry:VERSION` with version `2.10` becomes `quobyte/registry:2.10` |
| Manifests.SubstituteImagesInPlace | quobyte-k8s-deployer.py:95-96 | the loop over the containers replaces the token in every image, in place, and changes nothing else of any container |
| Manifests.SubstitutedCopy | quobyte-k8s-deployer.py:101-102 | a container list comes back with every image substituted |
| Manifests.WithVersion | quobyte-k8s-deployer.py:89-102 | the document `set_version_in_spec` leaves: by kind, the version label and the container images substituted, everything else as it was |
| Manifests.SetVersionInSpec | quobyte-k8s-deployer.py:89-102 | Deployment/DaemonSet: the template's version label and every container image are substituted. Pod: the document's own version label and its containers are substituted. Any other kind is returned unchanged. Kind, name, the other labels, and the number, order and names of containers are kept |
| Manifests.WithVersionTokenFree | quobyte-k8s-deployer.py:89-102 | a document with no `VERSION` token where the version goes is left unchanged |
| Manifests.WithVersionIdempotent | quobyte-k8s-deployer.py:89-102 | after substitution with a suitable version no token is left, so substituting again is a no-op |
| JsonPatch.DecodeLabelPath | quobyte-k8s-deployer.py:143-145 | for a key with no `/` or `~`, the patch path decodes to exactly `metadata`, `labels`, key |
| JsonPatch.SlashedKeyOverreaches | quobyte-k8s-deployer.py:144 | since the key is not escaped, a key `a/b` addresses one level below the label map instead of a label |
| JsonPatch.DecodeEscapedLabelPath | quobyte-k8s-deployer.py:143-145 | the path with the key escaped as RFC 6901 requires names label `key` for every key |
| JsonPatch.LabelPathPlain | quobyte-k8s-deployer.py:144 | for a key with no `/` or `~`, the unescaped path the deployer writes is that escaped path |
| JsonPatch.LabelPatchSets | quobyte-k8s-deployer.py:143-148 | the deployer's patch sets label `key` to `value` and leaves every other label alone |
| Settings.KeysArePlain | quobyte-k8s-deployer.py:144 | the four role label keys need no pointer escaping |
| Cluster.Apply | quobyte-k8s-deployer.py:44 | what one call does to the objects given its reply: a create or node patch that got a response takes effect; lists, and calls that raised, change nothing |
| Cluster.Replay | quobyte-k8s-deployer.py:148 | the objects after the calls of a log, each answered by the control plane in turn |
| Cluster.LabelPatchEffect | quobyte-k8s-deployer.py:148 | a successful `patch_node` changes that one label of that one node and nothing else in the cluster |
| Reconcile.IfAbsentRun | quobyte-k8s-deployer.py:21-46 | read-then-write issues the list, then the create exactly when the list raised (at most one create). It fails exactly when that create raised ValueError; ApiException on the create is swallowed |
| Reconcile.IfAbsentAnswered | quobyte-k8s-deployer.py:32-33 | an answered list ends the step successfully after the list alone |
| Reconcile.IfAbsentEffect | quobyte-k8s-deployer.py:21-46 | an answered list leaves the objects as they were; otherwise the write takes its effect, and an answered create leaves its body stored under its name |
| Reconcile.Submit | quobyte-k8s-deployer.py:43-46 | a create is issued once; only ValueError escapes |
| Reconcile.IfAbsent | quobyte-k8s-deployer.py:21-46 | the read-then-write method issues exactly the calls `IfAbsentRun` gives and ends as it says |
| Reconcile.CreateNamespace | quobyte-k8s-deployer.py:21-46 | `create_namespace` lists the namespace `quobyte` and creates the configured namespace only when that list raised |
| Reconcile.CreateConfigMap | quobyte-k8s-deployer.py:49-66 | `create_configmap` follows the read-then-write pattern on `quobyte-config` |
| Reconcile.CreateService | quobyte-k8s-deployer.py:69-86 | `create_svc` follows the read-then-write pattern on the named service |
| Reconcile.CreateDaemonSet | quobyte-k8s-deployer.py:105-125 | `create_daemonset` creates the versioned DaemonSet only when its list raised |
| Reconcile.DeployQmgmtPod | quobyte-k8s-deployer.py:302-322 | `deploy_qmgmt_pod` creates the versioned management pod only when its list raised, with no wait |
| Reconcile.LabelNodeRun | quobyte-k8s-deployer.py:128-150 | the calls of `label_node`: the node list filtered by name and label, then the add patch when that list raised |
| Reconcile.LabelNodesRun | quobyte-k8s-deployer.py:258-259 | `label_node` for each node in turn, stopping at the first exception that escapes |
| Reconcile.LabelNode | quobyte-k8s-deployer.py:128-150 | `label_node` issues the filtered node list, then one patch exactly when that list raised |
| Reconcile.LabelNodeCalls | quobyte-k8s-deployer.py:128-150 | every call of `label_node(node, key, value)` is that list or the patch, both about `node` only |
| Reconcile.LabelNodeEffect | quobyte-k8s-deployer.py:128-150 | `label_node` changes nothing when the node list answered, the patch raised, or the node does not exist. Otherwise it sets that node's label `key` to `value` (for a key with no `/` or `~`) and changes nothing else |
| Reconcile.RoleLabelEffect | quobyte-k8s-deployer.py:182-193 | for the four role keys, a patched node carries `key=true` afterwards and no other node or object changed |
| Reconcile.LabelNodesOnlyLabel | quobyte-k8s-deployer.py:192-193 | labelling a node list issues only label calls for that key and value, on listed nodes. It stops only at a patch that raised ValueError |
| Reconcile.LabelNodeQueriesOnce | quobyte-k8s-deployer.py:128-150 | one `label_node(node, …)` asks about `node` exactly once, whether or not it then patches |
| Reconcile.LabelNodesQueried | quobyte-k8s-deployer.py:258-259 | the nodes are asked about in list order, and all of them when the loop completes |
| Reconcile.LabelNodesInOrder | quobyte-k8s-deployer.py:298-299 | the two facts above together |
| Reconcile.LabelNodes | quobyte-k8s-deployer.py:298-299 | the `for node in …: label_node(…)` loop issues exactly the calls `LabelNodesRun` gives and stops at the first exception |
| Reconcile.LabelNodesAnswered | quobyte-k8s-deployer.py:139-140 | when every list answers, labelling patches nothing: one node list per node, in order, and success |
| Readiness.CountReady | quobyte-k8s-deployer.py:214 | the number of ready container statuses, never more than there are statuses |
| Readiness.ProbePods | quobyte-k8s-deployer.py:211-217 | what one attempt learns: not ready when the list raised, a crash on an empty pod list, ready when the first pod is Running with all declared containers ready |
| Readiness.WaitRun | quobyte-k8s-deployer.py:196-222 | the calls and result of `wait_for_running_pod`: up to 20 attempts, stopping at the first ready one |
| Readiness.ReadyMeansFullyReady | quobyte-k8s-deployer.py:211-217 | an attempt counts as ready only when the first pod is Running, has container statuses, and its ready count equals its declared container count |
| Readiness.WaitContract | quobyte-k8s-deployer.py:196-222 | the wait repeats the same list 1 to 20 times. Every attempt but the last saw the pod not ready. It reports up exactly when the last attempt saw it ready, and fails exactly when the last reply had no pods. Otherwise it gives up after all 20 |
| Readiness.WaitTimeout | quobyte-k8s-deployer.py:200-222 | a wait that returned False used all its attempts, none of which saw the pod ready |
| Readiness.WaitForRunningPod | quobyte-k8s-deployer.py:196-222 | the `while tries < 20` loop issues exactly the calls `WaitRun` gives and returns its result |
| Registry.BootstrapEntries | quobyte-k8s-deployer.py:163 | the registry entries that have the `bootstrap` key, in order |
| Registry.Leftovers | quobyte-k8s-deployer.py:164 | the registry entries without the `bootstrap` key, in order |
| Registry.Filter | quobyte-k8s-deployer.py:163-164 | each side of the split holds only entries with (or without) the bootstrap key |
| Registry.PartitionIsMerge | quobyte-k8s-deployer.py:163-164 | the registry list is an order-preserving interleaving of bootstrap entries and leftovers: every entry lands on exactly one side |
| Registry.FirstBootstrapEntry | quobyte-k8s-deployer.py:163-169 | there are no bootstrap entries exactly when no entry has the key; otherwise the bootstrap node is that of the first entry that has it |
| Registry.StartPhases | quobyte-k8s-deployer.py:171-183 | after the first pod list: IndexError on an empty list, the bootstrap labelling on ValueError, and whether the first pod was Running |
| Registry.FinishPhases | quobyte-k8s-deployer.py:185-193 | the wait unless the pod was Running, the timeout, and then the leftover labelling |
| Registry.RegistryPhases | quobyte-k8s-deployer.py:159-193 | `deploy_registries` by phase: no calls without a bootstrap entry; otherwise the pod list, the start and the finish |
| Registry.RegistryRun | quobyte-k8s-deployer.py:159-193 | the calls of `deploy_registries`, phase after phase, and how it ends |
| Registry.RegistryNeedsBootstrap | quobyte-k8s-deployer.py:166-167 | the step fails with "no bootstrap node" exactly when there is no bootstrap entry, and then before any call; otherwise it starts by listing the registry pods |
| Registry.BootstrapLabelOnValueError | quobyte-k8s-deployer.py:173-183 | the bootstrap node is labelled exactly when the first pod list raised ValueError |
| Registry.FinishWait | quobyte-k8s-deployer.py:185-189 | the wait is skipped when the first pod was Running, and otherwise polls the one query at most 20 times. A timeout means all 20 attempts saw the pod not ready, and nothing was labelled |
| Registry.FinishLeftovers | quobyte-k8s-deployer.py:188-193 | leftovers are labelled only after success was seen. Every leftover call labels a leftover node `quobyte_registry=true`. The nodes asked about are a prefix of the leftovers in order, even when a patch raised, and all of them when the step succeeds |
| Registry.LeftoversAfterSuccess | quobyte-k8s-deployer.py:171-193 | for the whole step: leftovers are labelled `quobyte_registry=true` only once the first pod was seen Running or the wait's last attempt saw it ready. Only leftover nodes are labelled, in config order up to where the run stopped, and all of them on success. A timeout labels none of them and follows 20 not-ready attempts |
| Registry.FinishAnswered | quobyte-k8s-deployer.py:185-193 | when every list answers, the wait and the leftover labelling only read |
| Registry.RegistryAnswered | quobyte-k8s-deployer.py:159-193 | when every list answers, the registries step only reads and labels no bootstrap node |
| Registry.StartRegistries | quobyte-k8s-deployer.py:171-183 | the first pod list, with the bootstrap labelling on ValueError and IndexError on an empty list |
| Registry.FinishRegistries | quobyte-k8s-deployer.py:185-193 | the wait, the timeout and the leftover loop |
| Registry.DeployRegistries | quobyte-k8s-deployer.py:159-193 | `deploy_registries` issues exactly the calls `RegistryRun` gives and ends as it says |
| Roles.WebconsoleRun | quobyte-k8s-deployer.py:225-251 | the calls of `deploy_api_webconsole`: the read-then-write of the deployment, then the wait when the create was attempted and did not raise ValueError |
| Roles.WebconsoleContract | quobyte-k8s-deployer.py:225-251 | an answered deployment list means no creation and no wait. Otherwise the versioned deployment is created, and a wait of at most 20 polls follows unless the create raised ValueError. A timeout means all 20 polls saw the pod not ready |
| Roles.WebconsoleAnswered | quobyte-k8s-deployer.py:239-240 | when every list answers, the webconsole step is the list alone |
| Roles.DeployApiWebconsole | quobyte-k8s-deployer.py:225-251 | `deploy_api_webconsole` issues exactly the calls `WebconsoleRun` gives |
| Roles.ObjectNames | quobyte-k8s-deployer.py:274-275 | the nodes of the full node list are taken by name, in order |
| Roles.RoleNodesContract | quobyte-k8s-deployer.py:266-279 | an empty node list fails on `nodes[0]`. With `all` first: after the full node list, only the nodes it returned get the `all` key, in order, and the rest of the configured list is ignored; a list that raised fails. Otherwise exactly the configured nodes get the list key |
| Roles.RoleNodesAnswered | quobyte-k8s-deployer.py:266-279 | when every list answers, this labelling only reads and fails only on an empty node list |
| Roles.MetadataRun | quobyte-k8s-deployer.py:254-259 | the DaemonSet, then `label_node` for every configured node with `quobyte_metadata` |
| Roles.RoleNodesRun | quobyte-k8s-deployer.py:266-279 | the node selection of the data and client steps: IndexError on an empty list, the full node list for `all`, the configured nodes otherwise |
| Roles.DataRun | quobyte-k8s-deployer.py:262-279 | the DaemonSet, then the node selection with `quobyte_data` for `all` and `quobyte_metadata` for a configured list |
| Roles.ClientRun | quobyte-k8s-deployer.py:282-299 | the DaemonSet, then the node selection with `quobyte_client` |
| Roles.MetadataContract | quobyte-k8s-deployer.py:254-259 | the metadata step labels the configured nodes with `quobyte_metadata`, with `all` taken as a node name |
| Roles.DataListedNodesGetMetadataLabel | quobyte-k8s-deployer.py:278-279 | the data step labels a configured list (not starting with `all`) with `quobyte_metadata`, as written |
| Roles.RolesAnswered | quobyte-k8s-deployer.py:254-299 | when every list answers, the metadata, data and client steps only read; only data and client fail, and only on an empty node list |
| Roles.LabelRoleNodes | quobyte-k8s-deployer.py:266-279 | the node selection of `deploy_data`/`deploy_client` issues exactly the calls `RoleNodesRun` gives |
| Roles.DeployMetadata | quobyte-k8s-deployer.py:254-259 | `deploy_metadata` issues exactly the calls `MetadataRun` gives |
| Roles.DeployData | quobyte-k8s-deployer.py:262-279 | `deploy_data` issues exactly the calls `DataRun` gives |
| Roles.DeployClient | quobyte-k8s-deployer.py:282-299 | `deploy_client` issues exactly the calls `ClientRun` gives |
| Deployer.StepRun | quobyte-k8s-deployer.py:347-358 | what each step of `main` does: the procedure it calls, with the configuration it passes |
| Deployer.DeployRun | quobyte-k8s-deployer.py:347-358 | the steps of `main` in order (namespace, config map, the three services, the registry DaemonSet, registries, webconsole, metadata, data, client, management pod), stopping at the first that fails |
| Deployer.TraceShape | quobyte-k8s-deployer.py:347-358 | the run's calls are those of the steps it reached, in order. Every reached step but the last succeeded. The run succeeds exactly when every step succeeded; otherwise it fails as its last step did |
| Deployer.TraceSteps | quobyte-k8s-deployer.py:347-358 | step `i` starts from exactly the calls of the steps before it |
| Deployer.StepFailures | quobyte-k8s-deployer.py:347-358 | only the registries step fails with no bootstrap node or a registry timeout, and only the webconsole step with a webconsole timeout; any other failure is a crash |
| Deployer.DeployFailures | quobyte-k8s-deployer.py:347-358 | a failed deployment stopped at the step its failure names, after every earlier step succeeded, in `main`'s order |
| Deployer.StepAnswered | quobyte-k8s-deployer.py:347-358 | when every list answers, each step only reads |
| Deployer.DeployAnswered | quobyte-k8s-deployer.py:347-358 | re-running over a cluster where every list answers issues only lists and leaves every object as it was. It can then fail only at the registries step or on an empty data or client node list |
| Deployer.TakeStep | quobyte-k8s-deployer.py:347-358 | each step of `main` calls its procedure |
| Deployer.RunStep | quobyte-k8s-deployer.py:347-358 | taking step `k` extends the run by that step's calls; a failure or the last step ends the deployment |
| Deployer.Deploy | quobyte-k8s-deployer.py:337-358 | `main` issues exactly the calls `DeployRun` gives (the steps in order, stopping at the first failure) and ends as it says |

## Left out

- The Kubernetes client (`CoreV1Api`, `ExtensionsV1beta1Api`, `config.load_kube_config`) is not modelled: every call becomes a logged request whose reply an arbitrary oracle chooses.
- Reading and parsing files (`load_body`, `load_config`, YAML) and `argparse` are left out. The configuration and the manifest files are given values (`Settings.Config`, `Settings.Files`).
- The ValueError that `load_body` raises on an empty file is not modelled.
- `print`, the log messages and `time.sleep(15)` are not modelled: the wait counts attempts, not time.
- `validate_config` is an empty stub and is not modelled.
- KeyError is not modelled. For a manifest missing a key that `set_version_in_spec` indexes, the precondition `WellShaped` stands in. A node entry always has its `node`, and a missing role key in the configuration reads as an empty list.
- Manifests carry only the fields the deployer reads or writes: kind, name, labels, the pod template and the containers' names and images.
- Listed objects carry only their name, phase, container statuses and declared containers. `items` is always a list (the `items is not None` test is always true), and a pod's `status` is always present.
- The store keys each kind of object by name alone, without its namespace. Node labels exist only for nodes already in the store.
- Exceptions other than the ones named above are not modelled, for example a KeyError on a malformed reply.
- Deploy: takes the steps of `Plan` (the list of `main`'s calls, with the three `create_svc` calls of its loop) in one loop rather than as straight-line calls. The order, the calls and the stop at the first exception that escapes are the same.
- Resource-limit injection, mount options, disk-list injection, default-role fallback and exponential backoff have no code in the deployer and are not modelled.
