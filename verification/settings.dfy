/**
 * The deployer's configuration and the manifest files it loads, as given values
 * (reading and parsing them is outside the model), and the node-label keys it uses.
 */
module Settings {
  import opened Manifests
  import JsonPatch

  /**
   * An entry of a role's node list: `{node: <name>}`, possibly with a `bootstrap`
   * key. Only the presence of that key matters, not its value.
   */
  datatype NodeEntry = NodeEntry(node: string, hasBootstrap: bool)

  function NodeNames(es: seq<NodeEntry>): (r: seq<string>)
    ensures |r| == |es| && forall i :: 0 <= i < |es| ==> r[i] == es[i].node
  {
    seq(|es|, i requires 0 <= i < |es| => es[i].node)
  }

  /** The configuration file; a role key that is missing reads as an empty list. */
  datatype Config = Config(version: string, namespace: string,
                           registry: seq<NodeEntry>, metadata: seq<NodeEntry>,
                           data: seq<NodeEntry>, client: seq<NodeEntry>)

  /** The manifest files under the configured path, as loaded. */
  datatype Files = Files(configMap: Manifest, services: map<string, Manifest>,
                         registryDs: Manifest, metadataDs: Manifest, dataDs: Manifest, clientDs: Manifest,
                         webconsole: Manifest, qmgmtPod: Manifest)

  /** The services `main` creates, in its order. */
  const ServiceNames: seq<string> := ["registry", "webconsole", "api"]

  /**
   * Every file the deployer loads exists, and every template it versions has the
   * keys `set_version_in_spec` indexes.
   */
  predicate Loadable(f: Files) {
    && (forall n :: n in ServiceNames ==> n in f.services)
    && WellShaped(f.registryDs) && WellShaped(f.metadataDs) && WellShaped(f.dataDs)
    && WellShaped(f.clientDs) && WellShaped(f.webconsole) && WellShaped(f.qmgmtPod)
  }

  const RegistryKey: string := "quobyte_registry"
  const MetadataKey: string := "quobyte_metadata"
  const DataKey: string := "quobyte_data"
  const ClientKey: string := "quobyte_client"
  /** Every role label is set to this value. */
  const LabelValue: string := "true"
  /** The node-list sentinel standing for every node of the cluster. */
  const AllNodes: string := "all"

  /** The label keys need no JSON Pointer escaping, so the unescaped paths name them exactly. */
  lemma KeysArePlain()
    ensures JsonPatch.Plain(RegistryKey) && JsonPatch.Plain(MetadataKey)
    ensures JsonPatch.Plain(DataKey) && JsonPatch.Plain(ClientKey)
  {
  }
}
