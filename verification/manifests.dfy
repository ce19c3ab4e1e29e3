/**
 * Manifest documents as far as the deployer looks into them, and the version
 * substitution `set_version_in_spec` performs on them before they are submitted.
 */
module Manifests {
  import Text

  datatype Container = Container(name: string, image: string)

  /** The pod template of a workload: its `metadata.labels` and `spec.containers`. */
  datatype PodTemplate = PodTemplate(labels: map<string, string>, containers: seq<Container>)

  /**
   * The `spec` of a document: a bare Pod's `spec.containers`, a workload's
   * `spec.template`, or something the deployer never looks into.
   */
  datatype Spec = OtherSpec | PodSpec(containers: seq<Container>) | WorkloadSpec(template: PodTemplate)

  /** A document: `kind`, `metadata.name`, `metadata.labels` and `spec`. */
  datatype Manifest = Manifest(kind: string, name: string, labels: map<string, string>, spec: Spec)

  const VersionKey: string := "version"

  predicate IsWorkload(kind: string) {
    kind == "Deployment" || kind == "DaemonSet"
  }

  /** The kinds whose version label and images carry the release version. */
  predicate Versioned(kind: string) {
    IsWorkload(kind) || kind == "Pod"
  }

  /**
   * The keys `set_version_in_spec` indexes are present for the kind at hand
   * (a document missing one of them makes the deployer raise KeyError).
   */
  predicate WellShaped(m: Manifest) {
    && (IsWorkload(m.kind) ==> m.spec.WorkloadSpec? && VersionKey in m.spec.template.labels)
    && (m.kind == "Pod" ==> m.spec.PodSpec? && VersionKey in m.labels)
  }

  /** The containers whose images carry the version: the template's for a workload, the pod's for a Pod. */
  function Containers(m: Manifest): seq<Container> {
    if IsWorkload(m.kind) && m.spec.WorkloadSpec? then m.spec.template.containers
    else if m.kind == "Pod" && m.spec.PodSpec? then m.spec.containers
    else []
  }

  /** The label map holding the version: the template's for a workload, the document's own for a Pod. */
  function VersionLabels(m: Manifest): map<string, string> {
    if IsWorkload(m.kind) && m.spec.WorkloadSpec? then m.spec.template.labels
    else if m.kind == "Pod" then m.labels
    else map[]
  }

  function Substitute(s: string, version: string): string {
    Text.Replace(s, Text.Token, version)
  }

  function SubstituteImages(cs: seq<Container>, version: string): seq<Container> {
    seq(|cs|, i requires 0 <= i < |cs| => cs[i].(image := Substitute(cs[i].image, version)))
  }

  /** The document `set_version_in_spec(m, version)` leaves behind. */
  function WithVersion(m: Manifest, version: string): Manifest
    requires WellShaped(m)
  {
    if IsWorkload(m.kind) then
      var t := m.spec.template;
      m.(spec := WorkloadSpec(PodTemplate(
        t.labels[VersionKey := Substitute(t.labels[VersionKey], version)],
        SubstituteImages(t.containers, version))))
    else if m.kind == "Pod" then
      m.(labels := m.labels[VersionKey := Substitute(m.labels[VersionKey], version)],
         spec := PodSpec(SubstituteImages(m.spec.containers, version)))
    else m
  }

  /** Replaces the token in every image of `a`, in place, one container at a time. */
  method SubstituteImagesInPlace(a: array<Container>, version: string)
    modifies a
    ensures a[..] == SubstituteImages(old(a[..]), version)
  {
    var i := 0;
    while i < a.Length
      invariant 0 <= i <= a.Length
      invariant forall j :: 0 <= j < i ==> a[j] == old(a[j]).(image := Substitute(old(a[j]).image, version))
      invariant forall j :: i <= j < a.Length ==> a[j] == old(a[j])
    {
      a[i] := a[i].(image := Substitute(a[i].image, version));
      i := i + 1;
    }
  }

  method SubstitutedCopy(cs: seq<Container>, version: string) returns (r: seq<Container>)
    ensures r == SubstituteImages(cs, version)
  {
    var a := new Container[|cs|](i requires 0 <= i < |cs| => cs[i]);
    assert a[..] == cs;
    SubstituteImagesInPlace(a, version);
    r := a[..];
  }

  /**
   * `set_version_in_spec`: in a Deployment or DaemonSet the pod template's version
   * label and every container image get the version in place of the token; in a
   * Pod the document's own version label and its containers do; every other kind
   * is left alone. Nothing else changes: kind, name, the other labels, the number,
   * order and names of the containers.
   */
  method SetVersionInSpec(m: Manifest, version: string) returns (r: Manifest)
    requires WellShaped(m)
    ensures r == WithVersion(m, version)
    ensures r.kind == m.kind && r.name == m.name && WellShaped(r)
    ensures !Versioned(m.kind) ==> r == m
    ensures IsWorkload(m.kind) ==> r.labels == m.labels
    ensures Versioned(m.kind) ==>
      && VersionLabels(r) == VersionLabels(m)[VersionKey := Substitute(VersionLabels(m)[VersionKey], version)]
      && |Containers(r)| == |Containers(m)|
      && forall i :: 0 <= i < |Containers(m)| ==>
           Containers(r)[i].name == Containers(m)[i].name
           && Containers(r)[i].image == Substitute(Containers(m)[i].image, version)
  {
    r := m;
    if IsWorkload(m.kind) {
      var t := m.spec.template;
      var labels := t.labels[VersionKey := Substitute(t.labels[VersionKey], version)];
      var cs := SubstitutedCopy(t.containers, version);
      r := m.(spec := WorkloadSpec(PodTemplate(labels, cs)));
    } else if m.kind == "Pod" {
      var labels := m.labels[VersionKey := Substitute(m.labels[VersionKey], version)];
      var cs := SubstitutedCopy(m.spec.containers, version);
      r := m.(labels := labels, spec := PodSpec(cs));
    }
  }

  /** The fields the substitution touches hold no token. */
  predicate TokenFree(m: Manifest) {
    && (Versioned(m.kind) && VersionKey in VersionLabels(m) ==> Text.Free(VersionLabels(m)[VersionKey], Text.Token))
    && forall i :: 0 <= i < |Containers(m)| ==> Text.Free(Containers(m)[i].image, Text.Token)
  }

  /** A document with no token where the version goes comes back unchanged. */
  lemma WithVersionTokenFree(m: Manifest, version: string)
    requires WellShaped(m) && TokenFree(m)
    ensures WithVersion(m, version) == m
  {
    if Versioned(m.kind) {
      var cs := Containers(m);
      forall i | 0 <= i < |cs|
        ensures SubstituteImages(cs, version)[i] == cs[i]
      {
        Text.ReplaceFree(cs[i].image, Text.Token, version);
      }
      assert SubstituteImages(cs, version) == cs;
      Text.ReplaceFree(VersionLabels(m)[VersionKey], Text.Token, version);
      assert VersionLabels(m)[VersionKey := VersionLabels(m)[VersionKey]] == VersionLabels(m);
    }
  }

  /**
   * For a version that is non-empty and has no character of the token (as `2.10`),
   * the substituted document holds no token any more, so substituting again is a no-op.
   */
  lemma WithVersionIdempotent(m: Manifest, version: string)
    requires WellShaped(m) && version != [] && Text.Disjoint(version, Text.Token)
    ensures WellShaped(WithVersion(m, version))
    ensures TokenFree(WithVersion(m, version))
    ensures WithVersion(WithVersion(m, version), version) == WithVersion(m, version)
  {
    var r := WithVersion(m, version);
    if Versioned(m.kind) {
      Text.ReplaceLeavesNoToken(VersionLabels(m)[VersionKey], Text.Token, version);
      forall i | 0 <= i < |Containers(r)|
        ensures Text.Free(Containers(r)[i].image, Text.Token)
      {
        Text.ReplaceLeavesNoToken(Containers(m)[i].image, Text.Token, version);
      }
    }
    WithVersionTokenFree(r, version);
  }
}
