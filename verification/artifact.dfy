/** The artifact a successful Linode build returns (builder/linode/artifact.go):
    a handle on the created image plus the build's generated data. */
module LinodeArtifact {
  import opened Wrappers
  import opened Multistep
  import Api

  /** The builder's identity tag (declared in builder/linode/builder.go, which
      is not part of this model). */
  const BuilderId: string := "packer.linode"
  /** The SDK's well-known state name that requests registry metadata. */
  const RegistryStateUri: string := "par.artifact.metadata"
  const Provider: string := "linode"

  /** `stateData` is `None` when the map is nil. The API client handle is
      not modelled: `Destroy` reports the call it makes instead. */
  datatype Artifact = Artifact(imageId: string, imageLabel: string, stateData: Option<map<string, Value>>)

  /** The registry record built from an artifact. */
  datatype RegistryImage = RegistryImage(
    imageId: string,
    providerName: string,
    providerRegion: string,
    sourceImageId: string,
    labels: map<string, string>)

  /** What `State` returns: nil, a generated-data value, or the registry record. */
  datatype StateValue = Nil | Data(value: Value) | Registry(image: RegistryImage)

  function Id(a: Artifact): (r: string)
    ensures r == a.imageId
  {
    a.imageId
  }

  /** The artifact lists no local files (a nil slice). */
  function Files(a: Artifact): (r: Option<seq<string>>)
    ensures r.None?
  {
    None
  }

  function BuilderIdOf(a: Artifact): (r: string)
    ensures r == BuilderId
  {
    BuilderId
  }

  /** The description shows the label and the ID, and both can be read back
      from it at fixed positions. */
  function Describe(a: Artifact): (s: string)
    ensures |s| == 14 + |a.imageLabel| + 2 + |a.imageId| + 1
    ensures s[..14] == "Linode image: "
    ensures s[14..14 + |a.imageLabel|] == a.imageLabel
    ensures s[14 + |a.imageLabel|..16 + |a.imageLabel|] == " ("
    ensures s[16 + |a.imageLabel|..16 + |a.imageLabel| + |a.imageId|] == a.imageId
    ensures s[|s| - 1] == ')'
  {
    var s := "Linode image: " + a.imageLabel + " (" + a.imageId + ")";
    assert s == "Linode image: " + (a.imageLabel + (" (" + (a.imageId + ")")));
    s
  }

  /** A generated-data entry read with a string type assertion: `None` when
      the map is nil, the key is absent or the value is not a string. */
  function StringData(a: Artifact, key: string): (r: Option<string>)
    ensures r.Some? <==> a.stateData.Some? && key in a.stateData.value && a.stateData.value[key].Text?
    ensures r.Some? ==> r.value == a.stateData.value[key].text
  {
    if a.stateData.Some? && key in a.stateData.value && a.stateData.value[key].Text?
    then Some(a.stateData.value[key].text)
    else None
  }

  /** The three keys copied into registry labels. */
  predicate LabelKey(k: string) {
    k == "source_image" || k == "region" || k == "linode_type"
  }

  /** Labels hold each of the three keys exactly when the generated data
      holds a string under it, with that string, and no other key. */
  function RegistryLabels(a: Artifact): (labels: map<string, string>)
    ensures forall k :: k in labels <==> LabelKey(k) && StringData(a, k).Some?
    ensures forall k :: k in labels ==> labels[k] == StringData(a, k).value
  {
    var l0: map<string, string> := map[];
    var l1 := if StringData(a, "source_image").Some? then l0["source_image" := StringData(a, "source_image").value] else l0;
    var l2 := if StringData(a, "region").Some? then l1["region" := StringData(a, "region").value] else l1;
    if StringData(a, "linode_type").Some? then l2["linode_type" := StringData(a, "linode_type").value] else l2
  }

  /** The registry record: provider "linode", the image ID, the source image
      and region read as strings (empty when absent), and the labels above.
      `fromArtifactFails` is the outcome of the SDK's record construction,
      on whose failure the value is nil. */
  function RegistryMetadata(a: Artifact, fromArtifactFails: bool): (r: Option<RegistryImage>)
    ensures r.None? <==> fromArtifactFails
    ensures r.Some? ==>
      (&& r.value.labels == RegistryLabels(a) && r.value.imageId == a.imageId
       && r.value.providerName == Provider
       && r.value.sourceImageId == StringData(a, "source_image").GetOr("")
       && r.value.providerRegion == StringData(a, "region").GetOr(""))
  {
    if fromArtifactFails then None
    else Some(RegistryImage(
      a.imageId, Provider,
      StringData(a, "region").GetOr(""),
      StringData(a, "source_image").GetOr(""),
      RegistryLabels(a)))
  }

  /** The well-known name yields the registry record; any other name yields
      the generated-data value, nil when the map is nil or lacks the key. */
  function State(a: Artifact, name: string, fromArtifactFails: bool): (r: StateValue)
    ensures name == RegistryStateUri && !fromArtifactFails ==> r.Registry? && r.image == RegistryMetadata(a, false).value
    ensures name == RegistryStateUri && fromArtifactFails ==> r.Nil?
    ensures name != RegistryStateUri ==>
      (r.Nil? <==> a.stateData.None? || name !in a.stateData.value)
    ensures name != RegistryStateUri && r.Data? ==> r.value == a.stateData.value[name]
    ensures name != RegistryStateUri ==> !r.Registry?
  {
    if name == RegistryStateUri then
      match RegistryMetadata(a, fromArtifactFails)
      case None => Nil
      case Some(img) => Registry(img)
    else if a.stateData.Some? && name in a.stateData.value then Data(a.stateData.value[name])
    else Nil
  }

  /** Destroying the artifact deletes its image once and returns the
      delete's outcome. */
  function Destroy(a: Artifact, deleteError: Option<string>): (r: (seq<Api.Call>, Option<string>))
    ensures r.0 == [Api.DeleteImage(a.imageId)] && r.1 == deleteError
  {
    ([Api.DeleteImage(a.imageId)], deleteError)
  }
}
