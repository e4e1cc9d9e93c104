/** `Artifact`: the custom image a build produced, as the rest of the tool
    sees it, and the labels it hands to the image registry. */
module OciArtifact {
  import opened Common
  import opened OciCore
  import opened Strings
  import opened Driver

  /** `image.ArtifactStateURI`, the state name reserved for registry
      metadata. */
  const ArtifactStateURI := "par.artifact.metadata"

  /** The label keys the registry metadata can carry. */
  const LabelKeys: set<string> := {"billable_size_in_gbs", "compartment_id", "launch_mode",
                                   "operating_system", "operating_system_version"}

  /** The label under `key`, when the image field behind it is set: a
      non-nil pointer, or a non-empty launch mode. The billable size is
      written in base 10. */
  function Label(img: Image, key: string): Option<string>
  {
    if key == "billable_size_in_gbs" then
      if img.BillableSizeInGBs.Some? then Some(FormatDecimal(img.BillableSizeInGBs.value as int)) else None
    else if key == "compartment_id" then img.CompartmentId
    else if key == "launch_mode" then
      if img.LaunchMode != "" then Some(img.LaunchMode) else None
    else if key == "operating_system" then img.OperatingSystem
    else if key == "operating_system_version" then img.OperatingSystemVersion
    else None
  }

  /** The labels among `keys` whose fields are set. */
  function LabelsOver(img: Image, keys: set<string>): (labels: map<string, string>)
    ensures labels.Keys <= keys
  {
    map k | k in keys && Label(img, k).Some? :: Label(img, k).value
  }

  /** The labels of the registry metadata: every label whose field is set. */
  function RegistryLabels(img: Image): (labels: map<string, string>)
    ensures labels.Keys <= LabelKeys
  {
    LabelsOver(img, LabelKeys)
  }

  /** Considering one more key adds its label when its field is set. */
  lemma LabelsOverAdd(img: Image, keys: set<string>, key: string)
    ensures LabelsOver(img, keys + {key}) ==
      if Label(img, key).Some? then LabelsOver(img, keys)[key := Label(img, key).value] else LabelsOver(img, keys)
  {
  }

  /** `labels[key] = value` when there is a value. */
  method PutLabel(labels: map<string, string>, key: string, value: Option<string>) returns (r: map<string, string>)
    ensures r == if value.Some? then labels[key := value.value] else labels
  {
    r := labels;
    if value.Some? {
      r := r[key := value.value];
    }
  }

  /** What the artifact passes to the registry: its region, the image it was
      built from, and the labels. */
  datatype RegistryMetadata = RegistryMetadata(region: string, sourceImageID: string, labels: map<string, string>)

  /** What `State` yields: nil, a value of the state data, or the registry
      metadata. */
  datatype StateResult = Nil | Data(value: string) | Registry(metadata: RegistryMetadata)

  /** `Artifact`. A nil `StateData` map reads like an empty one. */
  datatype Artifact = Artifact(Image: Image, Region: string, driver: DriverMock?, StateData: map<string, string>)
  {
    /** `Files`: the image lives in the cloud, so there are none. */
    function Files(): (files: seq<string>)
      ensures files == []
    {
      []
    }

    /** `Id`: the image's identifier, which must be set. */
    function Id(): (id: string)
      requires Image.Id.Some?
      ensures Some(id) == Image.Id
    {
      Image.Id.value
    }

    /** The display name `String` shows: empty when there is none. */
    function DisplayName(): (name: string)
      ensures Image.DisplayName.None? ==> name == ""
      ensures Image.DisplayName.Some? ==> name == Image.DisplayName.value
    {
      if Image.DisplayName.Some? then Image.DisplayName.value else ""
    }

    /** `String`: a sentence naming the image, its identifier and its region. */
    function String(): (s: string)
      requires Image.Id.Some?
      ensures var opening := "An image was created: '";
        |s| >= |opening| && s[..|opening|] == opening
      ensures var closing := "' (OCID: " + Id() + ") in region '" + Region + "'";
        |s| >= |closing| && s[|s| - |closing|..] == closing
    {
      "An image was created: '" + DisplayName() + "' (OCID: " + Id() + ") in region '" + Region + "'"
    }

    /** `State`: the reserved name yields the registry metadata, whose source
        image must then be set; any other name is looked up in the state
        data. */
    function State(name: string): (r: StateResult)
      requires name == ArtifactStateURI ==> Image.BaseImageId.Some?
      ensures name == ArtifactStateURI ==>
        r.Registry? && r.metadata.region == Region && r.metadata.sourceImageID == Image.BaseImageId.value
      ensures name != ArtifactStateURI ==> (r.Data? <==> name in StateData) && (r.Data? || r.Nil?)
      ensures r.Data? ==> r.value == StateData[name]
    {
      if name == ArtifactStateURI then
        Registry(RegistryMetadata(Region, Image.BaseImageId.value, RegistryLabels(Image)))
      else if name in StateData then Data(StateData[name])
      else Nil
    }

    /** `Destroy`: deletes the image through the driver. */
    method Destroy() returns (err: Option<Error>)
      requires driver != null && Image.Id.Some?
      modifies driver`DeleteImageID, driver`Calls
      ensures err == old(driver.DeleteImageErr)
      ensures driver.Calls == old(driver.Calls) + [DeleteImageCall(Id())]
      ensures driver.DeleteImageID == if err.Some? then old(driver.DeleteImageID) else Id()
    {
      err := driver.DeleteImage(Image.Id.value);
    }

    /** The registry metadata `buildHCPackerRegistryMetadata` passes on, the
        labels inserted one after the other. */
    method BuildRegistryMetadata() returns (m: RegistryMetadata)
      requires Image.BaseImageId.Some?
      ensures m == State(ArtifactStateURI).metadata
    {
      var labels: map<string, string> := map[];
      ghost var keys: set<string> := {};
      assert labels == LabelsOver(Image, keys);
      labels := PutLabel(labels, "billable_size_in_gbs",
        if Image.BillableSizeInGBs.Some? then Some(FormatDecimal(Image.BillableSizeInGBs.value as int)) else None);
      LabelsOverAdd(Image, keys, "billable_size_in_gbs");
      keys := keys + {"billable_size_in_gbs"};
      labels := PutLabel(labels, "compartment_id", Image.CompartmentId);
      LabelsOverAdd(Image, keys, "compartment_id");
      keys := keys + {"compartment_id"};
      labels := PutLabel(labels, "launch_mode", if Image.LaunchMode != "" then Some(Image.LaunchMode) else None);
      LabelsOverAdd(Image, keys, "launch_mode");
      keys := keys + {"launch_mode"};
      labels := PutLabel(labels, "operating_system", Image.OperatingSystem);
      LabelsOverAdd(Image, keys, "operating_system");
      keys := keys + {"operating_system"};
      labels := PutLabel(labels, "operating_system_version", Image.OperatingSystemVersion);
      LabelsOverAdd(Image, keys, "operating_system_version");
      keys := keys + {"operating_system_version"};
      assert keys == LabelKeys;
      m := RegistryMetadata(Region, Image.BaseImageId.value, labels);
    }
  }

  /** Each label is present exactly when its field is set, and carries the
      field's value; the billable size reads back as the number it renders. */
  lemma RegistryLabelsSpec(img: Image)
    ensures var labels := RegistryLabels(img);
      && ("billable_size_in_gbs" in labels <==> img.BillableSizeInGBs.Some?)
      && ("compartment_id" in labels <==> img.CompartmentId.Some?)
      && ("launch_mode" in labels <==> img.LaunchMode != "")
      && ("operating_system" in labels <==> img.OperatingSystem.Some?)
      && ("operating_system_version" in labels <==> img.OperatingSystemVersion.Some?)
      && ("billable_size_in_gbs" in labels ==>
            ParseDecimal(labels["billable_size_in_gbs"]) == Some(img.BillableSizeInGBs.value as int))
      && ("compartment_id" in labels ==> labels["compartment_id"] == img.CompartmentId.value)
      && ("launch_mode" in labels ==> labels["launch_mode"] == img.LaunchMode)
      && ("operating_system" in labels ==> labels["operating_system"] == img.OperatingSystem.value)
      && ("operating_system_version" in labels ==>
            labels["operating_system_version"] == img.OperatingSystemVersion.value)
  {
    if img.BillableSizeInGBs.Some? {
      FormatDecimalRoundTrip(img.BillableSizeInGBs.value as int);
    }
  }

  /** The registry labels of the image in the registry-metadata test. */
  lemma RegistryLabelsExample()
    ensures RegistryLabels(Image(Some("ocid1.image.oc1.phx.aaa"), None, Some("ocid1.compartment.oc1..aaa"),
        "PARAVIRTUALIZED", Some("Oracle Linux"), Some("7.2"), Some("ocid1.image.oc1.phx.aaabase"), Some(10)))
      == map["billable_size_in_gbs" := "10", "compartment_id" := "ocid1.compartment.oc1..aaa",
             "launch_mode" := "PARAVIRTUALIZED", "operating_system" := "Oracle Linux",
             "operating_system_version" := "7.2"]
  {
    assert Digits(1) == "1";
    assert Digits(10) == "10";
  }

  /** Any name but the reserved one is an ordinary lookup, nil when the state
      data lacks it. */
  lemma StateLookup(a: Artifact, name: string)
    requires name != ArtifactStateURI
    ensures name in a.StateData ==> a.State(name) == Data(a.StateData[name])
    ensures name !in a.StateData ==> a.State(name).Nil?
  {
  }

  /** The state-data test: a present key yields its value, an absent one and
      an empty map yield nil. */
  lemma StateDataExample()
    ensures var a := Artifact(ZeroImage, "", null, map["state_data" := "this is the data"]);
      a.State("state_data") == Data("this is the data") && a.State("invalid_key") == Nil
    ensures Artifact(ZeroImage, "", null, map[]).State("key") == Nil
  {
  }

  /** `String` names the display name, or nothing for a missing one, then
      the identifier and the region. */
  lemma StringEmbeds(a: Artifact)
    requires a.Image.Id.Some?
    ensures var s := a.String();
      var head := "An image was created: '" + a.DisplayName() + "' (OCID: ";
      var tail := ") in region '" + a.Region + "'";
      && |s| == |head| + |a.Id()| + |tail|
      && s[..|head|] == head
      && s[|head|..|head| + |a.Id()|] == a.Id()
      && s[|head| + |a.Id()|..] == tail
  {
  }

  /** A missing display name reads as an empty one. */
  lemma StringNilDisplayName(a: Artifact)
    requires a.Image.Id.Some? && a.Image.DisplayName.None?
    ensures a.String() == a.(Image := a.Image.(DisplayName := Some(""))).String()
  {
  }
}
