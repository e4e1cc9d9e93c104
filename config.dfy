/** The builder's configuration (`builder/oci/config.go`) and the part of its
    `Prepare` that checks and fills in the configuration's own fields. */
module OciConfig {
  import opened Common
  import opened Strings

  /** `create_vnic_details`; only the subnet takes part in validation. */
  datatype CreateVNICDetails = CreateVNICDetails(SubnetId: Option<string>)

  /** `base_image_filter`: every field is an optional string. */
  datatype ListImagesRequest = ListImagesRequest(
    CompartmentId: Option<string>,
    DisplayName: Option<string>,
    DisplayNameSearch: Option<string>,
    OperatingSystem: Option<string>,
    OperatingSystemVersion: Option<string>,
    Shape: Option<string>)

  /** The zero `ListImagesRequest{}`: a filter that selects nothing in particular. */
  const EmptyFilter := ListImagesRequest(None, None, None, None, None, None)

  /** `shape_config`. The two floating-point fields are only ever tested for
      nil, so only their presence is kept. */
  datatype FlexShapeConfig = FlexShapeConfig(
    HasOcpus: bool,
    HasMemoryInGBs: bool,
    BaselineOcpuUtilization: Option<string>)

  const MaxTagLength := 100
  const MinDiskSize := 50
  const MaxDiskSize := 16384

  /** The image launch modes and NIC attachment types OCI accepts; the empty
      string leaves the choice to the platform. */
  const LaunchModes: set<string> := {"", "NATIVE", "EMULATED", "PARAVIRTUALIZED", "CUSTOM"}
  const NicAttachmentTypes: set<string> := {"", "VFIO", "E1000", "PARAVIRTUALIZED"}

  /** One error appended to the `MultiError` that `Prepare` returns. */
  datatype ConfigError =
    | PrincipalConflict(key: string)
    | AvailabilityDomainMissing
    | ShapeMissing
    | FlexOcpusMissing
    | MemoryWithoutOcpus
    | BaselineWithoutOcpus
    | SubnetMissing
    | SubnetMismatch
    | BaseImageMissing
    | TagKeyTooLong(length: nat, key: string)
    | TagKeyEmpty
    | TagValueTooLong(length: nat, key: string)
    | TagValueEmpty
    | UserDataConflict
    | LaunchModeInvalid
    | NicAttachmentTypeInvalid
    | DiskSizeInvalid
  {
    /** The text of the Go error. */
    function Message(): string
    {
      match this
      case PrincipalConflict(key) => key + " cannot be present when use_instance_principals is set to true."
      case AvailabilityDomainMissing => "'availability_domain' must be specified"
      case ShapeMissing => "'shape' must be specified"
      case FlexOcpusMissing => "'Ocpus' must be specified when using flexible shapes"
      case MemoryWithoutOcpus => "'Ocpus' must be specified if memory_in_gbs is specified"
      case BaselineWithoutOcpus => "'Ocpus' must be specified if baseline_ocpu_utilization is specified"
      case SubnetMissing => "'subnet_ocid' must be specified"
      case SubnetMismatch => "'create_vnic_details[subnet]' must match 'subnet_ocid' if both are specified"
      case BaseImageMissing => "'base_image_ocid' or 'base_image_filter' must be specified"
      case TagKeyTooLong(n, k) =>
        "Tag key length too long. Maximum 100 but found " + FormatDecimal(n) + ". Key: " + k
      case TagKeyEmpty => "Tag key empty in config"
      case TagValueTooLong(n, k) =>
        "Tag value length too long. Maximum 100 but found " + FormatDecimal(n) + ". Key: " + k
      case TagValueEmpty => "Tag value empty in config"
      case UserDataConflict => "Only one of user_data or user_data_file can be specified."
      case LaunchModeInvalid => "LaunchMode must be one of NATIVE, EMULATED, PARAVIRTUALIZED, or CUSTOM"
      case NicAttachmentTypeInvalid => "NicAttachmentType must be one of VFIO, E1000, or PARAVIRTUALIZED"
      case DiskSizeInvalid => "'disk_size' must be between 50 and 16384 GBs"
    }
  }

  // ----- instance principals ------------------------------------------------

  /** The conflict one setting contributes: none when it is empty. */
  function ConflictOf(setting: (string, string)): seq<ConfigError>
  {
    if setting.1 != "" then [PrincipalConflict(setting.0)] else []
  }

  /** One conflict error for every non-empty setting, in the given order. */
  function Conflicts(settings: seq<(string, string)>): (r: seq<ConfigError>)
    ensures |r| <= |settings|
    decreases |settings|
  {
    if settings == [] then []
    else
      Conflicts(settings[..|settings| - 1]) + ConflictOf(settings[|settings| - 1])
  }

  /** The number of non-empty settings. */
  function NonEmptyCount(settings: seq<(string, string)>): nat
    decreases |settings|
  {
    if settings == [] then 0
    else NonEmptyCount(settings[..|settings| - 1]) + (if settings[|settings| - 1].1 != "" then 1 else 0)
  }

  predicate DistinctKeys(settings: seq<(string, string)>)
  {
    forall i, j :: 0 <= i < j < |settings| ==> settings[i].0 != settings[j].0
  }

  /** Eight settings, checked one after the other. */
  lemma ConflictsOfEight(s: seq<(string, string)>)
    requires |s| == 8
    ensures Conflicts(s) == Conflicts([]) + ConflictOf(s[0]) + ConflictOf(s[1]) + ConflictOf(s[2]) + ConflictOf(s[3])
      + ConflictOf(s[4]) + ConflictOf(s[5]) + ConflictOf(s[6]) + ConflictOf(s[7])
  {
    assert Conflicts(s[..1]) == Conflicts([]) + ConflictOf(s[0]) by { assert s[..1][..0] == []; }
    assert Conflicts(s[..2]) == Conflicts(s[..1]) + ConflictOf(s[1]) by { assert s[..2][..1] == s[..1]; }
    assert Conflicts(s[..3]) == Conflicts(s[..2]) + ConflictOf(s[2]) by { assert s[..3][..2] == s[..2]; }
    assert Conflicts(s[..4]) == Conflicts(s[..3]) + ConflictOf(s[3]) by { assert s[..4][..3] == s[..3]; }
    assert Conflicts(s[..5]) == Conflicts(s[..4]) + ConflictOf(s[4]) by { assert s[..5][..4] == s[..4]; }
    assert Conflicts(s[..6]) == Conflicts(s[..5]) + ConflictOf(s[5]) by { assert s[..6][..5] == s[..5]; }
    assert Conflicts(s[..7]) == Conflicts(s[..6]) + ConflictOf(s[6]) by { assert s[..7][..6] == s[..6]; }
    assert Conflicts(s[..8]) == Conflicts(s[..7]) + ConflictOf(s[7]) by { assert s[..8][..7] == s[..7]; }
    assert s[..8] == s;
  }

  /** As many errors as non-empty settings. */
  lemma {:induction false} ConflictsCount(settings: seq<(string, string)>)
    ensures |Conflicts(settings)| == NonEmptyCount(settings)
    decreases |settings|
  {
    if settings != [] {
      ConflictsCount(settings[..|settings| - 1]);
    }
  }

  /** A non-empty setting is reported under its own key. */
  lemma {:induction false} ConflictsReport(settings: seq<(string, string)>, i: nat)
    requires i < |settings| && settings[i].1 != ""
    ensures PrincipalConflict(settings[i].0) in Conflicts(settings)
    decreases |settings|
  {
    var n := |settings| - 1;
    if i < n {
      ConflictsReport(settings[..n], i);
    }
  }

  /** Only keys of non-empty settings are reported. */
  lemma {:induction false} ConflictsOnlyNonEmpty(settings: seq<(string, string)>, e: ConfigError)
    requires e in Conflicts(settings)
    ensures exists i :: 0 <= i < |settings| && settings[i].1 != "" && e == PrincipalConflict(settings[i].0)
    decreases |settings|
  {
    var n := |settings| - 1;
    var init := settings[..n];
    if e in Conflicts(init) {
      ConflictsOnlyNonEmpty(init, e);
      var i :| 0 <= i < |init| && init[i].1 != "" && e == PrincipalConflict(init[i].0);
      assert settings[i] == init[i];
    } else {
      assert settings[n].1 != "" && e == PrincipalConflict(settings[n].0);
    }
  }

  /** A key whose settings are all empty is never reported. */
  lemma {:induction false} ConflictsOmitKey(settings: seq<(string, string)>, key: string)
    requires forall j :: 0 <= j < |settings| && settings[j].0 == key ==> settings[j].1 == ""
    ensures PrincipalConflict(key) !in Conflicts(settings)
    decreases |settings|
  {
    if settings != [] {
      var n := |settings| - 1;
      var init := settings[..n];
      forall j | 0 <= j < |init| && init[j].0 == key ensures init[j].1 == "" {
        assert init[j] == settings[j];
      }
      ConflictsOmitKey(init, key);
    }
  }

  /** With distinct keys, an empty setting is never reported. */
  lemma ConflictsSkipEmpty(settings: seq<(string, string)>, i: nat)
    requires DistinctKeys(settings)
    requires i < |settings| && settings[i].1 == ""
    ensures PrincipalConflict(settings[i].0) !in Conflicts(settings)
  {
    forall j | 0 <= j < |settings| && settings[j].0 == settings[i].0 ensures settings[j].1 == "" {
      assert j == i;
    }
    ConflictsOmitKey(settings, settings[i].0);
  }

  /** No error at all exactly when every setting is empty. */
  lemma ConflictsEmptyIff(settings: seq<(string, string)>)
    ensures Conflicts(settings) == [] <==> forall i :: 0 <= i < |settings| ==> settings[i].1 == ""
  {
    if Conflicts(settings) == [] {
      forall i | 0 <= i < |settings| ensures settings[i].1 == "" {
        if settings[i].1 != "" {
          ConflictsReport(settings, i);
        }
      }
    } else {
      ConflictsOnlyNonEmpty(settings, Conflicts(settings)[0]);
    }
  }

  /** One credential check: a non-empty setting adds a conflict under its key. */
  method FlagConflict(errs: seq<ConfigError>, key: string, value: string) returns (r: seq<ConfigError>)
    ensures r == errs + ConflictOf((key, value))
  {
    r := errs;
    if value != "" {
      r := r + [PrincipalConflict(key)];
    }
  }

  // ----- shape, networking, base image -------------------------------------

  /** `strings.HasSuffix`. */
  predicate HasSuffix(s: string, suffix: string)
  {
    |suffix| <= |s| && s[|s| - |suffix|..] == suffix
  }

  /** The shape checks: a shape is required, and a flexible shape, a memory
      size or a baseline utilisation each need the OCPU count. */
  predicate ShapeRules(shape: string, sc: FlexShapeConfig)
  {
    && shape != ""
    && (HasSuffix(shape, "Flex") ==> sc.HasOcpus)
    && (sc.HasMemoryInGBs ==> sc.HasOcpus)
    && (sc.BaselineOcpuUtilization.Some? ==> sc.HasOcpus)
  }

  function ShapeErrors(shape: string, sc: FlexShapeConfig): (r: seq<ConfigError>)
    ensures r == [] <==> ShapeRules(shape, sc)
  {
    (if shape == "" then [ShapeMissing] else [])
    + (if HasSuffix(shape, "Flex") && !sc.HasOcpus then [FlexOcpusMissing] else [])
    + (if sc.HasMemoryInGBs && !sc.HasOcpus then [MemoryWithoutOcpus] else [])
    + (if sc.BaselineOcpuUtilization.Some? && !sc.HasOcpus then [BaselineWithoutOcpus] else [])
  }

  /** Each shape error is reported exactly when its own rule is broken. */
  lemma ShapeErrorsExact(shape: string, sc: FlexShapeConfig)
    ensures ShapeMissing in ShapeErrors(shape, sc) <==> shape == ""
    ensures FlexOcpusMissing in ShapeErrors(shape, sc) <==> HasSuffix(shape, "Flex") && !sc.HasOcpus
    ensures MemoryWithoutOcpus in ShapeErrors(shape, sc) <==> sc.HasMemoryInGBs && !sc.HasOcpus
    ensures BaselineWithoutOcpus in ShapeErrors(shape, sc) <==> sc.BaselineOcpuUtilization.Some? && !sc.HasOcpus
  {
  }

  /** The subnet checks: at least one of `subnet_ocid` and the VNIC subnet is
      given, and when both are they agree. */
  predicate SubnetRules(subnetID: string, vnic: CreateVNICDetails)
  {
    && (subnetID != "" || vnic.SubnetId.Some?)
    && (vnic.SubnetId.Some? && subnetID != "" ==> vnic.SubnetId.value == subnetID)
  }

  function SubnetErrors(subnetID: string, vnic: CreateVNICDetails): (r: seq<ConfigError>)
    ensures r == [] <==> SubnetRules(subnetID, vnic)
  {
    (if subnetID == "" && vnic.SubnetId.None? then [SubnetMissing] else [])
    + (if vnic.SubnetId.Some? && vnic.SubnetId.value != subnetID && subnetID != "" then [SubnetMismatch] else [])
  }

  /** Each subnet error is reported exactly when its own rule is broken. */
  lemma SubnetErrorsExact(subnetID: string, vnic: CreateVNICDetails)
    ensures SubnetMissing in SubnetErrors(subnetID, vnic) <==> subnetID == "" && vnic.SubnetId.None?
    ensures SubnetMismatch in SubnetErrors(subnetID, vnic) <==>
      vnic.SubnetId.Some? && subnetID != "" && vnic.SubnetId.value != subnetID
  {
  }

  /** A base image is named by its OCID or selected by a non-empty filter. */
  function BaseImageErrors(baseImageID: string, filter: ListImagesRequest): (r: seq<ConfigError>)
    ensures r == [] <==> baseImageID != "" || filter != EmptyFilter
    ensures r != [] ==> r == [BaseImageMissing]
  {
    if baseImageID == "" && filter == ListImagesRequest(None, None, None, None, None, None) then [BaseImageMissing] else []
  }

  // ----- tags -----------------------------------------------------------------

  /** A tag is accepted when its trimmed key and trimmed value each take 1 to
      100 bytes. */
  predicate ValidTag(key: string, value: string)
  {
    1 <= Utf8Len(TrimSpace(key)) <= MaxTagLength && 1 <= Utf8Len(TrimSpace(value)) <= MaxTagLength
  }

  /** The errors one tag contributes, in the order the checks run. */
  function TagErrors(key: string, value: string): (r: seq<ConfigError>)
    ensures r == [] <==> ValidTag(key, value)
  {
    var k := TrimSpace(key);
    var v := TrimSpace(value);
    (if Utf8Len(k) > MaxTagLength then [TagKeyTooLong(Utf8Len(k), k)] else [])
    + (if Utf8Len(k) == 0 then [TagKeyEmpty] else [])
    + (if Utf8Len(v) > MaxTagLength then [TagValueTooLong(Utf8Len(v), k)] else [])
    + (if Utf8Len(v) == 0 then [TagValueEmpty] else [])
  }

  /** `order` lists the keys of `keys` once each: one possible iteration
      order of a Go map. */
  ghost predicate IsEnumeration(order: seq<string>, keys: set<string>)
  {
    (forall k :: k in order <==> k in keys)
    && forall i, j :: 0 <= i < j < |order| ==> order[i] != order[j]
  }

  /** What `check` reports for the entries of `m`, visiting the keys in
      `order` (keys that are not in `m` contribute nothing). */
  function Collect<E>(m: map<string, string>, check: (string, string) -> seq<E>, order: seq<string>): seq<E>
    decreases |order|
  {
    if order == [] then []
    else
      var k := order[|order| - 1];
      Collect(m, check, order[..|order| - 1]) + (if k in m then check(k, m[k]) else [])
  }

  lemma {:induction false} CollectAppend<E>(m: map<string, string>, check: (string, string) -> seq<E>, a: seq<string>, b: seq<string>)
    ensures Collect(m, check, a + b) == Collect(m, check, a) + Collect(m, check, b)
    decreases |b|
  {
    if b == [] {
      assert a + b == a;
    } else {
      var n := |b| - 1;
      assert (a + b)[..|a + b| - 1] == a + b[..n];
      assert (a + b)[|a + b| - 1] == b[n];
      CollectAppend(m, check, a, b[..n]);
    }
  }

  lemma {:induction false} CollectEmptyIff<E>(m: map<string, string>, check: (string, string) -> seq<E>, order: seq<string>)
    ensures Collect(m, check, order) == [] <==> forall k :: k in order && k in m ==> check(k, m[k]) == []
    decreases |order|
  {
    if order != [] {
      var n := |order| - 1;
      var init := order[..n];
      assert forall k :: k in order <==> k in init || k == order[n] by {
        assert order == init + [order[n]];
      }
      CollectEmptyIff(m, check, init);
    }
  }

  /** Taking one element out of a sequence takes it out of its multiset. */
  lemma MultisetRemove(o: seq<string>, j: nat)
    requires j < |o|
    ensures multiset(o) == multiset(o[..j] + o[j + 1..]) + multiset{o[j]}
  {
    assert o == o[..j] + [o[j]] + o[j + 1..];
  }

  /** Visiting one key apart from the others contributes the same errors. */
  lemma CollectRemove<E>(m: map<string, string>, check: (string, string) -> seq<E>, o: seq<string>, j: nat)
    requires j < |o|
    ensures multiset(Collect(m, check, o))
      == multiset(Collect(m, check, o[..j] + o[j + 1..])) + multiset(Collect(m, check, [o[j]]))
  {
    assert o == (o[..j] + [o[j]]) + o[j + 1..];
    CollectAppend(m, check, o[..j] + [o[j]], o[j + 1..]);
    CollectAppend(m, check, o[..j], [o[j]]);
    CollectAppend(m, check, o[..j], o[j + 1..]);
  }

  lemma {:induction false} CollectPermuted<E>(m: map<string, string>, check: (string, string) -> seq<E>, o1: seq<string>, o2: seq<string>)
    requires multiset(o1) == multiset(o2)
    ensures multiset(Collect(m, check, o1)) == multiset(Collect(m, check, o2))
    decreases |o1|
  {
    if o1 == [] {
      assert |o2| == |multiset(o2)| == 0;
    } else {
      var n := |o1| - 1;
      var k := o1[n];
      MultisetRemove(o1, n);
      assert o1[..n] + o1[n + 1..] == o1[..n];
      assert k in multiset(o2);
      var j :| 0 <= j < |o2| && o2[j] == k;
      MultisetRemove(o2, j);
      var rest := o2[..j] + o2[j + 1..];
      assert multiset(o1[..n]) == multiset(o1) - multiset{k};
      assert multiset(rest) == multiset(o2) - multiset{k};
      CollectPermuted(m, check, o1[..n], o2[..j] + o2[j + 1..]);
      CollectRemove(m, check, o1, n);
      CollectRemove(m, check, o2, j);
    }
  }

  /** The tag errors when the map's keys are visited in `order`. */
  function TagsErrors(tags: map<string, string>, order: seq<string>): seq<ConfigError>
  {
    Collect(tags, TagErrors, order)
  }

  /** Visiting the keys in any order, no tag error is reported exactly when
      every visited tag is valid. */
  lemma TagsErrorsEmptyIff(tags: map<string, string>, order: seq<string>)
    requires forall k :: k in order ==> k in tags
    ensures TagsErrors(tags, order) == [] <==> forall k :: k in order ==> ValidTag(k, tags[k])
  {
    CollectEmptyIff(tags, TagErrors, order);
  }

  /** Go visits a map in no fixed order; the errors reported are the same
      whatever the order, up to their arrangement. */
  lemma TagsErrorsOrderIndependent(tags: map<string, string>, o1: seq<string>, o2: seq<string>)
    requires IsEnumeration(o1, tags.Keys) && IsEnumeration(o2, tags.Keys)
    ensures multiset(TagsErrors(tags, o1)) == multiset(TagsErrors(tags, o2))
  {
    DistinctMultiset(o1);
    DistinctMultiset(o2);
    CollectPermuted(tags, TagErrors, o1, o2);
  }

  lemma {:induction false} DistinctMultiset(o: seq<string>)
    requires forall i, j :: 0 <= i < j < |o| ==> o[i] != o[j]
    ensures multiset(o) == multiset(set k | k in o)
    decreases |o|
  {
    if o != [] {
      var n := |o| - 1;
      var init := o[..n];
      DistinctMultiset(init);
      assert o == init + [o[n]];
      assert o[n] !in init;
      assert (set k | k in o) == (set k | k in init) + {o[n]};
    }
  }

  // ----- remaining option checks -------------------------------------------

  /** `user_data` and `user_data_file` exclude each other. */
  function UserDataErrors(userData: string, userDataFile: string): (r: seq<ConfigError>)
    ensures r == [] <==> userData == "" || userDataFile == ""
  {
    if userData != "" && userDataFile != "" then [UserDataConflict] else []
  }

  function LaunchModeErrors(mode: string): seq<ConfigError>
  {
    if mode != "" && mode != "NATIVE" && mode != "EMULATED" && mode != "PARAVIRTUALIZED" && mode != "CUSTOM"
    then [LaunchModeInvalid] else []
  }

  /** A launch mode is accepted exactly when it is one OCI knows, or empty. */
  lemma LaunchModeErrorsIff(mode: string)
    ensures LaunchModeErrors(mode) == [] <==> mode in LaunchModes
  {
  }

  function NicAttachmentTypeErrors(nic: string): seq<ConfigError>
  {
    if nic != "" && nic != "VFIO" && nic != "E1000" && nic != "PARAVIRTUALIZED"
    then [NicAttachmentTypeInvalid] else []
  }

  /** A NIC attachment type is accepted exactly when it is one OCI knows, or empty. */
  lemma NicAttachmentTypeErrorsIff(nic: string)
    ensures NicAttachmentTypeErrors(nic) == [] <==> nic in NicAttachmentTypes
  {
  }

  /** A disk size of 0 keeps the platform default; any other size must lie in
      [50, 16384] GB. */
  function DiskSizeErrors(size: Int64): (r: seq<ConfigError>)
    ensures r == [] <==> size == 0 || MinDiskSize <= size as int <= MaxDiskSize
  {
    if size != 0 && (size < 50 || size > 16384) then [DiskSizeInvalid] else []
  }

  /** The checks that follow the tags, in order. */
  function OptionErrors(userData: string, userDataFile: string, launchMode: string, nic: string, diskSize: Int64)
    : seq<ConfigError>
  {
    UserDataErrors(userData, userDataFile) + LaunchModeErrors(launchMode)
    + NicAttachmentTypeErrors(nic) + DiskSizeErrors(diskSize)
  }

  predicate OptionRules(userData: string, userDataFile: string, launchMode: string, nic: string, diskSize: Int64)
  {
    && (userData == "" || userDataFile == "")
    && launchMode in LaunchModes
    && nic in NicAttachmentTypes
    && (diskSize == 0 || MinDiskSize <= diskSize as int <= MaxDiskSize)
  }

  lemma OptionErrorsEmptyIff(userData: string, userDataFile: string, launchMode: string, nic: string, diskSize: Int64)
    ensures OptionErrors(userData, userDataFile, launchMode, nic, diskSize) == []
      <==> OptionRules(userData, userDataFile, launchMode, nic, diskSize)
  {
    LaunchModeErrorsIff(launchMode);
    NicAttachmentTypeErrorsIff(nic);
  }

  // ----- defaults -------------------------------------------------------------

  /** An empty compartment takes the tenancy's OCID (which may be empty too). */
  function DefaultCompartment(compartmentID: string, tenancyOCID: string): (r: string)
    ensures r == if compartmentID == "" then tenancyOCID else compartmentID
  {
    if compartmentID == "" && tenancyOCID != "" then tenancyOCID else compartmentID
  }

  /** An empty image compartment takes the instance compartment. */
  function DefaultImageCompartment(imageCompartmentID: string, compartmentID: string): (r: string)
    ensures r != "" <==> imageCompartmentID != "" || compartmentID != ""
    ensures imageCompartmentID != "" ==> r == imageCompartmentID
    ensures imageCompartmentID == "" ==> r == compartmentID
  {
    if imageCompartmentID == "" then compartmentID else imageCompartmentID
  }

  /** A missing VNIC subnet takes `subnet_ocid`; a given one is kept. */
  function DefaultVnic(vnic: CreateVNICDetails, subnetID: string): (r: CreateVNICDetails)
    ensures r.SubnetId.Some?
    ensures vnic.SubnetId.Some? ==> r == vnic
    ensures vnic.SubnetId.None? ==> r.SubnetId.value == subnetID
  {
    if vnic.SubnetId.None? then vnic.(SubnetId := Some(subnetID)) else vnic
  }

  /** A filter without compartment or shape takes the build's compartment and
      shape; its other fields are kept. */
  function DefaultFilter(filter: ListImagesRequest, compartmentID: string, shape: string): (r: ListImagesRequest)
    ensures r.CompartmentId.Some? && r.Shape.Some?
    ensures filter.CompartmentId.Some? ==> r.CompartmentId == filter.CompartmentId
    ensures filter.CompartmentId.None? ==> r.CompartmentId == Some(compartmentID)
    ensures filter.Shape.Some? ==> r.Shape == filter.Shape
    ensures filter.Shape.None? ==> r.Shape == Some(shape)
    ensures r.(CompartmentId := filter.CompartmentId, Shape := filter.Shape) == filter
  {
    var f := if filter.CompartmentId.None? then filter.(CompartmentId := Some(compartmentID)) else filter;
    if f.Shape.None? then f.(Shape := Some(shape)) else f
  }

  // ----- the configuration ----------------------------------------------------

  /** `Config`. Fields the modelled part of `Prepare` neither reads nor writes
      are not represented. */
  class Config {
    var InstancePrincipals: bool
    var SkipCreateImage: bool

    var AccessCfgFile: string
    var AccessCfgFileAccount: string
    var UserID: string
    var TenancyID: string
    var Region: string
    var Fingerprint: string
    var KeyFile: string
    var PassPhrase: string
    var UsePrivateIP: bool

    var AvailabilityDomain: string
    var CompartmentID: string

    var BaseImageID: string
    var BaseImageFilter: ListImagesRequest
    var ImageName: string
    var ImageCompartmentID: string
    var LaunchMode: string
    var NicAttachmentType: string

    var Shape: string
    var ShapeConfig: FlexShapeConfig
    var BootVolumeSizeInGBs: Int64

    var UserData: string
    var UserDataFile: string

    var SubnetID: string
    var CreateVnicDetails: CreateVNICDetails

    var Tags: map<string, string>

    /** Read by the scripted driver when it creates an instance. */
    var InstanceOptionsAreLegacyImdsEndpointsDisabled: Option<bool>

    /** The zero `Config{}`. */
    constructor ()
      ensures !InstancePrincipals && !SkipCreateImage && !UsePrivateIP
      ensures AccessCfgFile == AccessCfgFileAccount == UserID == TenancyID == Region == ""
      ensures Fingerprint == KeyFile == PassPhrase == ""
      ensures AvailabilityDomain == CompartmentID == BaseImageID == ImageName == ImageCompartmentID == ""
      ensures LaunchMode == NicAttachmentType == Shape == UserData == UserDataFile == SubnetID == ""
      ensures BaseImageFilter == EmptyFilter
      ensures ShapeConfig == FlexShapeConfig(false, false, None)
      ensures BootVolumeSizeInGBs == 0
      ensures CreateVnicDetails == CreateVNICDetails(None)
      ensures Tags == map[]
      ensures InstanceOptionsAreLegacyImdsEndpointsDisabled == None
    {
      InstancePrincipals, SkipCreateImage, UsePrivateIP := false, false, false;
      AccessCfgFile, AccessCfgFileAccount, UserID, TenancyID, Region := "", "", "", "", "";
      Fingerprint, KeyFile, PassPhrase := "", "", "";
      AvailabilityDomain, CompartmentID, BaseImageID, ImageName, ImageCompartmentID := "", "", "", "", "";
      LaunchMode, NicAttachmentType, Shape, UserData, UserDataFile, SubnetID := "", "", "", "", "", "";
      BaseImageFilter := EmptyFilter;
      ShapeConfig := FlexShapeConfig(false, false, None);
      BootVolumeSizeInGBs := 0;
      CreateVnicDetails := CreateVNICDetails(None);
      Tags := map[];
      InstanceOptionsAreLegacyImdsEndpointsDisabled := None;
    }

    /** The eight credential settings that `use_instance_principals` forbids,
        by their template keys, in the order they are checked. */
    function CredentialSettings(): (r: seq<(string, string)>)
      reads this
      ensures |r| == 8
    {
      Credentials(AccessCfgFile, AccessCfgFileAccount, UserID, TenancyID, Region, Fingerprint, KeyFile, PassPhrase)
    }

    /** The errors `Prepare` reports, the tags being visited in `order`. */
    function Errors(order: seq<string>): (errs: seq<ConfigError>)
      reads this
      ensures AvailabilityDomain == "" ==> AvailabilityDomainMissing in errs
      ensures InstancePrincipals ==> forall e :: e in Conflicts(CredentialSettings()) ==> e in errs
    {
      ValidationErrors(InstancePrincipals, CredentialSettings(), AvailabilityDomain, Shape, ShapeConfig,
        SubnetID, CreateVnicDetails, BaseImageID, BaseImageFilter, Tags, order,
        UserData, UserDataFile, LaunchMode, NicAttachmentType, BootVolumeSizeInGBs)
    }

    /** `use_instance_principals` excludes every other credential setting. */
    predicate CredentialRules()
      reads this
    {
      InstancePrincipals ==>
        && AccessCfgFile == AccessCfgFileAccount == UserID == TenancyID == ""
        && Region == Fingerprint == KeyFile == PassPhrase == ""
    }

    /** Every rule of the configuration, stated directly. */
    ghost predicate Acceptable()
      reads this
    {
      && CredentialRules()
      && AvailabilityDomain != ""
      && ShapeRules(Shape, ShapeConfig)
      && SubnetRules(SubnetID, CreateVnicDetails)
      && (BaseImageID != "" || BaseImageFilter != EmptyFilter)
      && (forall k :: k in Tags ==> ValidTag(k, Tags[k]))
      && OptionRules(UserData, UserDataFile, LaunchMode, NicAttachmentType, BootVolumeSizeInGBs)
    }

    /** `Prepare` (the part that depends only on the configuration):
        `tenancyOCID` is what the credential provider reports and
        `generatedImageName` the clock-derived `packer-{{timestamp}}`.
        The tags are visited in an unspecified order, returned as `tagOrder`. */
    method Prepare(tenancyOCID: string, generatedImageName: string)
      returns (errs: seq<ConfigError>, ok: bool, ghost tagOrder: seq<string>)
      modifies this`CompartmentID, this`ImageCompartmentID, this`CreateVnicDetails, this`BaseImageFilter, this`ImageName
      ensures IsEnumeration(tagOrder, Tags.Keys)
      ensures errs == old(Errors(tagOrder))
      ensures ok <==> errs == []
      ensures CompartmentID == DefaultCompartment(old(CompartmentID), tenancyOCID)
      ensures ImageCompartmentID == DefaultImageCompartment(old(ImageCompartmentID), CompartmentID)
      ensures CreateVnicDetails == DefaultVnic(old(CreateVnicDetails), SubnetID)
      ensures BaseImageFilter == DefaultFilter(old(BaseImageFilter), CompartmentID, Shape)
      ensures ImageName == if old(ImageName) == "" then generatedImageName else old(ImageName)
    {
      var compartment, imageCompartment, vnic, filter, name;
      errs, tagOrder, compartment, imageCompartment, vnic, filter, name := Validate(
        InstancePrincipals, CredentialSettings(), AvailabilityDomain, CompartmentID, ImageCompartmentID,
        Shape, ShapeConfig, SubnetID, CreateVnicDetails, BaseImageID, BaseImageFilter, Tags, ImageName,
        UserData, UserDataFile, LaunchMode, NicAttachmentType, BootVolumeSizeInGBs, tenancyOCID, generatedImageName);
      CompartmentID, ImageCompartmentID, CreateVnicDetails, BaseImageFilter, ImageName :=
        compartment, imageCompartment, vnic, filter, name;
      ok := |errs| == 0;
    }
  }

  /** The errors of a configuration with these settings, in the order
      `Prepare` reports them, the tags being visited in `order`. */
  function ValidationErrors(instancePrincipals: bool, credentials: seq<(string, string)>, availabilityDomain: string,
                            shape: string, sc: FlexShapeConfig, subnetID: string, vnic: CreateVNICDetails,
                            baseImageID: string, filter: ListImagesRequest, tags: map<string, string>, order: seq<string>,
                            userData: string, userDataFile: string, launchMode: string, nic: string, diskSize: Int64)
    : (errs: seq<ConfigError>)
    ensures errs == [] <==>
      && (instancePrincipals ==> Conflicts(credentials) == [])
      && availabilityDomain != ""
      && ShapeErrors(shape, sc) == []
      && SubnetErrors(subnetID, vnic) == []
      && BaseImageErrors(baseImageID, filter) == []
      && TagsErrors(tags, order) == []
      && OptionErrors(userData, userDataFile, launchMode, nic, diskSize) == []
    ensures availabilityDomain == "" ==> AvailabilityDomainMissing in errs
    ensures instancePrincipals ==> forall e :: e in Conflicts(credentials) ==> e in errs
  {
    (if instancePrincipals then Conflicts(credentials) else [])
    + (if availabilityDomain == "" then [AvailabilityDomainMissing] else [])
    + ShapeErrors(shape, sc)
    + SubnetErrors(subnetID, vnic)
    + BaseImageErrors(baseImageID, filter)
    + TagsErrors(tags, order)
    + OptionErrors(userData, userDataFile, launchMode, nic, diskSize)
  }

  /** The body of `Prepare` on the values of the settings: the checks and
      the defaults in the order `Prepare` runs them. */
  method Validate(instancePrincipals: bool, credentials: seq<(string, string)>, availabilityDomain: string,
                  compartmentID: string, imageCompartmentID: string,
                  shape: string, sc: FlexShapeConfig, subnetID: string, vnic: CreateVNICDetails,
                  baseImageID: string, filter: ListImagesRequest, tags: map<string, string>, imageName: string,
                  userData: string, userDataFile: string, launchMode: string, nic: string, diskSize: Int64,
                  tenancyOCID: string, generatedImageName: string)
    returns (errs: seq<ConfigError>, ghost order: seq<string>, compartment: string, imageCompartment: string,
             filledVnic: CreateVNICDetails, filledFilter: ListImagesRequest, name: string)
    requires |credentials| == 8
    ensures IsEnumeration(order, tags.Keys)
    ensures errs == ValidationErrors(instancePrincipals, credentials, availabilityDomain, shape, sc, subnetID, vnic,
      baseImageID, filter, tags, order, userData, userDataFile, launchMode, nic, diskSize)
    ensures compartment == DefaultCompartment(compartmentID, tenancyOCID)
    ensures imageCompartment == DefaultImageCompartment(imageCompartmentID, compartment)
    ensures filledVnic == DefaultVnic(vnic, subnetID)
    ensures filledFilter == DefaultFilter(filter, compartment, shape)
    ensures name == if imageName == "" then generatedImageName else imageName
  {
    var principal := CheckPrincipals(instancePrincipals, credentials);
    var domain := CheckAvailabilityDomain(availabilityDomain);
    compartment, imageCompartment := FillCompartments(compartmentID, imageCompartmentID, tenancyOCID);
    var shapeErrs := CheckShape(shape, sc);
    var subnet;
    subnet, filledVnic := CheckSubnet(subnetID, vnic);
    var baseImage;
    baseImage, filledFilter := CheckBaseImage(baseImageID, filter, compartment, shape);
    var tagErrs;
    tagErrs, order := CheckTags(tags);
    name := FillImageName(imageName, generatedImageName);
    var options := CheckOptions(userData, userDataFile, launchMode, nic, diskSize);
    errs := principal + domain + shapeErrs + subnet + baseImage + tagErrs + options;
  }

  /** The eight credential settings that `use_instance_principals` forbids,
      by their template keys, in the order they are checked. */
  function Credentials(accessCfgFile: string, accessCfgFileAccount: string, userID: string, tenancyID: string,
                       region: string, fingerprint: string, keyFile: string, passPhrase: string)
    : (r: seq<(string, string)>)
    ensures |r| == 8
  {
    [ ("access_cfg_file", accessCfgFile), ("access_cfg_file_account", accessCfgFileAccount),
      ("user_ocid", userID), ("tenancy_ocid", tenancyID), ("region", region),
      ("fingerprint", fingerprint), ("key_file", keyFile), ("pass_phrase", passPhrase) ]
  }

  /** The eight credential settings have distinct keys, so each error names
      one setting. */
  lemma CredentialKeysDistinct(accessCfgFile: string, accessCfgFileAccount: string, userID: string, tenancyID: string,
                               region: string, fingerprint: string, keyFile: string, passPhrase: string)
    ensures DistinctKeys(Credentials(accessCfgFile, accessCfgFileAccount, userID, tenancyID, region, fingerprint, keyFile, passPhrase))
  {
  }

  /** The credential settings checked in turn when `use_instance_principals`
      is set. */
  method CheckPrincipals(instancePrincipals: bool, credentials: seq<(string, string)>)
    returns (errs: seq<ConfigError>)
    requires |credentials| == 8
    ensures errs == if instancePrincipals then Conflicts(credentials) else []
  {
    errs := [];
    if instancePrincipals {
      errs := FlagConflict(errs, credentials[0].0, credentials[0].1);
      errs := FlagConflict(errs, credentials[1].0, credentials[1].1);
      errs := FlagConflict(errs, credentials[2].0, credentials[2].1);
      errs := FlagConflict(errs, credentials[3].0, credentials[3].1);
      errs := FlagConflict(errs, credentials[4].0, credentials[4].1);
      errs := FlagConflict(errs, credentials[5].0, credentials[5].1);
      errs := FlagConflict(errs, credentials[6].0, credentials[6].1);
      errs := FlagConflict(errs, credentials[7].0, credentials[7].1);
      ConflictsOfEight(credentials);
    }
  }

  /** `availability_domain` is required. */
  method CheckAvailabilityDomain(availabilityDomain: string) returns (errs: seq<ConfigError>)
    ensures errs == if availabilityDomain == "" then [AvailabilityDomainMissing] else []
  {
    errs := [];
    if availabilityDomain == "" {
      errs := [AvailabilityDomainMissing];
    }
  }

  /** An empty compartment takes the tenancy's; an empty image compartment
      then takes the instance compartment. */
  method FillCompartments(compartmentID: string, imageCompartmentID: string, tenancyOCID: string)
    returns (compartment: string, imageCompartment: string)
    ensures compartment == DefaultCompartment(compartmentID, tenancyOCID)
    ensures imageCompartment == DefaultImageCompartment(imageCompartmentID, compartment)
  {
    compartment, imageCompartment := compartmentID, imageCompartmentID;
    if compartment == "" && tenancyOCID != "" {
      compartment := tenancyOCID;
    }
    if imageCompartment == "" {
      imageCompartment := compartment;
    }
  }

  /** An empty image name takes the generated one. */
  method FillImageName(imageName: string, generatedImageName: string) returns (name: string)
    ensures name == if imageName == "" then generatedImageName else imageName
  {
    name := imageName;
    if name == "" {
      name := generatedImageName;
    }
  }

  /** The shape checks, in the order `Prepare` runs them. */
  method CheckShape(shape: string, sc: FlexShapeConfig) returns (errs: seq<ConfigError>)
    ensures errs == ShapeErrors(shape, sc)
  {
    errs := [];
    if shape == "" {
      errs := errs + [ShapeMissing];
    }
    if HasSuffix(shape, "Flex") {
      if !sc.HasOcpus {
        errs := errs + [FlexOcpusMissing];
      }
    }
    if sc.HasMemoryInGBs && !sc.HasOcpus {
      errs := errs + [MemoryWithoutOcpus];
    }
    if sc.BaselineOcpuUtilization.Some? && !sc.HasOcpus {
      errs := errs + [BaselineWithoutOcpus];
    }
  }

  /** The subnet checks; a missing VNIC subnet is filled in from `subnet_ocid`. */
  method CheckSubnet(subnetID: string, vnic: CreateVNICDetails) returns (errs: seq<ConfigError>, filled: CreateVNICDetails)
    ensures errs == SubnetErrors(subnetID, vnic)
    ensures filled == DefaultVnic(vnic, subnetID)
  {
    errs := [];
    filled := vnic;
    if subnetID == "" && filled.SubnetId.None? {
      errs := errs + [SubnetMissing];
    }
    if filled.SubnetId.None? {
      filled := filled.(SubnetId := Some(subnetID));
    } else if filled.SubnetId.value != subnetID && subnetID != "" {
      errs := errs + [SubnetMismatch];
    }
  }

  /** The base image check; the filter's missing compartment and shape are
      filled in. */
  method CheckBaseImage(baseImageID: string, filter: ListImagesRequest, compartmentID: string, shape: string)
    returns (errs: seq<ConfigError>, filled: ListImagesRequest)
    ensures errs == BaseImageErrors(baseImageID, filter)
    ensures filled == DefaultFilter(filter, compartmentID, shape)
  {
    errs := [];
    filled := filter;
    if baseImageID == "" && filled == ListImagesRequest(None, None, None, None, None, None) {
      errs := errs + [BaseImageMissing];
    }
    if filled.CompartmentId.None? {
      filled := filled.(CompartmentId := Some(compartmentID));
    }
    if filled.Shape.None? {
      filled := filled.(Shape := Some(shape));
    }
  }

  /** The tag checks, visiting the map in an order of the runtime's choosing. */
  method CheckTags(tags: map<string, string>) returns (errs: seq<ConfigError>, ghost order: seq<string>)
    ensures IsEnumeration(order, tags.Keys)
    ensures errs == TagsErrors(tags, order)
  {
    errs := [];
    var remaining := tags.Keys;
    order := [];
    while remaining != {}
      invariant forall k :: k in tags ==> (k in order <==> k !in remaining)
      invariant remaining <= tags.Keys
      invariant forall k :: k in order ==> k in tags
      invariant forall i, j :: 0 <= i < j < |order| ==> order[i] != order[j]
      invariant errs == TagsErrors(tags, order)
      decreases remaining
    {
      var key :| key in remaining;
      var e := CheckTag(key, tags[key]);
      errs := errs + e;
      ghost var visited := order;
      order := order + [key];
      assert order[..|order| - 1] == visited;
      remaining := remaining - {key};
    }
  }

  /** The checks of one tag: its key and value are trimmed, then measured in
      bytes. */
  method CheckTag(key: string, value: string) returns (errs: seq<ConfigError>)
    ensures errs == TagErrors(key, value)
  {
    errs := [];
    var k := TrimSpace(key);
    var v := TrimSpace(value);
    if Utf8Len(k) > MaxTagLength {
      errs := errs + [TagKeyTooLong(Utf8Len(k), k)];
    }
    if Utf8Len(k) == 0 {
      errs := errs + [TagKeyEmpty];
    }
    if Utf8Len(v) > MaxTagLength {
      errs := errs + [TagValueTooLong(Utf8Len(v), k)];
    }
    if Utf8Len(v) == 0 {
      errs := errs + [TagValueEmpty];
    }
  }

  /** The user-data, launch-mode, NIC-attachment and disk-size checks. */
  method CheckOptions(userData: string, userDataFile: string, launchMode: string, nic: string, diskSize: Int64)
    returns (errs: seq<ConfigError>)
    ensures errs == OptionErrors(userData, userDataFile, launchMode, nic, diskSize)
  {
    errs := [];
    if userData != "" && userDataFile != "" {
      errs := errs + [UserDataConflict];
    }
    if launchMode != "" && launchMode != "NATIVE" && launchMode != "EMULATED"
       && launchMode != "PARAVIRTUALIZED" && launchMode != "CUSTOM" {
      errs := errs + [LaunchModeInvalid];
    }
    if nic != "" && nic != "VFIO" && nic != "E1000" && nic != "PARAVIRTUALIZED" {
      errs := errs + [NicAttachmentTypeInvalid];
    }
    if diskSize != 0 && (diskSize < 50 || diskSize > 16384) {
      errs := errs + [DiskSizeInvalid];
    }
  }

  /** `Prepare` succeeds exactly when the configuration obeys every rule,
      whatever order the tags are visited in. */
  lemma PrepareSucceedsIff(c: Config, order: seq<string>)
    requires IsEnumeration(order, c.Tags.Keys)
    ensures c.Errors(order) == [] <==> c.Acceptable()
  {
    ConcatEmpty7(if c.InstancePrincipals then Conflicts(c.CredentialSettings()) else [],
      if c.AvailabilityDomain == "" then [AvailabilityDomainMissing] else [],
      ShapeErrors(c.Shape, c.ShapeConfig),
      SubnetErrors(c.SubnetID, c.CreateVnicDetails),
      BaseImageErrors(c.BaseImageID, c.BaseImageFilter),
      TagsErrors(c.Tags, order),
      OptionErrors(c.UserData, c.UserDataFile, c.LaunchMode, c.NicAttachmentType, c.BootVolumeSizeInGBs));
    AcceptableParts(c, order);
  }

  /** The rules, grouped as `Prepare` checks them. */
  lemma AcceptableParts(c: Config, order: seq<string>)
    requires IsEnumeration(order, c.Tags.Keys)
    ensures c.Acceptable() <==>
      (if c.InstancePrincipals then Conflicts(c.CredentialSettings()) else []) == []
      && (if c.AvailabilityDomain == "" then [AvailabilityDomainMissing] else []) == []
      && ShapeErrors(c.Shape, c.ShapeConfig) == []
      && SubnetErrors(c.SubnetID, c.CreateVnicDetails) == []
      && BaseImageErrors(c.BaseImageID, c.BaseImageFilter) == []
      && TagsErrors(c.Tags, order) == []
      && OptionErrors(c.UserData, c.UserDataFile, c.LaunchMode, c.NicAttachmentType, c.BootVolumeSizeInGBs) == []
  {
    CredentialsEmptyIff(c);
    TagsErrorsEmptyIff(c.Tags, order);
    assert TagsErrors(c.Tags, order) == [] <==> forall k :: k in c.Tags ==> ValidTag(k, c.Tags[k]);
    OptionErrorsEmptyIff(c.UserData, c.UserDataFile, c.LaunchMode, c.NicAttachmentType, c.BootVolumeSizeInGBs);
  }

  lemma ConcatEmpty7<T>(a: seq<T>, b: seq<T>, c: seq<T>, d: seq<T>, e: seq<T>, f: seq<T>, g: seq<T>)
    ensures a + b + c + d + e + f + g == [] <==> a == b == c == d == e == f == g == []
  {
    assert |a + b + c + d + e + f + g| == |a| + |b| + |c| + |d| + |e| + |f| + |g|;
  }

  lemma CredentialsEmptyIff(c: Config)
    ensures (if c.InstancePrincipals then Conflicts(c.CredentialSettings()) else []) == [] <==> c.CredentialRules()
  {
    var s := c.CredentialSettings();
    ConflictsEmptyIff(s);
    assert s[0].1 == c.AccessCfgFile && s[1].1 == c.AccessCfgFileAccount;
    assert s[2].1 == c.UserID && s[3].1 == c.TenancyID && s[4].1 == c.Region;
    assert s[5].1 == c.Fingerprint && s[6].1 == c.KeyFile && s[7].1 == c.PassPhrase;
  }

}
