/** `driverMock`, the scripted stand-in for the cloud driver that the tests
    give the steps: every operation either returns the error it was set up
    with, leaving its record alone, or records its argument and succeeds. */
module Driver {
  import opened Common
  import opened OciCore
  import opened OciConfig

  /** One call made on the driver, with its arguments. */
  datatype DriverCall =
    | CreateInstanceCall(publicKey: string)
    | CreateImageCall(id: string)
    | DeleteImageCall(id: string)
    | GetInstanceIPCall(id: string)
    | TerminateInstanceCall(id: string)
    | WaitForImageCreationCall(id: string)
    | WaitForInstanceStateCall(id: string, waitStates: seq<string>, terminalState: string)
    | UpdateImageCapabilitySchemaCall(imageId: string)

  /** The identifier the scripted driver gives every instance it creates. */
  const MockInstanceID := "ocid1..."

  /** The image the scripted driver reports for a successful `CreateImage(id)`:
      only its identifier is set, to the argument. */
  function CreatedImage(id: string): (img: Image)
    ensures img.Id == Some(id)
    ensures img.(Id := None) == ZeroImage
  {
    ZeroImage.(Id := Some(id))
  }

  /** The address `GetInstanceIP` reports: the private one when the
      configuration asks for it. */
  function InstanceIP(usePrivateIP: bool): (ip: string)
    ensures ip == "private_ip" <==> usePrivateIP
    ensures ip == "ip" <==> !usePrivateIP
  {
    if usePrivateIP then "private_ip" else "ip"
  }

  class DriverMock {
    var CreateInstanceID: string
    var CreateInstanceErr: Option<Error>

    var CreateImageID: string
    var CreateImageErr: Option<Error>

    var UpdateSchemaID: string
    var UpdateSchemaErr: Option<Error>

    var DeleteImageID: string
    var DeleteImageErr: Option<Error>

    var GetInstanceIPErr: Option<Error>

    var TerminateInstanceID: string
    var TerminateInstanceErr: Option<Error>

    var WaitForImageCreationErr: Option<Error>

    var WaitForInstanceStateErr: Option<Error>

    var cfg: Config?
    var CapturedInstanceOptionsAreLegacyImdsEndpointsDisabled: Option<bool>

    /** Every call made on this driver, oldest first. */
    ghost var Calls: seq<DriverCall>

    /** `&driverMock{cfg: cfg}`: no error set up and nothing recorded yet. */
    constructor (cfg: Config?)
      ensures this.cfg == cfg
      ensures CreateInstanceID == CreateImageID == UpdateSchemaID == DeleteImageID == TerminateInstanceID == ""
      ensures CreateInstanceErr == CreateImageErr == UpdateSchemaErr == DeleteImageErr == None
      ensures GetInstanceIPErr == TerminateInstanceErr == WaitForImageCreationErr == WaitForInstanceStateErr == None
      ensures CapturedInstanceOptionsAreLegacyImdsEndpointsDisabled == None
      ensures Calls == []
    {
      this.cfg := cfg;
      CreateInstanceID, CreateImageID, UpdateSchemaID, DeleteImageID, TerminateInstanceID := "", "", "", "", "";
      CreateInstanceErr, CreateImageErr, UpdateSchemaErr, DeleteImageErr := None, None, None, None;
      GetInstanceIPErr, TerminateInstanceErr, WaitForImageCreationErr, WaitForInstanceStateErr := None, None, None, None;
      CapturedInstanceOptionsAreLegacyImdsEndpointsDisabled := None;
      Calls := [];
    }

    /** `CreateInstance`: on success the instance is `ocid1...`, and the
        configuration's legacy-IMDS option is captured as it is, nil included. */
    method CreateInstance(publicKey: string) returns (id: string, err: Option<Error>)
      modifies this`CreateInstanceID, this`CapturedInstanceOptionsAreLegacyImdsEndpointsDisabled, this`Calls
      ensures Calls == old(Calls) + [CreateInstanceCall(publicKey)]
      ensures err == old(CreateInstanceErr)
      ensures err.Some? ==> id == "" && CreateInstanceID == old(CreateInstanceID)
      ensures err.Some? || cfg == null ==>
        CapturedInstanceOptionsAreLegacyImdsEndpointsDisabled == old(CapturedInstanceOptionsAreLegacyImdsEndpointsDisabled)
      ensures err.None? ==> id == CreateInstanceID == MockInstanceID
      ensures err.None? && cfg != null ==>
        CapturedInstanceOptionsAreLegacyImdsEndpointsDisabled == cfg.InstanceOptionsAreLegacyImdsEndpointsDisabled
    {
      Calls := Calls + [CreateInstanceCall(publicKey)];
      if CreateInstanceErr.Some? {
        return "", CreateInstanceErr;
      }
      CreateInstanceID := MockInstanceID;
      if cfg != null {
        CapturedInstanceOptionsAreLegacyImdsEndpointsDisabled := cfg.InstanceOptionsAreLegacyImdsEndpointsDisabled;
      }
      return CreateInstanceID, None;
    }

    /** `CreateImage`: on success the image carries the argument as its
        identifier, and the argument is recorded. */
    method CreateImage(id: string) returns (image: Image, err: Option<Error>)
      modifies this`CreateImageID, this`Calls
      ensures Calls == old(Calls) + [CreateImageCall(id)]
      ensures err == old(CreateImageErr)
      ensures err.Some? ==> image == ZeroImage && CreateImageID == old(CreateImageID)
      ensures err.None? ==> image == CreatedImage(id) && CreateImageID == id
    {
      Calls := Calls + [CreateImageCall(id)];
      if CreateImageErr.Some? {
        return ZeroImage, CreateImageErr;
      }
      CreateImageID := id;
      return CreatedImage(id), None;
    }

    /** `UpdateImageCapabilitySchema`: on success the image is recorded. */
    method UpdateImageCapabilitySchema(imageId: string) returns (err: Option<Error>)
      modifies this`UpdateSchemaID, this`Calls
      ensures Calls == old(Calls) + [UpdateImageCapabilitySchemaCall(imageId)]
      ensures err == old(UpdateSchemaErr)
      ensures UpdateSchemaID == if err.Some? then old(UpdateSchemaID) else imageId
    {
      Calls := Calls + [UpdateImageCapabilitySchemaCall(imageId)];
      if UpdateSchemaErr.Some? {
        return UpdateSchemaErr;
      }
      UpdateSchemaID := imageId;
      return None;
    }

    /** `DeleteImage`: on success the image is recorded. */
    method DeleteImage(id: string) returns (err: Option<Error>)
      modifies this`DeleteImageID, this`Calls
      ensures Calls == old(Calls) + [DeleteImageCall(id)]
      ensures err == old(DeleteImageErr)
      ensures DeleteImageID == if err.Some? then old(DeleteImageID) else id
    {
      Calls := Calls + [DeleteImageCall(id)];
      if DeleteImageErr.Some? {
        return DeleteImageErr;
      }
      DeleteImageID := id;
      return None;
    }

    /** `GetInstanceIP`: the private or the public address, as the
        configuration says; the configuration must be set unless an error is. */
    method GetInstanceIP(id: string) returns (ip: string, err: Option<Error>)
      requires GetInstanceIPErr.None? ==> cfg != null
      modifies this`Calls
      ensures Calls == old(Calls) + [GetInstanceIPCall(id)]
      ensures err == GetInstanceIPErr
      ensures ip == if err.Some? then "" else InstanceIP(cfg.UsePrivateIP)
    {
      Calls := Calls + [GetInstanceIPCall(id)];
      if GetInstanceIPErr.Some? {
        return "", GetInstanceIPErr;
      }
      if cfg.UsePrivateIP {
        return "private_ip", None;
      }
      return "ip", None;
    }

    /** `TerminateInstance`: on success the instance is recorded. */
    method TerminateInstance(id: string) returns (err: Option<Error>)
      modifies this`TerminateInstanceID, this`Calls
      ensures Calls == old(Calls) + [TerminateInstanceCall(id)]
      ensures err == old(TerminateInstanceErr)
      ensures TerminateInstanceID == if err.Some? then old(TerminateInstanceID) else id
    {
      Calls := Calls + [TerminateInstanceCall(id)];
      if TerminateInstanceErr.Some? {
        return TerminateInstanceErr;
      }
      TerminateInstanceID := id;
      return None;
    }

    /** `WaitForImageCreation`: returns at once, with the error set up. */
    method WaitForImageCreation(id: string) returns (err: Option<Error>)
      modifies this`Calls
      ensures Calls == old(Calls) + [WaitForImageCreationCall(id)]
      ensures err == WaitForImageCreationErr
    {
      Calls := Calls + [WaitForImageCreationCall(id)];
      return WaitForImageCreationErr;
    }

    /** `WaitForInstanceState`: returns at once, with the error set up. */
    method WaitForInstanceState(id: string, waitStates: seq<string>, terminalState: string) returns (err: Option<Error>)
      modifies this`Calls
      ensures Calls == old(Calls) + [WaitForInstanceStateCall(id, waitStates, terminalState)]
      ensures err == WaitForInstanceStateErr
    {
      Calls := Calls + [WaitForInstanceStateCall(id, waitStates, terminalState)];
      return WaitForInstanceStateErr;
    }
  }
}
