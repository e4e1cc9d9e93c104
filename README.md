# Oracle Cloud Infrastructure image builder: step, driver double, artifact and configuration checks

This project models the core of the Packer plugin for Oracle Cloud Infrastructure (OCI). The plugin builds a custom
machine image by running a pipeline of steps against a cloud driver. The model covers four parts.

- **The image step** (`stepImage`). The step creates an image from the build instance, waits for it to become
  available and updates its capability schema. It writes the first failure under `"error"` and halts.
  It publishes `"image"` in the state bag only when all three calls succeeded. A skip flag turns the whole
  step into a no-op.
- **The scripted driver** (`driverMock`). The tests give the steps this stand-in for the cloud driver.
  Each operation either returns the error it was set up with, leaving its record alone, or records its
  argument and succeeds. A successful `CreateInstance` also captures the configuration's legacy-IMDS toggle
  unchanged, nil included.
- **The artifact** (`Artifact`). It covers the image's identifier, its one-line description, the file list
  (always empty), `Destroy` (which deletes the image through the driver), and `State`. `State` dispatches the
  reserved registry name to the registry metadata and looks every other name up in the state data. The
  registry labels carry one label per set image field, and the billable size is written in base 10.
- **Configuration validation and defaulting** (`Config.Prepare`). This is the part that depends only on the
  configuration's own fields:
  - the instance-principal conflicts;
  - the required availability domain, shape and subnet;
  - the flexible-shape OCPU rules and subnet consistency;
  - the presence of a base image;
  - the trimmed byte lengths of tag keys and values;
  - `user_data` exclusivity, the launch-mode and NIC-attachment enumerations, and the disk-size range;
  - the compartment, VNIC subnet, base-image-filter and image-name defaults.

  `Prepare` succeeds exactly when no error was accumulated.

Files:

- `common.dfy`: Go's nil-able pointers, its errors and 64-bit integers.
- `strings.dfy`: base-10 rendering and its inverse, `strings.TrimSpace`, and UTF-8 byte length.
- `config.dfy`: the configuration class, its validators and defaults, and `Prepare`.
- `core.dfy`: the SDK's `core.Image`, and the values kept in the state bag.
- `multistep.dfy`: the step actions and the state bag.
- `driver.dfy`: the scripted driver.
- `step_image.dfy`: the image step, its specification, and the scenarios of its tests.
- `artifact.dfy`: the artifact and the registry labels.

Go panics in these places, so each becomes a precondition of the model:

- `Run` type-asserts `instance_id` and dereferences the created image's identifier.
- `GetInstanceIP` dereferences the configuration.
- `Id`, `String`, `Destroy` and the registry metadata dereference the image's identifier or its base image.
- `Destroy` calls the artifact's driver, which must be set.

Go visits the entries of a map in an unspecified order, and `Prepare` loops over the tags this way. The model
therefore picks each next tag nondeterministically, and `Prepare` returns the visiting order as a ghost result.
The error list is stated for that order. A lemma shows that every order yields the same errors up to their
arrangement.

## Model

| member | source | states |
|---|---|---|
| Strings.FormatDecimalRoundTrip | builder/oci/artifact.go:73 | reading back the base-10 rendering of an int64 yields the same number |
| Strings.FormatDecimal | builder/oci/artifact.go:73 | the rendering is non-empty, starts with a minus sign exactly for a negative number, and is otherwise made of decimal digits |
| Strings.FormatDecimalInjective | builder/oci/artifact.go:73 | two numbers with the same rendering are equal |
| Strings.Digits | builder/oci/artifact.go:73 | the digits of a number are decimal digits without a leading zero |
| Strings.TrimLeftSpec | builder/oci/config.go:379-380 | left trimming keeps a suffix, removes only white space, and stops at the first other character |
| Strings.TrimSpace | builder/oci/config.go:379-380 | trimming never lengthens a string (what it removes is stated by `TrimSpaceSpec`) |
| Strings.TrimRightSpec | builder/oci/config.go:379-380 | right trimming keeps a prefix, removes only white space, and stops at the last other character |
| Strings.TrimSpaceSpec | builder/oci/config.go:379-380 | a trimmed key or value neither starts nor ends with white space, and it is empty exactly when it was all white space |
| Strings.Utf8Len | builder/oci/config.go:381-393 | the byte length Go's `len` measures lies between the number of code points and four times that number |
| OciConfig.ConflictsCount | builder/oci/config.go:189-218 | with `use_instance_principals`, there are as many errors as non-empty credential settings |
| OciConfig.ConflictsReport | builder/oci/config.go:189-218 | every non-empty credential setting is reported under its own key |
| OciConfig.ConflictsOnlyNonEmpty | builder/oci/config.go:189-218 | every reported key belongs to a non-empty setting |
| OciConfig.ConflictsOmitKey | builder/oci/config.go:189-218 | a key all of whose settings are empty is never reported |
| OciConfig.ConflictsSkipEmpty | builder/oci/config.go:189-218 | when the keys are distinct, an empty setting is never reported |
| OciConfig.ConflictsEmptyIff | builder/oci/config.go:189-218 | there are no conflicts exactly when every setting is empty |
| OciConfig.CredentialKeysDistinct | builder/oci/config.go:195-217 | the eight credential keys are distinct, so each error names a single setting |
| OciConfig.ConflictsOfEight | builder/oci/config.go:195-217 | eight checks run one after the other give the conflicts of the eight settings |
| OciConfig.FlagConflict | builder/oci/config.go:195-197 | one credential check appends an error exactly when its setting is non-empty |
| OciConfig.CheckPrincipals | builder/oci/config.go:189-218 | the checks report one error per non-empty credential setting, in order, and none unless instance principals are used |
| OciConfig.CredentialsEmptyIff | builder/oci/config.go:189-218 | there is no principal error exactly when instance principals are off or every credential setting is empty |
| OciConfig.CheckAvailabilityDomain | builder/oci/config.go:316-319 | an empty availability domain gives exactly one error |
| OciConfig.DefaultCompartment | builder/oci/config.go:321-323 | an empty compartment takes the tenancy OCID, and a given one is kept |
| OciConfig.DefaultImageCompartment | builder/oci/config.go:325-327 | an empty image compartment takes the compartment, a given one is kept, and the result is empty only when both are |
| OciConfig.FillCompartments | builder/oci/config.go:321-327 | the compartment is defaulted first, then the image compartment from the defaulted compartment |
| OciConfig.ShapeErrors | builder/oci/config.go:329-349 | no shape error exactly when a shape is given, and a Flex shape, a memory size or a baseline utilisation each come with OCPUs |
| OciConfig.ShapeErrorsExact | builder/oci/config.go:329-349 | each shape error is reported exactly when its own rule is broken |
| OciConfig.CheckShape | builder/oci/config.go:329-349 | the shape checks report the shape errors in order |
| OciConfig.SubnetErrors | builder/oci/config.go:351-361 | no subnet error exactly when one subnet source is given and two given sources agree |
| OciConfig.SubnetErrorsExact | builder/oci/config.go:351-361 | the missing-subnet and mismatch errors each appear exactly when their condition holds |
| OciConfig.DefaultVnic | builder/oci/config.go:356-357 | the VNIC always ends up with a subnet: a given one is kept, and a missing one becomes `subnet_ocid` |
| OciConfig.CheckSubnet | builder/oci/config.go:351-361 | the subnet checks report the subnet errors and fill the VNIC subnet |
| OciConfig.BaseImageErrors | builder/oci/config.go:363-366 | an error exactly when neither a base image OCID nor a non-empty filter is given, and then only that one error |
| OciConfig.DefaultFilter | builder/oci/config.go:368-374 | the filter always ends up with a compartment and a shape; given ones are kept, missing ones come from the build, and no other field changes |
| OciConfig.CheckBaseImage | builder/oci/config.go:363-374 | the base-image check reports its error and fills the filter |
| OciConfig.TagErrors | builder/oci/config.go:379-396 | a tag gives no error exactly when its trimmed key and trimmed value each take 1 to 100 bytes |
| OciConfig.CheckTag | builder/oci/config.go:379-396 | the four checks of one tag report the tag's errors in order |
| OciConfig.CheckTags | builder/oci/config.go:377-398 | every key is visited exactly once, and the errors are those of the tags in the visiting order |
| OciConfig.CollectAppend | builder/oci/config.go:378-397 | visiting two runs of keys one after the other reports the errors of the first run, then those of the second |
| OciConfig.CollectEmptyIff | builder/oci/config.go:378-397 | visiting keys reports nothing exactly when no visited entry has an error |
| OciConfig.CollectPermuted | builder/oci/config.go:378-397 | visiting the same keys in another order reports the same errors, up to their arrangement |
| OciConfig.TagsErrorsEmptyIff | builder/oci/config.go:377-398 | there is no tag error exactly when every visited tag is valid |
| OciConfig.TagsErrorsOrderIndependent | builder/oci/config.go:378 | any two orders of visiting the tag map yield the same multiset of errors |
| OciConfig.DistinctMultiset | builder/oci/config.go:378 | an order without repeated keys has the keys' set as its multiset |
| OciConfig.FillImageName | builder/oci/config.go:400-408 | an empty image name takes the generated `packer-{{timestamp}}` name, and a given one is kept |
| OciConfig.UserDataErrors | builder/oci/config.go:411-412 | an error exactly when both `user_data` and `user_data_file` are given |
| OciConfig.LaunchModeErrorsIff | builder/oci/config.go:435-438 | a launch mode is accepted exactly when it is empty or one of NATIVE, EMULATED, PARAVIRTUALIZED and CUSTOM |
| OciConfig.NicAttachmentTypeErrorsIff | builder/oci/config.go:441-444 | a NIC attachment type is accepted exactly when it is empty or one of VFIO, E1000 and PARAVIRTUALIZED |
| OciConfig.DiskSizeErrors | builder/oci/config.go:448-451 | a disk size is accepted exactly when it is 0 or within [50, 16384] GB |
| OciConfig.OptionErrorsEmptyIff | builder/oci/config.go:410-451 | the user-data, launch-mode, NIC and disk-size checks pass exactly when their four rules hold |
| OciConfig.CheckOptions | builder/oci/config.go:410-451 | the user-data, launch-mode, NIC and disk-size checks report their errors in order |
| OciConfig.Validate | builder/oci/config.go:189-451 | the checks and fills on the configuration's values: the complete error list for the tag order they visit, and every default |
| OciConfig.ValidationErrors | builder/oci/config.go:189-451 | the error list is empty exactly when every check group passes; a missing availability domain and every credential conflict under `use_instance_principals` appear in it |
| OciConfig.Config.Errors | builder/oci/config.go:189-451 | the errors `Prepare` reports for a configuration contain the missing-domain error and every credential conflict that apply to it |
| OciConfig.Config.Prepare | builder/oci/config.go:189-457 | `Prepare` reports every error of the configuration as it was before the call, for the tag order it visits; it succeeds iff that list is empty; it fills the compartments, the VNIC subnet, the filter and the image name, and changes no other field |
| OciConfig.AcceptableParts | builder/oci/config.go:189-451 | the configuration obeys every rule exactly when each group of checks reports nothing |
| OciConfig.PrepareSucceedsIff | builder/oci/config.go:453-457 | whatever order the tags are visited in, `Prepare` returns no error exactly when the configuration obeys every rule |
| Driver.CreatedImage | builder/oci/driver_mock.go:62-63 | the scripted image carries the argument as its identifier, and every other field is zero |
| Driver.InstanceIP | builder/oci/driver_mock.go:91-94 | the address is `private_ip` exactly when the private address is asked for, and `ip` otherwise |
| Driver.DriverMock.constructor | builder/oci/driver_mock.go:14-38 | a fresh double has no error set up and nothing recorded |
| Driver.DriverMock.CreateInstance | builder/oci/driver_mock.go:40-55 | with an error set up, it returns `""` and that error and leaves the instance and the captured toggle alone; otherwise it records and returns `ocid1...` and copies the configuration's legacy-IMDS toggle unchanged, nil included |
| Driver.DriverMock.CreateImage | builder/oci/driver_mock.go:57-64 | with an error set up, it returns the zero image and that error, and the record is unchanged; otherwise it returns an image whose identifier is the argument and records the argument |
| Driver.DriverMock.UpdateImageCapabilitySchema | builder/oci/driver_mock.go:66-73 | it returns the error set up; on success it records the image, and on error the record is unchanged |
| Driver.DriverMock.DeleteImage | builder/oci/driver_mock.go:75-84 | it returns the error set up; on success it records the image, and on error the record is unchanged |
| Driver.DriverMock.GetInstanceIP | builder/oci/driver_mock.go:86-95 | with an error set up, it returns `""` and that error; otherwise it returns the private or the public address as the configuration says, and the configuration must then be set |
| Driver.DriverMock.TerminateInstance | builder/oci/driver_mock.go:97-106 | it returns the error set up; on success it records the instance, and on error the record is unchanged |
| Driver.DriverMock.WaitForImageCreation | builder/oci/driver_mock.go:108-112 | it returns exactly the error set up and changes no field |
| Driver.DriverMock.WaitForInstanceState | builder/oci/driver_mock.go:114-118 | it returns exactly the error set up and changes no field |
| StepImage.Wrap | builder/oci/step_image.go:34 | a wrapped error's message is the context followed by the original message |
| StepImage.SkipDoesNothing | builder/oci/step_image.go:25-28 | a skipped step continues, calls nothing on the driver and leaves the state bag as it was |
| StepImage.ImageStep | builder/oci/step_image.go:18-64 | the step is skipped exactly when `SkipCreateImage` is set, and creates an image exactly when creation, the wait and the schema update all succeed; the image is the one `CreateImage` returned |
| StepImage.HaltIff | builder/oci/step_image.go:32-55 | the step halts exactly when one of the three calls fails; it then puts the first failure under `"error"` with its context and changes nothing else |
| StepImage.ImagePublishedIff | builder/oci/step_image.go:59-63 | `"image"` is written exactly when create, wait and schema update all succeed, and it is the image that `CreateImage` returned |
| StepImage.IdentifiersThreaded | builder/oci/step_image.go:22-49 | `CreateImage` gets the bag's instance; the wait and the schema update each get the identifier of the created image; the wait only follows a created image, and the schema update only a finished wait |
| StepImage.StepImage.Run | builder/oci/step_image.go:18-64 | the action, the bag and the driver calls are those of the step's specification for the driver's set-up errors; the driver records the instance and the image as on a successful call |
| StepImage.StepImage.Cleanup | builder/oci/step_image.go:66-68 | the state bag is unchanged |
| StepImage.ScenarioStepImage | builder/oci/step_image_test.go:14-28 | with nothing failing, the step continues and the bag holds an image |
| StepImage.ScenarioCreateImageErr | builder/oci/step_image_test.go:30-51 | when `CreateImage` fails, the step halts, the bag holds an error and holds no image |
| StepImage.ScenarioWaitForImageCreationErr | builder/oci/step_image_test.go:53-74 | when the wait fails, the step halts, the bag holds an error and holds no image |
| StepImage.ScenarioUpdateSchemaErr | builder/oci/step_image.go:49-55 | when the schema update fails, the step halts, the bag holds an error and holds no image |
| StepImage.ScenarioSkip | builder/oci/step_image.go:25-28 | a skipping step continues; no image is published and the driver records no image |
| OciArtifact.Artifact.Files | builder/oci/artifact.go:32-36 | an artifact has no local files |
| OciArtifact.Artifact.Id | builder/oci/artifact.go:38-41 | the identifier is the image's OCID |
| OciArtifact.Artifact.DisplayName | builder/oci/artifact.go:44-47 | the display name shown is empty when the image has none, and is the image's own otherwise |
| OciArtifact.Artifact.String | builder/oci/artifact.go:43-53 | the description opens with `An image was created: '` and closes with the OCID and the region |
| OciArtifact.StringEmbeds | builder/oci/artifact.go:43-53 | the description is the fixed opening, the display name, the OCID and the region, in that order |
| OciArtifact.StringNilDisplayName | builder/oci/artifact.go:44-47 | a missing display name is described exactly like an empty one |
| OciArtifact.StateLookup | builder/oci/artifact.go:55-61 | any name except the reserved one is looked up in the state data, and is nil when it is absent |
| OciArtifact.Artifact.State | builder/oci/artifact.go:55-61 | the reserved name yields the registry metadata with the region and the source image; any other name yields its state-data value when present and nil otherwise |
| OciArtifact.StateDataExample | builder/oci/artifact_test.go:20-44 | a present key yields its value; an absent key, and any key of empty state data, yield nil |
| OciArtifact.RegistryLabels | builder/oci/artifact.go:70-90 | the labels use only the five known keys |
| OciArtifact.LabelsOverAdd | builder/oci/artifact.go:70-90 | considering one more label key adds its label exactly when its field is set |
| OciArtifact.RegistryLabelsSpec | builder/oci/artifact.go:72-90 | each label is present exactly when its field is set (a non-nil pointer, or a non-empty launch mode) and carries the field's value; the billable size reads back as the number it renders |
| OciArtifact.RegistryLabelsExample | builder/oci/artifact_test.go:46-79 | the image of the registry-metadata test gets exactly the five expected labels, with the size rendered as `10` |
| OciArtifact.Artifact.BuildRegistryMetadata | builder/oci/artifact.go:68-92 | the labels inserted one after the other, with the region and the source image, are the registry metadata that `State` yields for the reserved name |
| OciArtifact.Artifact.Destroy | builder/oci/artifact.go:63-66 | it calls `DeleteImage` with exactly the image's identifier and returns that call's error |

## Left out

- The `Driver` interface (builder/oci/driver.go) is not a separate type. The step and `Destroy` are written
  against the scripted driver, which is the only implementation in the modelled code. The step's specification
  `ImageStep` takes the driver's answers as inputs, so the step's contract does not depend on the double.
- The `driver`, `ui` and `config` entries of the state bag: `Run` receives the driver as a parameter, and user
  interface output (`ui.Say`, `ui.Error`) has no effect on control flow, so it is not modelled.
- `DriverMock.Calls` is a ghost log of the calls made on the double. Go has no such field; the log exists so
  that "no call was made" and "the call got this identifier" can be stated.
- Driver.DriverMock.UpdateImageCapabilitySchema: it does not return the response value, which is always the
  zero struct in the double.
- Driver.DriverMock.WaitForImageCreation: it does not model real polling, timeouts or cancellation; the double
  returns at once, which is all the modelled code does.
- Credential and provider resolution (builder/oci/config.go:226-314, 462-478) goes through the SDK, the file
  system and the OS user. The tenancy OCID is a parameter of `Prepare`, and the errors of that branch are not
  modelled: the model assumes every provider call succeeds. In Go, a failing call returns at once (lines 228,
  233, 251, 257 and 284), discarding the errors gathered so far and skipping every default.
- Template decoding, communicator setup and JSON decoding of defined tags (builder/oci/config.go:156-185) call
  foreign libraries.
- OciConfig.FillImageName: the name `packer-{{timestamp}}` depends on the clock, so it is a parameter, and the
  template-rendering error at lines 401-404 is not modelled.
- `user_data_file` handling: the existence check, the read and the base64 normalisation (section 4 of RFC 4648)
  at builder/oci/config.go:413-432 are file I/O and a library call. Only the mutual exclusion at 411-412 is
  modelled.
- OciConfig.Config.Prepare: Go fills the VNIC subnet and the filter's compartment and shape with pointers to the
  configuration's own fields. The model copies the values, so later writes to `SubnetID`, `CompartmentID` or
  `Shape` are not seen through those pointers.
- OciConfig.Config.Prepare: the model reads the configuration's values once and runs the checks on them
  (`Validate`). This is the same as Go, because no check reads a field after `Prepare` has filled it: the subnet check
  (builder/oci/config.go:351) runs before the VNIC subnet is filled (357), and the base-image check (363) before
  the filter is filled (368-374). Go's `MultiError` is
  a list of errors; the errors are kept by kind with their text (`ConfigError.Message`).
- `Config` represents only the fields the modelled checks read or write, plus the two flags and the option that
  the step and the double use.
- `image.FromArtifact` (builder/oci/artifact.go:92-99) is a foreign constructor. `State` returns what is passed
  to it (region, source image and labels), and its failure path is not modelled.
- OciArtifact.Artifact.State: `StateData` values are Go `interface{}` values; the model keeps strings, and a nil
  map reads like an empty one.
- Go strings are byte strings, while `string` here is a sequence of Unicode scalar values, so a tag key or value
  that is not valid UTF-8 cannot be represented; `Utf8Len` counts the bytes of valid text only.
- `BuilderId` is a constant defined in a file that is not part of this model.
- The multistep runner (step order, halting and reverse-order cleanup) lives outside the repository.
- `stepCreateInstance` and the classic builder are not part of this model. For instance creation, only the
  double's capture of the legacy-IMDS toggle is modelled.
