/** The parts of the cloud SDK's `core.Image` that the builder reads, and the
    values the image step keeps in the build's state bag. */
module OciCore {
  import opened Common

  /** `core.Image`: the optional fields are Go pointers, the launch mode an
      enumeration whose zero value is the empty string. */
  datatype Image = Image(
    Id: Option<string>,
    DisplayName: Option<string>,
    CompartmentId: Option<string>,
    LaunchMode: string,
    OperatingSystem: Option<string>,
    OperatingSystemVersion: Option<string>,
    BaseImageId: Option<string>,
    BillableSizeInGBs: Option<Int64>)

  /** The zero `core.Image{}`. */
  const ZeroImage := Image(None, None, None, "", None, None, None, None)

  /** The values the image step reads from and writes to the state bag. */
  datatype Value =
    | StringValue(text: string)
    | ImageValue(image: Image)
    | ErrorValue(error: Error)
}
