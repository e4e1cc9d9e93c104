/** `stepImage`: turns the build instance into a custom image. It creates the
    image, waits for it to become available and updates its capability
    schema, stopping at the first failure, and publishes the image in the
    state bag only when all three succeeded. */
module StepImage {
  import opened Common
  import opened OciCore
  import opened Multistep
  import opened Driver

  const CreateImageFailure := "Error creating image from instance: "
  const WaitFailure := "Error waiting for image creation to finish: "
  const SchemaFailure := "Error updating image schema: "

  /** `fmt.Errorf(prefix + "%s", err)`. */
  function Wrap(prefix: string, err: Error): (e: Error)
    ensures e.message == prefix + err.message
  {
    Error(prefix + err.message)
  }

  /** How a run of the step ends. */
  datatype Outcome =
    | Skipped
    | Failed(error: Error)
    | Created(image: Image)

  /** What the step does, given the driver's answers: the error of
      `CreateImage` and the image it returns, then the errors of
      `WaitForImageCreation` and `UpdateImageCapabilitySchema`. */
  function ImageStep(skip: bool, createErr: Option<Error>, image: Image, waitErr: Option<Error>,
                     schemaErr: Option<Error>): (o: Outcome)
    ensures o.Skipped? <==> skip
    ensures o.Created? <==> !skip && createErr.None? && waitErr.None? && schemaErr.None?
    ensures o.Created? ==> o.image == image
  {
    if skip then Skipped
    else if createErr.Some? then Failed(Wrap(CreateImageFailure, createErr.value))
    else if waitErr.Some? then Failed(Wrap(WaitFailure, waitErr.value))
    else if schemaErr.Some? then Failed(Wrap(SchemaFailure, schemaErr.value))
    else Created(image)
  }

  /** The action the step returns. */
  function ActionOf(o: Outcome): StepAction
  {
    if o.Failed? then ActionHalt else ActionContinue
  }

  /** The state bag after the step: a failure is put under `"error"`, a
      created image under `"image"`. */
  function StateAfter(entries: map<string, Value>, o: Outcome): map<string, Value>
  {
    match o
    case Skipped => entries
    case Failed(e) => entries["error" := ErrorValue(e)]
    case Created(img) => entries["image" := ImageValue(img)]
  }

  /** The driver calls the step makes, in order; the image's identifier must
      be set once the image is created, as the step dereferences it. */
  function CallsMade(skip: bool, instanceID: string, createErr: Option<Error>, image: Image,
                     waitErr: Option<Error>): seq<DriverCall>
    requires !skip && createErr.None? ==> image.Id.Some?
  {
    if skip then []
    else if createErr.Some? then [CreateImageCall(instanceID)]
    else if waitErr.Some? then [CreateImageCall(instanceID), WaitForImageCreationCall(image.Id.value)]
    else [CreateImageCall(instanceID), WaitForImageCreationCall(image.Id.value),
          UpdateImageCapabilitySchemaCall(image.Id.value)]
  }

  /** A skipped step continues, calls nothing and leaves the bag alone. */
  lemma SkipDoesNothing(entries: map<string, Value>, instanceID: string, createErr: Option<Error>, image: Image,
                        waitErr: Option<Error>, schemaErr: Option<Error>)
    ensures var o := ImageStep(true, createErr, image, waitErr, schemaErr);
      && ActionOf(o) == ActionContinue
      && StateAfter(entries, o) == entries
      && CallsMade(true, instanceID, createErr, image, waitErr) == []
  {
  }

  /** The image is published exactly when creating, waiting and updating the
      schema all succeeded; it is the image `CreateImage` returned, and the
      step then continues. */
  lemma ImagePublishedIff(entries: map<string, Value>, skip: bool, createErr: Option<Error>, image: Image,
                          waitErr: Option<Error>, schemaErr: Option<Error>)
    requires "image" !in entries
    ensures var after := StateAfter(entries, ImageStep(skip, createErr, image, waitErr, schemaErr));
      ("image" in after <==> !skip && createErr.None? && waitErr.None? && schemaErr.None?)
      && ("image" in after ==> after == entries["image" := ImageValue(image)])
  {
  }

  /** The step halts exactly when one of the three calls failed, and then
      it has put the first failure, with its context, under `"error"` and has
      not published an image. */
  lemma HaltIff(entries: map<string, Value>, skip: bool, createErr: Option<Error>, image: Image,
                waitErr: Option<Error>, schemaErr: Option<Error>)
    ensures var o := ImageStep(skip, createErr, image, waitErr, schemaErr);
      && (ActionOf(o) == ActionHalt <==> !skip && (createErr.Some? || waitErr.Some? || schemaErr.Some?))
      && (ActionOf(o) == ActionHalt ==> StateAfter(entries, o) == entries["error" := ErrorValue(o.error)])
      && (!skip && createErr.Some? ==> o.error.message == CreateImageFailure + createErr.value.message)
      && (!skip && createErr.None? && waitErr.Some? ==> o.error.message == WaitFailure + waitErr.value.message)
      && (!skip && createErr.None? && waitErr.None? && schemaErr.Some? ==>
            o.error.message == SchemaFailure + schemaErr.value.message)
  {
  }

  /** `CreateImage` gets the instance, and the wait and the schema update
      both get the identifier of the image `CreateImage` returned; the wait
      only follows a created image and the schema update only a finished
      wait. */
  lemma IdentifiersThreaded(skip: bool, instanceID: string, createErr: Option<Error>, image: Image,
                            waitErr: Option<Error>)
    requires !skip && createErr.None? ==> image.Id.Some?
    ensures var calls := CallsMade(skip, instanceID, createErr, image, waitErr);
      && (forall c :: c in calls && c.CreateImageCall? ==> c.id == instanceID)
      && (forall c :: c in calls && c.WaitForImageCreationCall? ==> createErr.None? && c.id == image.Id.value)
      && (forall c :: c in calls && c.UpdateImageCapabilitySchemaCall? ==>
            createErr.None? && waitErr.None? && c.imageId == image.Id.value)
      && (forall c :: c in calls ==> c.CreateImageCall? || c.WaitForImageCreationCall? || c.UpdateImageCapabilitySchemaCall?)
      && (!skip <==> calls != [] && calls[0] == CreateImageCall(instanceID))
  {
  }

  /** The step, run against the scripted driver. */
  class StepImage {
    var SkipCreateImage: bool

    constructor (skip: bool)
      ensures SkipCreateImage == skip
    {
      SkipCreateImage := skip;
    }

    /** `Run`: the state bag must hold the instance's identifier as a string. */
    method Run(state: StateBag<Value>, driver: DriverMock) returns (action: StepAction)
      requires "instance_id" in state.entries && state.entries["instance_id"].StringValue?
      modifies state`entries, driver`CreateImageID, driver`UpdateSchemaID, driver`Calls
      ensures var id := old(state.entries["instance_id"].text);
        var o := ImageStep(SkipCreateImage, old(driver.CreateImageErr), CreatedImage(id),
          old(driver.WaitForImageCreationErr), old(driver.UpdateSchemaErr));
        && action == ActionOf(o)
        && state.entries == StateAfter(old(state.entries), o)
        && driver.Calls == old(driver.Calls)
          + CallsMade(SkipCreateImage, id, old(driver.CreateImageErr), CreatedImage(id), old(driver.WaitForImageCreationErr))
        && driver.CreateImageID == (if !SkipCreateImage && old(driver.CreateImageErr).None? then id else old(driver.CreateImageID))
        && driver.UpdateSchemaID == (if o.Created? then id else old(driver.UpdateSchemaID))
    {
      var instanceID := state.entries["instance_id"].text;
      if SkipCreateImage {
        return ActionContinue;
      }
      var image, err := driver.CreateImage(instanceID);
      if err.Some? {
        state.Put("error", ErrorValue(Wrap(CreateImageFailure, err.value)));
        return ActionHalt;
      }
      err := driver.WaitForImageCreation(image.Id.value);
      if err.Some? {
        state.Put("error", ErrorValue(Wrap(WaitFailure, err.value)));
        return ActionHalt;
      }
      err := driver.UpdateImageCapabilitySchema(image.Id.value);
      if err.Some? {
        state.Put("error", ErrorValue(Wrap(SchemaFailure, err.value)));
        return ActionHalt;
      }
      state.Put("image", ImageValue(image));
      return ActionContinue;
    }

    /** `Cleanup`: there is nothing to undo. */
    method Cleanup(state: StateBag<Value>)
      ensures state.entries == old(state.entries)
    {
    }
  }

  /** A fresh bag holding the instance `ocid1...` and a scripted driver with
      no error set up. */
  method TestState() returns (state: StateBag<Value>, driver: DriverMock)
    ensures fresh(state) && fresh(driver)
    ensures state.entries == map["instance_id" := StringValue(MockInstanceID)]
    ensures driver.CreateImageErr == driver.WaitForImageCreationErr == driver.UpdateSchemaErr == None
    ensures driver.CreateImageID == driver.UpdateSchemaID == ""
    ensures driver.Calls == []
  {
    var config := new OciConfig.Config();
    driver := new DriverMock(config);
    state := new StateBag<Value>();
    state.Put("instance_id", StringValue(MockInstanceID));
  }

  /** With nothing failing, the step continues and publishes the image. */
  method ScenarioStepImage() returns (action: StepAction, hasImage: bool)
    ensures action == ActionContinue && hasImage
  {
    var state, driver := TestState();
    var step := new StepImage(false);
    action := step.Run(state, driver);
    hasImage := state.GetOk("image").Some?;
    step.Cleanup(state);
  }

  /** When `CreateImage` fails, the step halts with an error and no image. */
  method ScenarioCreateImageErr() returns (action: StepAction, hasError: bool, hasImage: bool)
    ensures action == ActionHalt && hasError && !hasImage
  {
    var state, driver := TestState();
    var step := new StepImage(false);
    driver.CreateImageErr := Some(Error("error"));
    action := step.Run(state, driver);
    hasError := state.GetOk("error").Some?;
    hasImage := state.GetOk("image").Some?;
    step.Cleanup(state);
  }

  /** When the wait fails, the step halts with an error and no image. */
  method ScenarioWaitForImageCreationErr() returns (action: StepAction, hasError: bool, hasImage: bool)
    ensures action == ActionHalt && hasError && !hasImage
  {
    var state, driver := TestState();
    var step := new StepImage(false);
    driver.WaitForImageCreationErr := Some(Error("error"));
    action := step.Run(state, driver);
    hasError := state.GetOk("error").Some?;
    hasImage := state.GetOk("image").Some?;
    step.Cleanup(state);
  }

  /** When the schema update fails, the step halts with an error and no
      image. */
  method ScenarioUpdateSchemaErr() returns (action: StepAction, hasError: bool, hasImage: bool)
    ensures action == ActionHalt && hasError && !hasImage
  {
    var state, driver := TestState();
    var step := new StepImage(false);
    driver.UpdateSchemaErr := Some(Error("error"));
    action := step.Run(state, driver);
    hasError := state.GetOk("error").Some?;
    hasImage := state.GetOk("image").Some?;
    step.Cleanup(state);
  }

  /** A skipping step continues without calling the driver, so no image is
      recorded or published. */
  method ScenarioSkip() returns (action: StepAction, hasImage: bool, recorded: string)
    ensures action == ActionContinue && !hasImage && recorded == ""
  {
    var state, driver := TestState();
    var step := new StepImage(true);
    action := step.Run(state, driver);
    hasImage := state.GetOk("image").Some?;
    recorded := driver.CreateImageID;
    assert driver.Calls == [];
    step.Cleanup(state);
  }
}
