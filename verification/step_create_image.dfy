/** The step that turns the instance's disk into an image
    (builder/linode/step_create_image.go). It reads "config", "ui", "disk" and
    "instance", and writes "image" only when it continues. It owns no
    resource, so its cleanup does nothing. */
module StepCreateImage {
  import opened Wrappers
  import opened LinodeConfig
  import opened Api
  import opened Multistep
  import opened Helper

  /** Outcomes of the four client calls `Run` can make; `None` is success for
      the two calls whose result the step does not keep. */
  datatype Client = Client(
    eventPoller: Option<string>,
    createImage: Result<Image, string>,
    waitForFinished: Option<string>,
    getImage: Result<Image, string>)

  const MsgCreating: string := "Creating image..."
  const PrefixPoller: string := "Failed to create event poller"
  const PrefixCreate: string := "Failed to create image"
  const PrefixWait: string := "Failed to wait for image creation"
  const PrefixGet: string := "Failed to get image"

  /** `Get` of the four keys, with their type assertions, succeeds. */
  predicate CanRun(bag: Bag) {
    && "config" in bag && bag["config"].ConfigValue?
    && "ui" in bag && bag["ui"].UiHandle?
    && "disk" in bag && bag["disk"].DiskValue?
    && "instance" in bag && bag["instance"].InstanceValue?
  }

  /** The image request: the stored disk, with the configured label and description. */
  function ImageOptions(bag: Bag): (o: ImageCreateOptions)
    requires CanRun(bag)
    ensures o.diskId == bag["disk"].disk.id
    ensures o.labelText == bag["config"].config.imageLabel
    ensures o.description == bag["config"].config.description
  {
    var c := bag["config"].config;
    ImageCreateOptions(bag["disk"].disk.id, c.imageLabel, c.description)
  }

  function Fail(bag: Bag, calls: seq<Call>, said: seq<UiLine>, prefix: string, cause: string): (r: StepResult)
    ensures r.action == Halt && r.calls == calls
    ensures Writes(bag, r.bag, map[ErrorKey := ErrorValue(Wrap(prefix, cause))])
    ensures r.ui == said + [ErrorLine(Wrap(prefix, cause))]
  {
    var h := ErrorHelper(bag, prefix, cause);
    StepResult(h.action, h.bag, calls, said + [h.line])
  }

  /** The prefix of the first failing call, tried in call order. */
  function FirstFailure(client: Client): Option<(string, string)> {
    if client.eventPoller.Some? then Some((PrefixPoller, client.eventPoller.value))
    else if client.createImage.Failure? then Some((PrefixCreate, client.createImage.error))
    else if client.waitForFinished.Some? then Some((PrefixWait, client.waitForFinished.value))
    else if client.getImage.Failure? then Some((PrefixGet, client.getImage.error))
    else None
  }

  /** Number of calls made before and including the first failure. */
  function CallsMade(client: Client): nat {
    if client.eventPoller.Some? then 1
    else if client.createImage.Failure? then 2
    else if client.waitForFinished.Some? then 3
    else 4
  }

  /** Creates the image and stores the re-fetched image. The first failing
      call decides the error, later calls are skipped, and the bag changes
      only by that error; on success it changes only by "image". */
  function Run(bag: Bag, client: Client): (r: StepResult)
    requires CanRun(bag)
    ensures ErrorKey !in bag ==> (r.action == Halt <==> ErrorKey in r.bag)
    ensures r.action == Continue <==> FirstFailure(client).None?
    ensures FirstFailure(client).Some? ==>
      var (prefix, cause) := FirstFailure(client).value;
      && Writes(bag, r.bag, map[ErrorKey := ErrorValue(Wrap(prefix, cause))])
      && |r.ui| > 0 && r.ui[|r.ui| - 1] == ErrorLine(Wrap(prefix, cause))
    ensures FirstFailure(client).None? ==>
      Writes(bag, r.bag, map["image" := ImageValue(client.getImage.value)])
    ensures |r.calls| == CallsMade(client)
    ensures r.calls[0] == NewEventPoller(bag["instance"].instance.id, EntityLinode, ActionDiskImagize)
    ensures |r.calls| >= 2 ==> r.calls[1] == CreateImage(ImageOptions(bag))
    ensures |r.calls| >= 3 ==> r.calls[2] == WaitForFinished(WholeSeconds(bag["config"].config.imageCreateTimeout))
    ensures |r.calls| == 4 ==> r.calls[3] == GetImage(client.createImage.value.id)
  {
    var instance := bag["instance"].instance;
    var c := bag["config"].config;
    var calls := [NewEventPoller(instance.id, EntityLinode, ActionDiskImagize)];
    match client.eventPoller
    case Some(e) => Fail(bag, calls, [], PrefixPoller, e)
    case None =>
      var said := [Say(MsgCreating)];
      var calls := calls + [CreateImage(ImageOptions(bag))];
      match client.createImage
      case Failure(e) => Fail(bag, calls, said, PrefixCreate, e)
      case Success(created) =>
        var calls := calls + [WaitForFinished(WholeSeconds(c.imageCreateTimeout))];
        match client.waitForFinished
        case Some(e) => Fail(bag, calls, said, PrefixWait, e)
        case None =>
          var calls := calls + [GetImage(created.id)];
          match client.getImage
          case Failure(e) => Fail(bag, calls, said, PrefixGet, e)
          case Success(fetched) => StepResult(Continue, bag["image" := ImageValue(fetched)], calls, said)
  }

  /** The step creates nothing it must undo: no call, no output, and the bag
      is not touched. */
  function Cleanup(bag: Bag): (r: CleanupResult)
    ensures r.calls == [] && r.ui == []
  {
    CleanupResult([], [])
  }
}
