/** The step that creates the build instance, waits for it to run and picks
    its disk (builder/linode/step_create_linode.go).

    It reads "config" and "ui"; it writes "instance" and "instance_id" as soon
    as the instance exists, replaces "instance" once it runs, and writes
    "disk" only when it continues. Its cleanup deletes the instance when
    "instance" was ever written. */
module StepCreateLinode {
  import opened Wrappers
  import opened Interfaces
  import opened LinodeConfig
  import opened Api
  import opened Multistep
  import opened Helper

  /** Outcomes of the three client calls `Run` can make. */
  datatype Client = Client(
    createInstance: Result<Instance, string>,
    waitForRunning: Result<Instance, string>,
    listDisks: Result<seq<Disk>, string>)

  const MsgCreating: string := "Creating Linode..."
  const PrefixCreate: string := "Failed to create Linode Instance"
  const PrefixWait: string := "Failed to wait for Linode ready"
  const PrefixDisk: string := "Failed to find instance disk"
  const NoSuitableDisk: string := "no suitable disk was found"
  const PrefixCleanup: string := "Error cleaning up Linode: "

  /** The SSH public key, when there is one, ahead of the configured keys. */
  function AuthorizedKeys(c: Config): (keys: seq<string>)
    ensures c.comm.sshPublicKey == "" ==> keys == c.authorizedKeys
    ensures c.comm.sshPublicKey != "" ==>
      (|keys| == |c.authorizedKeys| + 1 && keys[0] == c.comm.sshPublicKey && keys[1..] == c.authorizedKeys)
  {
    (if c.comm.sshPublicKey != "" then [c.comm.sshPublicKey] else []) + c.authorizedKeys
  }

  /** The instance create request built from the configuration: the scalar
      settings are passed through, the label is the instance label, interface
      lists are omitted when empty and otherwise carry every configured
      interface in order (the new-generation ones minus the VPC address
      fields the mapper drops), and metadata is sent only with user data. */
  function CreateOptions(c: Config): (o: InstanceCreateOptions)
    ensures o.rootPass == c.comm.sshPassword
    ensures o.authorizedKeys == AuthorizedKeys(c) && o.authorizedUsers == c.authorizedUsers
    ensures o.region == c.region && o.instanceType == c.instanceType && o.image == c.image
    ensures o.labelText == c.instanceLabel && o.tags == c.tags && o.swapSize == c.swapSize
    ensures o.stackScriptId == c.stackScriptId && o.stackScriptData == c.stackScriptData
    ensures o.privateIp == c.privateIp && o.firewallId == c.firewallId
    ensures o.interfaceGeneration == c.interfaceGeneration
    ensures o.interfaces.None? <==> c.interfaces == []
    ensures o.linodeInterfaces.None? <==> c.linodeInterfaces == []
    ensures o.interfaces.Some? ==> |o.interfaces.value| == |c.interfaces|
    ensures o.interfaces.Some? ==> forall k :: 0 <= k < |c.interfaces| ==>
      UnflattenConfigInterface(o.interfaces.value[k]) == c.interfaces[k]
    ensures o.linodeInterfaces.Some? ==> |o.linodeInterfaces.value| == |c.linodeInterfaces|
    ensures o.linodeInterfaces.Some? ==> forall k :: 0 <= k < |c.linodeInterfaces| ==>
      o.linodeInterfaces.value[k] == FlattenLinodeInterface(c.linodeInterfaces[k])
    ensures o.linodeInterfaces.Some? ==> forall k :: 0 <= k < |c.linodeInterfaces| ==>
      UnflattenLinodeInterface(o.linodeInterfaces.value[k])
        == c.linodeInterfaces[k].(vpc := StripVpcInterface(c.linodeInterfaces[k].vpc))
    ensures o.metadata.None? <==> c.metadata.userData == ""
    ensures UnflattenMetadata(o.metadata) == c.metadata
  {
    MetadataRoundTrip(c.metadata);
    var interfaces := FlattenConfigInterfaces(c.interfaces);
    var linodeInterfaces := FlattenLinodeInterfaces(c.linodeInterfaces);
    InstanceCreateOptions(
      c.comm.sshPassword,
      AuthorizedKeys(c),
      c.authorizedUsers,
      c.privateIp,
      c.region,
      c.stackScriptId,
      c.stackScriptData,
      c.instanceType,
      c.instanceLabel,
      c.image,
      c.swapSize,
      c.tags,
      c.firewallId,
      FlattenMetadata(c.metadata),
      c.interfaceGeneration,
      if |interfaces| > 0 then Some(interfaces) else None,
      if |linodeInterfaces| > 0 then Some(linodeInterfaces) else None)
  }

  /** `disks[k]` is not swap and every disk before it is. */
  ghost predicate IsFirstNonSwap(disks: seq<Disk>, k: int) {
    && 0 <= k < |disks|
    && disks[k].filesystem != FilesystemSwap
    && forall j :: 0 <= j < k ==> disks[j].filesystem == FilesystemSwap
  }

  /** The first disk that is not swap, if any. */
  function FindDisk(disks: seq<Disk>): (r: Option<Disk>)
    ensures r.None? <==> forall k :: 0 <= k < |disks| ==> disks[k].filesystem == FilesystemSwap
    ensures r.Some? ==> r.value.filesystem != FilesystemSwap
    ensures r.Some? ==> exists k :: IsFirstNonSwap(disks, k) && disks[k] == r.value
  {
    if disks == [] then None
    else if disks[0].filesystem != FilesystemSwap then
      assert IsFirstNonSwap(disks, 0);
      Some(disks[0])
    else
      var rest := FindDisk(disks[1..]);
      assert forall k :: 1 <= k < |disks| ==> disks[k] == disks[1..][k - 1];
      assert forall k :: IsFirstNonSwap(disks[1..], k) ==> IsFirstNonSwap(disks, k + 1);
      rest
  }

  /** `Get("config")` and `Get("ui")` with their type assertions succeed. */
  predicate CanRun(bag: Bag) {
    && "config" in bag && bag["config"].ConfigValue?
    && "ui" in bag && bag["ui"].UiHandle?
  }

  /** The failure path: the error helper's bag and line, after the calls made so far. */
  function Fail(bag: Bag, calls: seq<Call>, prefix: string, cause: string): (r: StepResult)
    ensures r.action == Halt && r.calls == calls
    ensures Writes(bag, r.bag, map[ErrorKey := ErrorValue(Wrap(prefix, cause))])
    ensures r.ui == [Say(MsgCreating), ErrorLine(Wrap(prefix, cause))]
  {
    var h := ErrorHelper(bag, prefix, cause);
    StepResult(h.action, h.bag, calls, [Say(MsgCreating), h.line])
  }

  /** Creates the instance, waits for it to run and stores its disk. It
      halts exactly when it stores an error, whose text is the last line it
      shows; it continues exactly when every call succeeds and some disk is
      not swap. Its calls come in a fixed order and stop at the first
      failure. */
  function Run(bag: Bag, client: Client): (r: StepResult)
    requires CanRun(bag)
    ensures ErrorKey !in bag ==> (r.action == Halt <==> ErrorKey in r.bag)
    ensures r.action == Halt ==>
      (ErrorKey in r.bag && r.bag[ErrorKey].ErrorValue?
       && |r.ui| > 0 && r.ui[|r.ui| - 1] == ErrorLine(r.bag[ErrorKey].message))
    ensures r.action == Continue <==>
      && client.createInstance.Success?
      && client.waitForRunning.Success?
      && client.listDisks.Success?
      && exists k :: 0 <= k < |client.listDisks.value| && client.listDisks.value[k].filesystem != FilesystemSwap
    ensures |r.calls| == (if client.createInstance.Failure? then 1
                          else if client.waitForRunning.Failure? then 2 else 3)
    ensures r.calls[0] == CreateInstance(CreateOptions(bag["config"].config))
    ensures |r.calls| >= 2 ==> r.calls[1] == WaitForInstanceStatus(
      client.createInstance.value.id, InstanceRunning, WholeSeconds(bag["config"].config.stateTimeout))
    ensures |r.calls| == 3 ==> r.calls[2] == ListInstanceDisks(client.waitForRunning.value.id)
  {
    var c := bag["config"].config;
    var calls := [CreateInstance(CreateOptions(c))];
    match client.createInstance
    case Failure(e) => Fail(bag, calls, PrefixCreate, e)
    case Success(created) =>
      var bag := bag["instance" := InstanceValue(created)]["instance_id" := InstanceIdValue(created.id)];
      var calls := calls + [WaitForInstanceStatus(created.id, InstanceRunning, WholeSeconds(c.stateTimeout))];
      match client.waitForRunning
      case Failure(e) => Fail(bag, calls, PrefixWait, e)
      case Success(running) =>
        var bag := bag["instance" := InstanceValue(running)];
        var calls := calls + [ListInstanceDisks(running.id)];
        match client.listDisks
        case Failure(e) => Fail(bag, calls, PrefixDisk, e)
        case Success(disks) =>
          match FindDisk(disks)
          case None => Fail(bag, calls, PrefixDisk, NoSuitableDisk)
          case Some(disk) => StepResult(Continue, bag["disk" := DiskValue(disk)], calls, [Say(MsgCreating)])
  }

  /** `Get("ui")` is reached only when an instance is stored. */
  predicate CanCleanup(bag: Bag) {
    "instance" in bag ==> bag["instance"].InstanceValue? && "ui" in bag && bag["ui"].UiHandle?
  }

  /** Deletes the stored instance, if any; a failed delete is only shown.
      `deleteError` is the outcome of the delete call. */
  function Cleanup(bag: Bag, deleteError: Option<string>): (r: CleanupResult)
    requires CanCleanup(bag)
    ensures "instance" !in bag ==> r.calls == [] && r.ui == []
    ensures "instance" in bag ==> r.calls == [DeleteInstance(bag["instance"].instance.id)]
    ensures "instance" in bag && deleteError.Some? ==> r.ui == [ErrorLine(PrefixCleanup + deleteError.value)]
    ensures deleteError.None? ==> r.ui == []
  {
    match GetOk(bag, "instance")
    case None => CleanupResult([], [])
    case Some(v) =>
      var calls := [DeleteInstance(v.instance.id)];
      match deleteError
      case None => CleanupResult(calls, [])
      case Some(e) => CleanupResult(calls, [ErrorLine(PrefixCleanup + e)])
  }

  // ---- What the step promises ----

  /** The bag after each failure: nothing of the instance when creation
      fails; the created instance and its ID when the wait fails; the running
      instance when no disk is found. "disk" is never written on failure. */
  lemma RunFailureBag(bag: Bag, client: Client)
    requires CanRun(bag)
    ensures var r := Run(bag, client);
      && (client.createInstance.Failure? ==>
            Writes(bag, r.bag, map[ErrorKey := ErrorValue(Wrap(PrefixCreate, client.createInstance.error))]))
      && (client.createInstance.Success? && client.waitForRunning.Failure? ==>
            var created := client.createInstance.value;
            Writes(bag, r.bag, map[
              "instance" := InstanceValue(created),
              "instance_id" := InstanceIdValue(created.id),
              ErrorKey := ErrorValue(Wrap(PrefixWait, client.waitForRunning.error))]))
      && (client.createInstance.Success? && client.waitForRunning.Success? && client.listDisks.Failure? ==>
            var created, running := client.createInstance.value, client.waitForRunning.value;
            Writes(bag, r.bag, map[
              "instance" := InstanceValue(running),
              "instance_id" := InstanceIdValue(created.id),
              ErrorKey := ErrorValue(Wrap(PrefixDisk, client.listDisks.error))]))
      && (client.createInstance.Success? && client.waitForRunning.Success? && client.listDisks.Success?
          && FindDisk(client.listDisks.value).None? ==>
            var created, running := client.createInstance.value, client.waitForRunning.value;
            Writes(bag, r.bag, map[
              "instance" := InstanceValue(running),
              "instance_id" := InstanceIdValue(created.id),
              ErrorKey := ErrorValue(Wrap(PrefixDisk, NoSuitableDisk))]))
  {
    if client.createInstance.Success? {
      var created := client.createInstance.value;
      var stored := bag["instance" := InstanceValue(created)]["instance_id" := InstanceIdValue(created.id)];
      if client.waitForRunning.Failure? {
        WritesAfterStore(bag, stored, InstanceValue(created), InstanceIdValue(created.id),
          ErrorValue(Wrap(PrefixWait, client.waitForRunning.error)));
      } else {
        var running := client.waitForRunning.value;
        var stored' := stored["instance" := InstanceValue(running)];
        assert stored' == bag["instance" := InstanceValue(running)]["instance_id" := InstanceIdValue(created.id)];
        if client.listDisks.Failure? {
          WritesAfterStore(bag, stored', InstanceValue(running), InstanceIdValue(created.id),
            ErrorValue(Wrap(PrefixDisk, client.listDisks.error)));
        } else if FindDisk(client.listDisks.value).None? {
          WritesAfterStore(bag, stored', InstanceValue(running), InstanceIdValue(created.id),
            ErrorValue(Wrap(PrefixDisk, NoSuitableDisk)));
        }
      }
    }
  }

  /** Storing the instance and its ID, then an error, writes exactly those three keys. */
  lemma WritesAfterStore(bag: Bag, stored: Bag, instance: Value, id: Value, err: Value)
    requires stored == bag["instance" := instance]["instance_id" := id]
    ensures Writes(bag, stored[ErrorKey := err], map["instance" := instance, "instance_id" := id, ErrorKey := err])
  {
  }

  /** On success the bag gains the running instance, the created instance's
      ID and the first non-swap disk, and nothing else changes. */
  lemma RunSuccessBag(bag: Bag, client: Client)
    requires CanRun(bag)
    requires Run(bag, client).action == Continue
    ensures client.createInstance.Success? && client.waitForRunning.Success? && client.listDisks.Success?
    ensures var disk := FindDisk(client.listDisks.value);
      && disk.Some?
      && Writes(bag, Run(bag, client).bag, map[
           "instance" := InstanceValue(client.waitForRunning.value),
           "instance_id" := InstanceIdValue(client.createInstance.value.id),
           "disk" := DiskValue(disk.value)])
  {
  }

  /** Cleanup after `Run` deletes an instance exactly when one was created,
      and it is the one `Run` stored last. */
  lemma RunThenCleanup(bag: Bag, client: Client, deleteError: Option<string>)
    requires CanRun(bag) && "instance" !in bag
    ensures CanCleanup(Run(bag, client).bag)
    ensures var r := Cleanup(Run(bag, client).bag, deleteError);
      && (client.createInstance.Failure? ==> r.calls == [] && r.ui == [])
      && (client.createInstance.Success? ==>
            var stored := if client.waitForRunning.Success? then client.waitForRunning.value else client.createInstance.value;
            r.calls == [DeleteInstance(stored.id)])
  {
  }
}
