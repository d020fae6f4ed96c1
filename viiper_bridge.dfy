/**
 * The bridge between the input handler and the VIIPER server: it asks the
 * server for virtual devices, keeps the id of the bus those devices live on,
 * holds one outbound input queue per connected device, and reports every
 * asynchronous result back to the SDL thread as a `ViiperEvent`.
 *
 * The server is not modelled; each of its answers is a parameter of the
 * method that completes the request. The asynchronous tasks are kept in
 * `tasks` and complete one at a time, in any order, through `CompleteCreate`
 * and `CompleteConnect`.
 */
module ViiperBridge {
  import opened Wrappers

  type Byte = b: nat | b < 256

  /** The descriptor the server returns for a created virtual device. */
  datatype ViiperDevice = ViiperDevice(busId: nat, devId: string, vid: string, pid: string)

  /** One Xbox 360 input report (`xbox360::Xbox360Input`). */
  datatype Frame = Frame(buttons: nat, lt: nat, rt: nat, lx: int, ly: int, rx: int, ry: int)

  const NeutralFrame := Frame(0, 0, 0, 0, 0, 0, 0)

  /** Results delivered to the SDL thread. */
  datatype ViiperEvent =
    | ServerDisconnected(deviceId: nat)
    | DeviceCreated(deviceId: nat, viiperDevice: ViiperDevice)
    | DeviceConnected(deviceId: nat)
    | DeviceRumble(deviceId: nat, l: Byte, r: Byte)
    | ErrorCreateDevice(deviceId: nat)
    | ErrorConnectDevice(deviceId: nat)

  /** The calls the handler makes on the bridge, in the order it makes them. */
  datatype Request =
    | CreateRequest(deviceId: nat, viiperType: string)
    | ConnectRequest(deviceId: nat, target: Option<ViiperDevice>)
    | RemoveRequest(deviceId: nat)
    | UpdateRequest(deviceId: nat, frame: Frame)

  /** A spawned task that has not finished yet. */
  datatype Task =
    | CreateTask(deviceId: nat, viiperType: string)
    | ConnectTask(deviceId: nat, target: ViiperDevice)

  /** What `ensure_bus` did: its result, and whether it listed and created buses. */
  datatype BusOutcome = BusOutcome(result: Result<nat, string>, listed: bool, created: bool)

  /**
   * `ensure_bus`: a cached bus that the server still lists is reused;
   * otherwise (no cache, or a stale one) exactly one bus is created.
   * `listing` and `creation` are the server's answers to `bus_list` and
   * `bus_create`; a failed listing propagates through `?`.
   */
  function EnsureBus(cached: Option<nat>, listing: Result<set<nat>, string>, creation: Result<nat, string>): (o: BusOutcome)
    ensures o.listed <==> cached.Some?
    ensures o.created <==> cached.None? || (listing.Ok? && cached.value !in listing.value)
    ensures o.result.Ok? && !o.created ==> cached == Some(o.result.value) && listing.Ok? && o.result.value in listing.value
    ensures o.result.Ok? && o.created ==> creation == Ok(o.result.value)
    ensures o.result.Err? <==> (cached.Some? && listing.Err?) || (o.created && creation.Err?)
  {
    if cached.Some? && listing.Err? then
      BusOutcome(Err(listing.error), true, false)
    else if cached.Some? && cached.value in listing.value then
      BusOutcome(Ok(cached.value), true, false)
    else
      match creation
      case Ok(id) => BusOutcome(Ok(id), cached.Some?, true)
      case Err(e) => BusOutcome(Err(e), cached.Some?, true)
  }

  /** A cache hit never creates a bus and returns the cached id. */
  lemma EnsureBusReusesListed(id: nat, buses: set<nat>, creation: Result<nat, string>)
    requires id in buses
    ensures EnsureBus(Some(id), Ok(buses), creation) == BusOutcome(Ok(id), true, false)
  {
  }

  /** Without a cache the bus list is not consulted at all. */
  lemma EnsureBusIgnoresListingWithoutCache(l1: Result<set<nat>, string>, l2: Result<set<nat>, string>, creation: Result<nat, string>)
    ensures EnsureBus(None, l1, creation) == EnsureBus(None, l2, creation)
  {
  }

  /**
   * `read_exact` of an `outputSize`-byte output report from what the server
   * has sent: rumble is byte 0 (left) and byte 1 (right); a short read
   * yields nothing.
   */
  function DecodeRumble(available: seq<Byte>, outputSize: nat): (r: Option<(Byte, Byte)>)
    requires outputSize >= 2
    ensures r.Some? <==> |available| >= outputSize
    ensures r.Some? ==> r.value == (available[0], available[1])
  {
    if |available| < outputSize then None else Some((available[0], available[1]))
  }

  /** The part of the bridge that the handler's calls change. */
  datatype Outbox = Outbox(senders: map<nat, seq<Frame>>, pushed: seq<ViiperEvent>, requests: seq<Request>, tasks: seq<Task>)

  /** `push_event`: delivered when the SDL sender exists, silently dropped otherwise. */
  function Deliver(wakerSet: bool, pushed: seq<ViiperEvent>, ev: ViiperEvent): seq<ViiperEvent> {
    if wakerSet then pushed + [ev] else pushed
  }

  /**
   * The effect of one handler call on the bridge:
   * - `create_device` fails at once without a client, else spawns a create task;
   * - `connect_device` fails at once without a descriptor or a client, else spawns a connect task;
   * - `remove_device` drops that device's queue and nothing else;
   * - `update_device_state` queues exactly one frame iff the device has a queue.
   */
  function Apply(hasClient: bool, wakerSet: bool, o: Outbox, r: Request): (t: Outbox)
    ensures t.requests == o.requests + [r]
    ensures !r.UpdateRequest? && !r.RemoveRequest? ==> t.senders == o.senders
    ensures !r.CreateRequest? && !r.ConnectRequest? ==> t.tasks == o.tasks && t.pushed == o.pushed
    ensures r.CreateRequest? ==>
      if hasClient then t.tasks == o.tasks + [CreateTask(r.deviceId, r.viiperType)] && t.pushed == o.pushed
      else t.tasks == o.tasks && t.pushed == Deliver(wakerSet, o.pushed, ErrorCreateDevice(r.deviceId))
    ensures r.ConnectRequest? ==>
      if hasClient && r.target.Some? then t.tasks == o.tasks + [ConnectTask(r.deviceId, r.target.value)] && t.pushed == o.pushed
      else t.tasks == o.tasks && t.pushed == Deliver(wakerSet, o.pushed, ErrorConnectDevice(r.deviceId))
    ensures r.RemoveRequest? ==> t.senders == o.senders - {r.deviceId}
    ensures r.UpdateRequest? ==> t.senders.Keys == o.senders.Keys
    ensures r.UpdateRequest? ==> forall id :: id in o.senders ==>
      t.senders[id] == if id == r.deviceId then o.senders[id] + [r.frame] else o.senders[id]
  {
    var o := o.(requests := o.requests + [r]);
    match r
    case CreateRequest(id, ty) =>
      if hasClient then o.(tasks := o.tasks + [CreateTask(id, ty)])
      else o.(pushed := Deliver(wakerSet, o.pushed, ErrorCreateDevice(id)))
    case ConnectRequest(id, target) =>
      if hasClient && target.Some? then o.(tasks := o.tasks + [ConnectTask(id, target.value)])
      else o.(pushed := Deliver(wakerSet, o.pushed, ErrorConnectDevice(id)))
    case RemoveRequest(id) =>
      o.(senders := o.senders - {id})
    case UpdateRequest(id, frame) =>
      if id in o.senders then o.(senders := o.senders[id := o.senders[id] + [frame]]) else o
  }

  /** The effect of several handler calls, in order. */
  function ApplyAll(hasClient: bool, wakerSet: bool, o: Outbox, rs: seq<Request>): (t: Outbox)
    ensures t.requests == o.requests + rs
    decreases |rs|
  {
    if rs == [] then o
    else
      var t := ApplyAll(hasClient, wakerSet, Apply(hasClient, wakerSet, o, rs[0]), rs[1..]);
      assert o.requests + [rs[0]] + rs[1..] == o.requests + rs;
      t
  }

  lemma {:induction false} ApplyAllConcat(hasClient: bool, wakerSet: bool, o: Outbox, rs: seq<Request>, more: seq<Request>)
    ensures ApplyAll(hasClient, wakerSet, o, rs + more) == ApplyAll(hasClient, wakerSet, ApplyAll(hasClient, wakerSet, o, rs), more)
    decreases |rs|
  {
    if rs == [] {
      assert rs + more == more;
    } else {
      assert (rs + more)[0] == rs[0];
      assert (rs + more)[1..] == rs[1..] + more;
      ApplyAllConcat(hasClient, wakerSet, Apply(hasClient, wakerSet, o, rs[0]), rs[1..], more);
    }
  }

  lemma ApplyAllOne(hasClient: bool, wakerSet: bool, o: Outbox, r: Request)
    ensures ApplyAll(hasClient, wakerSet, o, [r]) == Apply(hasClient, wakerSet, o, r)
  {
    assert [r][1..] == [];
  }

  /** Without a client no call ever starts a task or creates a queue. */
  lemma {:induction false} ApplyAllWithoutClient(wakerSet: bool, o: Outbox, rs: seq<Request>)
    requires o.tasks == [] && o.senders == map[]
    ensures ApplyAll(false, wakerSet, o, rs).tasks == [] && ApplyAll(false, wakerSet, o, rs).senders == map[]
    decreases |rs|
  {
    if rs != [] {
      var o1 := Apply(false, wakerSet, o, rs[0]);
      assert o1.senders == map[] by {
        if rs[0].UpdateRequest? {
          assert o1.senders.Keys == o.senders.Keys;
        }
      }
      ApplyAllWithoutClient(wakerSet, o1, rs[1..]);
    }
  }

  class Bridge {
    /** Whether a VIIPER address was configured (`client.is_some()`). */
    const hasClient: bool
    /** The id of the bus devices are added to (`bus_id`). */
    var busId: Option<nat>
    /** `stream_senders`: per device, the frames sent on its queue so far. */
    var senders: map<nat, seq<Frame>>
    /** Whether the SDL event sender has been installed (`sdl_waker`). */
    var wakerSet: bool
    /** Events delivered to the SDL thread, oldest first. */
    var pushed: seq<ViiperEvent>
    /** Every call the handler made, oldest first. */
    var requests: seq<Request>
    /** Spawned create/connect tasks still running. */
    var tasks: seq<Task>
    /** Devices whose stream has a disconnect callback installed. */
    var disconnectWatch: set<nat>
    /** Devices whose stream has an output (rumble) callback installed. */
    var outputWatch: set<nat>

    /** Without a client nothing is ever spawned, so no task, queue or stream exists. */
    predicate Valid()
      reads this
    {
      !hasClient ==> tasks == [] && senders == map[] && disconnectWatch == {} && outputWatch == {}
    }

    constructor (hasClient: bool, wakerSet: bool)
      ensures Valid()
      ensures this.hasClient == hasClient && this.wakerSet == wakerSet
      ensures busId == None && senders == map[] && pushed == [] && requests == [] && tasks == []
      ensures disconnectWatch == {} && outputWatch == {}
    {
      this.hasClient := hasClient;
      this.wakerSet := wakerSet;
      busId := None;
      senders := map[];
      pushed := [];
      requests := [];
      tasks := [];
      disconnectWatch := {};
      outputWatch := {};
    }

    /** The SDL thread installs its event sender. */
    method InstallWaker()
      modifies this`wakerSet
      ensures wakerSet
    {
      wakerSet := true;
    }

    function View(): Outbox
      reads this
    {
      Outbox(senders, pushed, requests, tasks)
    }

    method PushEvent(ev: ViiperEvent)
      modifies this`pushed
      ensures pushed == Deliver(wakerSet, old(pushed), ev)
    {
      if wakerSet {
        pushed := pushed + [ev];
      }
    }

    /** `create_device`. */
    method CreateDevice(deviceId: nat, viiperType: string)
      requires Valid()
      modifies this`requests, this`pushed, this`tasks
      ensures Valid()
      ensures View() == Apply(hasClient, wakerSet, old(View()), CreateRequest(deviceId, viiperType))
    {
      requests := requests + [CreateRequest(deviceId, viiperType)];
      if !hasClient {
        PushEvent(ErrorCreateDevice(deviceId));
      } else {
        tasks := tasks + [CreateTask(deviceId, viiperType)];
      }
    }

    /** `connect_device`. */
    method ConnectDevice(deviceId: nat, target: Option<ViiperDevice>)
      requires Valid()
      modifies this`requests, this`pushed, this`tasks
      ensures Valid()
      ensures View() == Apply(hasClient, wakerSet, old(View()), ConnectRequest(deviceId, target))
    {
      requests := requests + [ConnectRequest(deviceId, target)];
      if target.None? {
        PushEvent(ErrorConnectDevice(deviceId));
        return;
      }
      if !hasClient {
        PushEvent(ErrorConnectDevice(deviceId));
        return;
      }
      tasks := tasks + [ConnectTask(deviceId, target.value)];
    }

    /** `remove_device`. */
    method RemoveDevice(deviceId: nat)
      requires Valid()
      modifies this`requests, this`senders
      ensures Valid()
      ensures View() == Apply(hasClient, wakerSet, old(View()), RemoveRequest(deviceId))
    {
      requests := requests + [RemoveRequest(deviceId)];
      senders := senders - {deviceId};
    }

    /** `update_device_state`. */
    method UpdateDeviceState(deviceId: nat, frame: Frame)
      requires Valid()
      modifies this`requests, this`senders
      ensures Valid()
      ensures View() == Apply(hasClient, wakerSet, old(View()), UpdateRequest(deviceId, frame))
    {
      requests := requests + [UpdateRequest(deviceId, frame)];
      if deviceId in senders {
        senders := senders[deviceId := senders[deviceId] + [frame]];
      }
    }

    /**
     * The create task `tasks[k]` runs to its end: read the cached bus,
     * `ensure_bus`, store the bus id, then add the device on it. `listing`,
     * `creation` and `added` are the server's answers.
     */
    method CompleteCreate(k: nat, listing: Result<set<nat>, string>, creation: Result<nat, string>, added: Result<ViiperDevice, string>)
      requires Valid() && k < |tasks| && tasks[k].CreateTask?
      modifies this`busId, this`pushed, this`tasks
      ensures Valid()
      ensures tasks == old(tasks[..k] + tasks[k + 1..])
      ensures var o := EnsureBus(old(busId), listing, creation);
        var id := old(tasks[k]).deviceId;
        var ev := if o.result.Err? || added.Err? then ErrorCreateDevice(id) else DeviceCreated(id, added.value);
        && busId == (if o.result.Ok? then Some(o.result.value) else old(busId))
        && pushed == Deliver(wakerSet, old(pushed), ev)
    {
      var id := tasks[k].deviceId;
      tasks := tasks[..k] + tasks[k + 1..];
      var current := busId;
      var o := EnsureBus(current, listing, creation);
      if o.result.Err? {
        PushEvent(ErrorCreateDevice(id));
        return;
      }
      busId := Some(o.result.value);
      if added.Err? {
        PushEvent(ErrorCreateDevice(id));
      } else {
        PushEvent(DeviceCreated(id, added.value));
      }
    }

    /**
     * The connect task `tasks[k]` runs until it starts forwarding input:
     * on failure it reports ErrorConnectDevice; on success it installs the
     * callbacks that registered (`disconnectHook`, `outputHook`), then puts a
     * fresh queue into `senders`, and only then reports DeviceConnected.
     */
    method CompleteConnect(k: nat, connected: bool, disconnectHook: bool, outputHook: bool)
      requires Valid() && k < |tasks| && tasks[k].ConnectTask?
      modifies this`senders, this`pushed, this`tasks, this`disconnectWatch, this`outputWatch
      ensures Valid()
      ensures tasks == old(tasks[..k] + tasks[k + 1..])
      ensures var id := old(tasks[k]).deviceId;
        if !connected then
          && senders == old(senders) && disconnectWatch == old(disconnectWatch) && outputWatch == old(outputWatch)
          && pushed == Deliver(wakerSet, old(pushed), ErrorConnectDevice(id))
        else
          && senders == old(senders)[id := []]
          && disconnectWatch == (if disconnectHook then old(disconnectWatch) + {id} else old(disconnectWatch))
          && outputWatch == (if outputHook then old(outputWatch) + {id} else old(outputWatch))
          && pushed == Deliver(wakerSet, old(pushed), DeviceConnected(id))
    {
      var id := tasks[k].deviceId;
      tasks := tasks[..k] + tasks[k + 1..];
      if !connected {
        PushEvent(ErrorConnectDevice(id));
        return;
      }
      if disconnectHook {
        disconnectWatch := disconnectWatch + {id};
      }
      if outputHook {
        outputWatch := outputWatch + {id};
      }
      senders := senders[id := []];
      PushEvent(DeviceConnected(id));
    }

    /** The server closed the stream of `deviceId`: its disconnect callback fires. */
    method FireDisconnect(deviceId: nat)
      requires Valid() && deviceId in disconnectWatch
      modifies this`pushed
      ensures Valid()
      ensures pushed == Deliver(wakerSet, old(pushed), ServerDisconnected(deviceId))
    {
      PushEvent(ServerDisconnected(deviceId));
    }

    /** The server sent an output report for `deviceId`: its output callback decodes rumble. */
    method FireOutput(deviceId: nat, available: seq<Byte>, outputSize: nat)
      requires Valid() && deviceId in outputWatch && outputSize >= 2
      modifies this`pushed
      ensures Valid()
      ensures var r := DecodeRumble(available, outputSize);
        pushed == if r.Some? then Deliver(wakerSet, old(pushed), DeviceRumble(deviceId, r.value.0, r.value.1)) else old(pushed)
    {
      var r := DecodeRumble(available, outputSize);
      if r.Some? {
        PushEvent(DeviceRumble(deviceId, r.value.0, r.value.1));
      }
    }
  }
}
