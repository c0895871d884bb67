/** The usual optional value, standing in for a pointer that may be null. */
module Wrappers {
  datatype Option<+T> = None | Some(value: T)
}

/** The device event bridge: the two driver callbacks and the process-wide
    state they touch. The publish socket is modelled as the log of messages
    sent on it, and the driver's data-type command as the log of requests
    issued to it. */
module EventBridge {
  import opened Wrappers
  import opened LidarTypes
  import opened PointConversion

  /** The one point-cloud data type the bridge configures and accepts: the
      high-precision Cartesian layout, tag 0x01 of the driver's data-type
      enumeration. */
  const CartesianHighData: uint8 := 0x01

  /** A point-cloud packet as the driver delivers it: the declared point
      count, declared byte length and data-type tag, and the payload already
      read as raw samples. */
  datatype Packet = Packet(dotNum: uint32, length: uint32, dataType: uint8, payload: seq<RawPoint>)

  /** A data-type command issued to the driver for one device. */
  datatype ConfigRequest = ConfigRequest(handle: uint32, dataType: uint8)

  /** The bridge processes the packet: it is present and carries the
      supported tag. The test reads the packet only, never the bridge's state. */
  predicate Accepted(data: Option<Packet>)
  {
    data.Some? && data.value.dataType == CartesianHighData
  }

  /** What the callback's caller must guarantee: an accepted packet's payload
      holds at least the declared number of samples. The declared byte
      length is not consulted. */
  predicate Trusted(data: Option<Packet>)
  {
    Accepted(data) ==> data.value.dotNum <= |data.value.payload|
  }

  /** The messages one point-cloud event sends: none for an absent packet or
      an unsupported tag, otherwise exactly one holding the first `dotNum`
      samples, copied in order. */
  function Emitted(data: Option<Packet>): (r: seq<LidarRawPoints>)
    requires Trusted(data)
    ensures |r| <= 1
    ensures |r| == 1 <==> Accepted(data)
    ensures data.None? ==> r == []
    ensures Accepted(data) ==>
      |r[0].points| == data.value.dotNum &&
      forall i :: 0 <= i < data.value.dotNum ==>
        r[0].points[i].x == data.value.payload[i].x &&
        r[0].points[i].y == data.value.payload[i].y &&
        r[0].points[i].z == data.value.payload[i].z
  {
    if Accepted(data) then [LidarRawPoints(Convert(data.value.payload[..data.value.dotNum]))] else []
  }

  /** Two events that send a message send the same message exactly when they
      carry the same samples: the device handle and the declared byte length
      play no part. */
  lemma EmittedDeterminedBySamples(d1: Option<Packet>, d2: Option<Packet>)
    requires Trusted(d1) && Trusted(d2) && Accepted(d1) && Accepted(d2)
    ensures Emitted(d1) == Emitted(d2) <==>
      d1.value.payload[..d1.value.dotNum] == d2.value.payload[..d2.value.dotNum]
  {
  }

  class Bridge {
    /** The handle of the most recently announced device. */
    var publicHandle: uint32
    /** Every message sent on the publish socket, oldest first. */
    var published: seq<LidarRawPoints>
    /** Every data-type command issued to the driver, oldest first. */
    var configRequests: seq<ConfigRequest>

    /** Process start: the handle is zero and nothing has been sent or
        requested. */
    constructor ()
      ensures publicHandle == 0 && published == [] && configRequests == []
    {
      publicHandle := 0;
      published := [];
      configRequests := [];
    }

    /** infoCallback: remembers the announcing device's handle, replacing the
        previous one, and asks the driver for the supported data type on that
        device. Nothing is published. */
    method InfoCallback(handle: uint32)
      modifies this
      ensures publicHandle == handle
      ensures configRequests == old(configRequests) + [ConfigRequest(handle, CartesianHighData)]
      ensures published == old(published)
    {
      publicHandle := handle;
      configRequests := configRequests + [ConfigRequest(handle, CartesianHighData)];
    }

    /** pointCloudCallback: ignores an absent packet, drops a packet with any
        other tag, and otherwise converts the declared number of samples and
        sends exactly one message. The stored handle and the request log are
        never touched, and the outcome does not depend on whether a device
        was ever announced. */
    method PointCloudCallback(handle: uint32, devType: uint8, data: Option<Packet>)
      requires Trusted(data)
      modifies this
      ensures published == old(published) + Emitted(data)
      ensures publicHandle == old(publicHandle)
      ensures configRequests == old(configRequests)
    {
      if data.None? {
        return;
      }
      if data.value.dataType != CartesianHighData {
        return;
      }
      var points := ConvertPointCloud(data.value.payload, data.value.dotNum);
      published := published + [points];
    }
  }

  /** A device with handle 7 announces itself, then a packet of three samples
      in the supported layout arrives: the data-type command names device 7
      and exactly one message, holding the three points in order, is sent. */
  method InfoThenPacketScenario() returns (handle: uint32, requests: seq<ConfigRequest>, log: seq<LidarRawPoints>)
    ensures handle == 7
    ensures requests == [ConfigRequest(7, CartesianHighData)]
    ensures log == [LidarRawPoints([Point(1, 2, 3), Point(4, 5, 6), Point(7, 8, 9)])]
  {
    var b := new Bridge();
    b.InfoCallback(7);
    var samples := [RawPoint(1, 2, 3), RawPoint(4, 5, 6), RawPoint(7, 8, 9)];
    b.PointCloudCallback(7, 0, Some(Packet(3, 0, CartesianHighData, samples)));
    assert samples[..3] == samples;
    ghost var frame := Convert(samples);
    assert frame[0] == Point(1, 2, 3) && frame[1] == Point(4, 5, 6) && frame[2] == Point(7, 8, 9);
    assert frame == [Point(1, 2, 3), Point(4, 5, 6), Point(7, 8, 9)];
    handle, requests, log := b.publicHandle, b.configRequests, b.published;
  }

  /** A supported packet that arrives before any device was announced is
      still converted and sent, and the stored handle keeps its initial zero;
      a packet with another tag sends nothing; an absent packet sends
      nothing. */
  method PacketBeforeInfoScenario() returns (handle: uint32, requests: seq<ConfigRequest>, log: seq<LidarRawPoints>)
    ensures handle == 0
    ensures requests == []
    ensures log == [LidarRawPoints([Point(-1, 0, 5)])]
  {
    var b := new Bridge();
    var samples := [RawPoint(-1, 0, 5), RawPoint(2, 2, 2)];
    b.PointCloudCallback(3, 0, Some(Packet(1, 0, CartesianHighData, samples)));
    b.PointCloudCallback(3, 0, Some(Packet(2, 0, 0x02, samples)));
    b.PointCloudCallback(3, 0, None);
    ghost var frame := Convert(samples[..1]);
    assert frame[0] == Point(-1, 0, 5);
    assert frame == [Point(-1, 0, 5)];
    handle, requests, log := b.publicHandle, b.configRequests, b.published;
  }
}
