# LidarCpp bridge model

A Dafny model of the data path of LidarCpp, a small program that receives
point-cloud packets from a Livox LiDAR driver and republishes them on a
ZeroMQ publish socket as protobuf `LiDARRawPoints` messages.

- `point_conversion.dfy`: the fixed-width integer types, the raw sample
  (`RawPoint`), the message point (`Point`) and message (`LidarRawPoints`),
  and `convertPointCloud` as a pure specification `Convert` plus the
  counting-loop method `ConvertPointCloud` proved equal to it.
- `event_bridge.dfy`: the two driver callbacks as methods of a `Bridge`
  class whose fields are the process-wide state: `publicHandle` (the global
  handle), `published` (every message sent on the socket) and
  `configRequests` (every data-type command sent to the driver). A null
  packet pointer is `Option<Packet>`. `Emitted` says what one point-cloud
  event sends; two client methods walk through the start-up scenarios.

The data-type check in `pointCloudCallback` compares the packet's tag with
a fixed constant. It does not read any state, so a supported packet that
arrives before any device-info event is still converted and published
(`PacketBeforeInfoScenario` proves this).

## Model

| member | source | states |
|---|---|---|
| PointConversion.Convert | src/main.cpp:16-27 | the converted list has exactly one record per sample, and record i has the x, y and z of sample i, unchanged |
| PointConversion.ConvertAppend | src/main.cpp:19-25 | converting two runs of samples one after the other equals concatenating their conversions, so each record depends on its own sample only |
| PointConversion.ConvertInjective | src/main.cpp:21-24 | the x, y and z of every sample can be recovered exactly: equal record lists come only from equal runs of (x, y, z) samples; other fields of the driver's sample are not modelled (see the payload line under Left out) |
| PointConversion.ConvertPointCloud | src/main.cpp:16-27 | given a buffer of at least `point_num` samples, the loop returns exactly `point_num` records equal to `Convert` of that prefix, record i copying sample i; zero samples give an empty message |
| EventBridge.Emitted | src/main.cpp:37-52 | one event sends at most one message; exactly one iff the packet is present and its tag is the supported type; none for a null packet; the message holds `dot_num` points copying the payload in order |
| EventBridge.EmittedDeterminedBySamples | src/main.cpp:47-50 | two accepted packets send the same message iff their first `dot_num` samples are equal; handle and declared length play no part |
| EventBridge.Bridge.constructor | src/main.cpp:10-12 | at start the handle is 0 and nothing has been published or requested |
| EventBridge.Bridge.InfoCallback | src/main.cpp:29-35 | the handle is overwritten with the given one, exactly one data-type request (handle, high-precision Cartesian) is appended, nothing is published |
| EventBridge.Bridge.PointCloudCallback | src/main.cpp:37-52 | the published log grows by exactly `Emitted(data)`: nothing for a null packet or another tag, one converted frame otherwise; the handle and the request log never change |
| EventBridge.InfoThenPacketScenario | src/main.cpp:29-52 | info for handle 7 then a supported three-sample packet: handle 7 stored, one request for device 7, exactly one message holding (1,2,3), (4,5,6), (7,8,9) in order |
| EventBridge.PacketBeforeInfoScenario | src/main.cpp:37-52 | a supported packet before any info event is published; an unsupported tag and a null packet publish nothing; the handle stays 0 and no request is issued |

## Left out

- `main` (src/main.cpp:59-83): driver initialisation and teardown, callback registration, socket bind and the exception on a failed init are calls into the Livox SDK and ZeroMQ and process control.
- `Stop` and the condition-variable wait (src/main.cpp:13-14, 54-57, 75-78): signals and thread blocking.
- Serialisation with protobuf `SerializeToString` (src/main.cpp:48-49): the generated message code is not part of this model; the published log holds the converted message itself rather than its bytes.
- `sock.send` (src/main.cpp:50): modelled only as appending to `published`; delivery to subscribers is not modelled.
- The reinterpretation of the packet's byte buffer as raw samples (src/main.cpp:47): the SDK's struct layout is not part of this model, so the payload is an already-decoded `seq<RawPoint>` holding only the x, y, z fields the conversion reads; the declared byte length is carried but, as in the code, never checked.
- The value 0x01 of the supported data-type tag comes from the Livox SDK's header, which is not part of this model; the model relies only on it being one fixed value.
- Logging through spdlog (src/main.cpp:31, 41, 44, 51), and with it the `info` argument of `infoCallback`, which is read only for logging; `client_data` is unused by both callbacks.
- InfoCallback: assumes the driver never passes a null `info`. The code dereferences `info` for its log line (src/main.cpp:31) without a null check, before storing the handle at :32; that dereference is this callback's only failure path, and the model, which drops `info`, always stores the handle.
- Concurrency: the driver calls the callbacks on its own threads without locking; the model treats each callback as one atomic step.
