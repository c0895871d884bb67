/** Fixed-width integers and the two record types of the data path:
    the raw Cartesian sample the driver hands over, and the point record
    of the published message. */
module LidarTypes {

  const UINT8_LIMIT: int := 0x100
  const UINT32_LIMIT: int := 0x1_0000_0000
  const INT32_MIN: int := -0x8000_0000
  const INT32_MAX: int := 0x7FFF_FFFF

  type uint8 = x: int | 0 <= x < UINT8_LIMIT
  type uint32 = x: int | 0 <= x < UINT32_LIMIT
  type int32 = x: int | INT32_MIN <= x <= INT32_MAX

  /** One raw sample of the high-precision Cartesian layout, already decoded
      from the driver's packet buffer (millimetre units). */
  datatype RawPoint = RawPoint(x: int32, y: int32, z: int32)

  /** One point record of the outgoing message. */
  datatype Point = Point(x: int32, y: int32, z: int32)

  /** The outgoing message: the ordered list of point records of one packet. */
  datatype LidarRawPoints = LidarRawPoints(points: seq<Point>)
}

/** The point converter: copies x, y and z of every raw sample, in order. */
module PointConversion {
  import opened LidarTypes

  /** The record built for one sample: its three coordinates, unchanged. */
  function ConvertPoint(p: RawPoint): Point
  {
    Point(p.x, p.y, p.z)
  }

  /** The records for a run of samples, built by appending one record per
      sample, as the conversion loop does. */
  function Convert(raw: seq<RawPoint>): (r: seq<Point>)
    ensures |r| == |raw|
    ensures forall i :: 0 <= i < |raw| ==>
      r[i].x == raw[i].x && r[i].y == raw[i].y && r[i].z == raw[i].z
  {
    if raw == [] then []
    else Convert(raw[..|raw| - 1]) + [ConvertPoint(raw[|raw| - 1])]
  }

  /** Converting two runs one after the other gives the concatenation of
      their conversions: no record depends on its neighbours. Follows from
      the pointwise contract of `Convert`. */
  lemma ConvertAppend(a: seq<RawPoint>, b: seq<RawPoint>)
    ensures Convert(a + b) == Convert(a) + Convert(b)
  {
  }

  /** The x, y and z of every sample can be recovered exactly from the
      records: distinct runs of (x, y, z) samples give distinct record lists.
      Other fields of the driver's sample are not part of `RawPoint`. */
  lemma ConvertInjective(a: seq<RawPoint>, b: seq<RawPoint>)
    requires Convert(a) == Convert(b)
    ensures a == b
  {
  }

  /** convertPointCloud: reads the first `pointNum` samples of the borrowed
      buffer and appends one record per sample to a fresh message. The
      buffer is trusted to hold at least `pointNum` samples. */
  method ConvertPointCloud(pointCloud: seq<RawPoint>, pointNum: uint32) returns (points: LidarRawPoints)
    requires pointNum <= |pointCloud|
    ensures points.points == Convert(pointCloud[..pointNum])
    ensures |points.points| == pointNum
    ensures forall i :: 0 <= i < pointNum ==>
      points.points[i] == Point(pointCloud[i].x, pointCloud[i].y, pointCloud[i].z)
  {
    points := LidarRawPoints([]);
    var i: uint32 := 0;
    while i < pointNum
      invariant i <= pointNum
      invariant points.points == Convert(pointCloud[..i])
    {
      points := LidarRawPoints(points.points + [ConvertPoint(pointCloud[i])]);
      assert pointCloud[..i + 1][..i] == pointCloud[..i];
      i := i + 1;
    }
  }
}
