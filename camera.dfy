/**
 * `Camera` (src/sim/camera.py): keeps the latest ground position in a
 * one-slot cache and mirrors it, with the time it was published, into the
 * dictionary the imaging API process reads.
 */
module CameraCache {
  import opened Messages

  /** The shared dictionary's key for the cached position. */
  const PositionKey: string := "satellite_position"
  /** The shared dictionary's key for the time of the cached position. */
  const StampKey: string := "last_updated"

  /** A value held in the shared dictionary. */
  datatype SharedValue = Position(lon: real, lat: real, alt: real) | Stamp(time: string)

  /** The dictionary shared with the imaging API process. */
  class SharedDict {
    var entries: map<string, SharedValue>

    constructor(initial: map<string, SharedValue>)
      ensures entries == initial
    {
      entries := initial;
    }
  }

  /** The shared dictionary after one ground position was mirrored into it. */
  function Published(m: map<string, SharedValue>, data: PositionData, time: string): (r: map<string, SharedValue>)
    ensures r.Keys == m.Keys + {PositionKey, StampKey}
    ensures r[PositionKey] == Position(LonLatAlt(data).0, LonLatAlt(data).1, LonLatAlt(data).2)
    ensures r[StampKey] == Stamp(time)
    ensures forall k :: k in m && k != PositionKey && k != StampKey ==> r[k] == m[k]
  {
    var (lon, lat, alt) := LonLatAlt(data);
    m[PositionKey := Position(lon, lat, alt)][StampKey := Stamp(time)]
  }

  /** Only the latest ground position survives in the shared dictionary. */
  lemma LastWriteWins(m: map<string, SharedValue>, d1: PositionData, t1: string, d2: PositionData, t2: string)
    ensures Published(Published(m, d1, t1), d2, t2) == Published(m, d2, t2)
  {
  }

  class Camera {
    /** (lon, lat, alt) of the latest ground position. */
    var currentSatellitePosition: (real, real, real)
    const shared: SharedDict

    /** A fresh camera caches the origin until the first ground position arrives. */
    constructor(shared: SharedDict)
      ensures currentSatellitePosition == (0.0, 0.0, 0.0)
      ensures this.shared == shared
    {
      currentSatellitePosition := (0.0, 0.0, 0.0);
      this.shared := shared;
    }

    /** `on_satellite_ground_position`: cache the position and mirror it with its time. */
    method OnGroundPosition(data: PositionData, time: string)
      modifies this, shared
      ensures currentSatellitePosition == LonLatAlt(data)
      ensures shared.entries == Published(old(shared.entries), data, time)
      ensures shared.entries[PositionKey]
        == Position(currentSatellitePosition.0, currentSatellitePosition.1, currentSatellitePosition.2)
    {
      var lon := data.lon.GetOr(0.0);
      var lat := data.lat.GetOr(0.0);
      var alt := data.alt.GetOr(0.0);
      currentSatellitePosition := (lon, lat, alt);
      shared.entries := shared.entries[PositionKey := Position(lon, lat, alt)];
      shared.entries := shared.entries[StampKey := Stamp(time)];
    }
  }
}
