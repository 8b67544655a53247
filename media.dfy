/**
 * The browser media layer, abstracted. A stream returned by `getUserMedia`
 * is the sequence of its track identities; the platform's set of live
 * (not yet stopped) tracks is part of each page's state. Acquisition is an
 * event whose outcome is either a stream (`Some`) or a failure (`None`).
 */
module Media {

  type TrackId = nat

  /** A stream handed back by `getUserMedia`: its tracks, as `getTracks()` lists them. */
  type Stream = seq<TrackId>

  /** The set of tracks a stream holds. */
  function TracksOf(stream: Stream): set<TrackId>
  {
    set i | 0 <= i < |stream| :: stream[i]
  }

  /**
   * `stream.getTracks().forEach(track => track.stop())`: stops the tracks one
   * after another and returns the set of tracks still live afterwards.
   */
  method StopTracks(live: set<TrackId>, stream: Stream) returns (remaining: set<TrackId>)
    ensures remaining == live - TracksOf(stream)
  {
    remaining := live;
    var i := 0;
    while i < |stream|
      invariant 0 <= i <= |stream|
      invariant remaining == live - TracksOf(stream[..i])
    {
      assert TracksOf(stream[..i + 1]) == TracksOf(stream[..i]) + {stream[i]};
      remaining := remaining - {stream[i]};
      i := i + 1;
    }
    assert stream[..i] == stream;
  }
}
