/** Turning the touch records sent by the app into the two parallel lists
    the recognisers work on. */
module Extraction {
  import opened Geometry

  /** One record of the touch data: `{"timestamp": t, "location": [x, y]}`. */
  datatype TouchRecord = TouchRecord(timestamp: real, location: Point)

  /** The records rebuilt from two parallel lists, pairing equal positions. */
  function Records(timestamps: seq<real>, locations: seq<Point>): (records: seq<TouchRecord>)
    requires |timestamps| == |locations|
    ensures |records| == |timestamps|
    ensures forall i :: 0 <= i < |records| ==>
      records[i].timestamp == timestamps[i] && records[i].location == locations[i]
  {
    seq(|timestamps|, i requires 0 <= i < |timestamps| => TouchRecord(timestamps[i], locations[i]))
  }

  /** `extract_timestamps_and_locations`: one pass appending each record's
      timestamp and location, in order, to two fresh lists. */
  method ExtractTimestampsAndLocations(data: seq<TouchRecord>)
    returns (timestamps: seq<real>, locations: seq<Point>)
    ensures |timestamps| == |data| && |locations| == |data|
    ensures forall i :: 0 <= i < |data| ==>
      timestamps[i] == data[i].timestamp && locations[i] == data[i].location
    ensures Records(timestamps, locations) == data
  {
    timestamps := [];
    locations := [];
    for k := 0 to |data|
      invariant |timestamps| == k && |locations| == k
      invariant forall i :: 0 <= i < k ==>
        timestamps[i] == data[i].timestamp && locations[i] == data[i].location
    {
      timestamps := timestamps + [data[k].timestamp];
      locations := locations + [data[k].location];
    }
  }

  /** Rebuilding records from two parallel lists and extracting them
      again gives back the same lists: nothing is lost, reordered or
      invented. */
  method ExtractRecordsRoundTrip(timestamps: seq<real>, locations: seq<Point>)
    returns (extractedTimestamps: seq<real>, extractedLocations: seq<Point>)
    requires |timestamps| == |locations|
    ensures extractedTimestamps == timestamps && extractedLocations == locations
  {
    extractedTimestamps, extractedLocations := ExtractTimestampsAndLocations(Records(timestamps, locations));
  }

  /** Two records become `[1.0, 2.0]` and `[[0.0, 1.0], [1.0, 2.0]]`;
      no records become two empty lists. */
  method ExtractionExamples() returns (ts: seq<real>, locs: seq<Point>, emptyTs: seq<real>, emptyLocs: seq<Point>)
    ensures ts == [1.0, 2.0]
    ensures locs == [Point(0.0, 1.0), Point(1.0, 2.0)]
    ensures emptyTs == [] && emptyLocs == []
  {
    ts, locs := ExtractTimestampsAndLocations(
      [TouchRecord(1.0, Point(0.0, 1.0)), TouchRecord(2.0, Point(1.0, 2.0))]);
    emptyTs, emptyLocs := ExtractTimestampsAndLocations([]);
  }
}
