/**
 * The two endpoints together: the watch's ready request is what the handheld
 * answers, and every answer built from a forecast row decodes on the watch to
 * that row's icon and labels.
 */
module Handshake {
  import opened Wrappers
  import opened Wire
  import opened SunWatch
  import opened SunshineWearable

  /** The weather the watch shows after storing the reply built from `row`. */
  function ShownWeather(row: ForecastRow, res: Resources): Weather
  {
    Weather(Some(Bitmap(res.artPng(row.weatherId))),
            Some(Labelled(res.formatTemperature(row.maxTemp))),
            Some(Labelled(res.formatTemperature(row.minTemp))))
  }

  /**
   * Round trip across the link: the reply built from the first row, received
   * on the data path, sets the icon to the row's art and the labels to the
   * row's formatted temperatures with a leading space, whatever was shown before.
   */
  lemma ReplyDecodesOnWatch(query: QueryResult, res: Resources, w: Weather)
    requires query.Cursor? && query.rows != []
    requires HasPngSignature(res.artPng(query.rows[0].weatherId))
    ensures ForecastData(query, res).Some?
    ensures Receive(w, DataPath, ForecastData(query, res).value) ==
      Reception(ShownWeather(query.rows[0], res), Applied)
  {
    var list := Frame(query.rows[0], res);
    SerializeRoundTrip(list, []);
    assert Serialize(list) + [] == Serialize(list);
  }

  /**
   * The whole exchange: when the watch sees a nearby node, its request is a
   * ready request for the handheld; a connected handheld with a forecast row
   * then sends one reply per node it is connected to, and each of them, on
   * arrival, makes the watch show that row.
   */
  lemma Exchange(watchSees: seq<Node>, query: QueryResult, res: Resources, phoneSees: seq<NodeId>, w: Weather)
    requires exists i :: 0 <= i < |watchSees| && watchSees[i].isNearby
    requires query.Cursor? && query.rows != []
    requires HasPngSignature(res.artPng(query.rows[0].weatherId))
    ensures ReadyRequest(watchSees).Some?
    ensures var request := ReadyRequest(watchSees).value;
      request.data.Some? && IsReadyRequest(request.path, request.data.value) &&
      var replies := Outbox(Reaction(true, request.path, request.data.value, query, res, phoneSees));
      |replies| == |phoneSees| &&
      forall k :: 0 <= k < |replies| ==>
        replies[k].to == phoneSees[k] && replies[k].data.Some? &&
        Receive(w, replies[k].path, replies[k].data.value) == Reception(ShownWeather(query.rows[0], res), Applied)
  {
    PeerSelection(watchSees);
    var request := ReadyRequest(watchSees).value;
    assert request.path == DataPath && request.data == Some(ReadyToken);
    ReplyMessages(true, DataPath, ReadyToken, query, res, phoneSees);
    var replies := Outbox(Reaction(true, DataPath, ReadyToken, query, res, phoneSees));
    assert replies == Broadcast(phoneSees, ForecastData(query, res));
    ReplyDecodesOnWatch(query, res, w);
  }
}
