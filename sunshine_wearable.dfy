/**
 * The handheld side of the weather sync: the listener service that answers a
 * watch's ready request with the latest forecast, framed as a three-element
 * list of byte arrays.
 *
 * The content-provider query, the art lookup and PNG compression, and the
 * temperature formatting are inputs (`QueryResult`, `Resources`); the
 * connected-node lookup is an input list of node ids. Platform calls are
 * appended to the service's `effects` log, and the worker thread started for a
 * request runs to completion inside `OnMessageReceived`.
 */
module SunshineWearable {
  import opened Wrappers
  import opened Wire

  /** The three columns the query projects: weather id, max and min temperature. */
  datatype ForecastRow = ForecastRow(weatherId: int, maxTemp: real, minTemp: real)

  /** A null cursor, or the rows of the query in ascending date order. */
  datatype QueryResult = NullCursor | Cursor(rows: seq<ForecastRow>)

  /**
   * The library calls the payload is built from: the PNG bytes of the scaled
   * art for a weather id, and the bytes of a formatted temperature label.
   */
  datatype Resources = Resources(artPng: int -> ByteArray, formatTemperature: real -> ByteArray)

  /** The list `[icon, max label, min label]` built from one row. */
  function Frame(row: ForecastRow, res: Resources): ByteArrayList
  {
    [res.artPng(row.weatherId), res.formatTemperature(row.maxTemp), res.formatTemperature(row.minTemp)]
  }

  /** What `getAllRelevantForecastData` returns: the framed first row, or null. */
  function ForecastData(query: QueryResult, res: Resources): Option<seq<byte>>
  {
    if query.NullCursor? || query.rows == [] then None
    else Some(Serialize(Frame(query.rows[0], res)))
  }

  /**
   * No row, no payload; otherwise the payload reads back as exactly three byte
   * arrays: the icon, the max label and the min label of the first row.
   */
  lemma ForecastDataFraming(query: QueryResult, res: Resources)
    ensures ForecastData(query, res).None? <==> query.NullCursor? || query.rows == []
    ensures ForecastData(query, res).Some? ==>
      var row := query.rows[0];
      Deserialize(ForecastData(query, res).value) ==
        Some([res.artPng(row.weatherId), res.formatTemperature(row.maxTemp), res.formatTemperature(row.minTemp)])
  {
    if ForecastData(query, res).Some? {
      SerializeRoundTrip(Frame(query.rows[0], res), []);
      assert Serialize(Frame(query.rows[0], res)) + [] == Serialize(Frame(query.rows[0], res));
    }
  }

  /** A platform call the service makes. */
  datatype PhoneEffect =
    | Connect
    | QueryForecast
    | ListConnectedNodes
    | Send(message: Message)
    | DelegateToSuper

  /** A message the service treats as a request for data. */
  predicate IsReadyRequest(path: string, data: seq<byte>)
  {
    path == DataPath && data == ReadyToken
  }

  /** One message on the data path to each node, in order, all with the same body. */
  function Broadcast(nodes: seq<NodeId>, data: Option<seq<byte>>): seq<Message>
  {
    seq(|nodes|, i requires 0 <= i < |nodes| => Message(nodes[i], DataPath, data))
  }

  function SendEffects(messages: seq<Message>): seq<PhoneEffect>
  {
    seq(|messages|, i requires 0 <= i < |messages| => Send(messages[i]))
  }

  /** The platform calls of `sendDataToSunWatch`. */
  function SendData(connected: bool, data: Option<seq<byte>>, nodes: seq<NodeId>): seq<PhoneEffect>
  {
    if connected then [ListConnectedNodes] + SendEffects(Broadcast(nodes, data)) else []
  }

  /** The platform calls of `onMessageReceived`, its worker included. */
  function Reaction(connected: bool, path: string, data: seq<byte>, query: QueryResult,
                    res: Resources, nodes: seq<NodeId>): seq<PhoneEffect>
  {
    if path != DataPath then [DelegateToSuper]
    else if data != ReadyToken then []
    else [QueryForecast] + SendData(connected, ForecastData(query, res), nodes)
  }

  /** The messages a log sends, in order. */
  function Outbox(log: seq<PhoneEffect>): seq<Message>
  {
    if log == [] then []
    else (if log[0].Send? then [log[0].message] else []) + Outbox(log[1..])
  }

  lemma {:induction false} OutboxAppend(a: seq<PhoneEffect>, b: seq<PhoneEffect>)
    ensures Outbox(a + b) == Outbox(a) + Outbox(b)
  {
    if a == [] {
      assert a + b == b;
    } else {
      var head := if a[0].Send? then [a[0].message] else [];
      assert (a + b)[0] == a[0];
      assert (a + b)[1..] == a[1..] + b;
      OutboxAppend(a[1..], b);
      assert Outbox(a + b) == head + (Outbox(a[1..]) + Outbox(b));
      assert Outbox(a) == head + Outbox(a[1..]);
    }
  }

  lemma {:induction false} OutboxOfSends(messages: seq<Message>)
    ensures Outbox(SendEffects(messages)) == messages
  {
    if messages != [] {
      assert SendEffects(messages)[1..] == SendEffects(messages[1..]);
      OutboxOfSends(messages[1..]);
    }
  }

  /**
   * The only messages a received message makes the service send: when it is
   * connected and the message is a ready request, one reply per connected
   * node on the data path, all carrying what the payload builder returned;
   * otherwise none.
   */
  lemma ReplyMessages(connected: bool, path: string, data: seq<byte>, query: QueryResult,
                      res: Resources, nodes: seq<NodeId>)
    ensures Outbox(Reaction(connected, path, data, query, res, nodes)) ==
      if connected && IsReadyRequest(path, data) then Broadcast(nodes, ForecastData(query, res)) else []
  {
    if IsReadyRequest(path, data) && connected {
      var sends := SendEffects(Broadcast(nodes, ForecastData(query, res)));
      OutboxAppend([QueryForecast, ListConnectedNodes], sends);
      OutboxOfSends(Broadcast(nodes, ForecastData(query, res)));
      assert Reaction(connected, path, data, query, res, nodes) == [QueryForecast, ListConnectedNodes] + sends;
    }
  }

  /** Only a ready request on the data path makes the service query the forecast. */
  lemma OnlyReadyRequestsFetch(connected: bool, path: string, data: seq<byte>, query: QueryResult,
                               res: Resources, nodes: seq<NodeId>)
    ensures QueryForecast in Reaction(connected, path, data, query, res, nodes) <==> IsReadyRequest(path, data)
  {
  }

  /**
   * There is no null check before the send: with no forecast row, a connected
   * service still sends each node a message with a null body.
   */
  lemma AbsentPayloadIsSent(query: QueryResult, res: Resources, nodes: seq<NodeId>)
    requires query.NullCursor? || query.rows == []
    ensures Outbox(Reaction(true, DataPath, ReadyToken, query, res, nodes)) ==
      seq(|nodes|, i requires 0 <= i < |nodes| => Message(nodes[i], DataPath, None))
  {
    ReplyMessages(true, DataPath, ReadyToken, query, res, nodes);
  }

  lemma OutboxOfTwoReplies(reply: seq<PhoneEffect>)
    ensures Outbox([Connect] + reply + reply) == Outbox(reply) + Outbox(reply)
  {
    var started := [Connect] + reply;
    assert [Connect] + reply + reply == started + reply;
    OutboxAppend(started, reply);
    OutboxAppend([Connect], reply);
    assert [Connect][1..] == [];
    assert Outbox([Connect]) == [];
  }

  class WearableService {
    var isConnected: bool
    var effects: seq<PhoneEffect>

    /** `onCreate`: the client starts connecting; `isConnected` starts false. */
    constructor ()
      ensures !isConnected && effects == [Connect]
    {
      isConnected := false;
      effects := [Connect];
    }

    method OnConnected()
      modifies this`isConnected
      ensures isConnected
    {
      isConnected := true;
    }

    method OnConnectionSuspended(cause: int)
      modifies this`isConnected
      ensures !isConnected
    {
      isConnected := false;
    }

    method OnConnectionFailed(errorMessage: string)
      modifies this`isConnected
      ensures !isConnected
    {
      isConnected := false;
    }

    /** `getAllRelevantForecastData`: the first row framed as `[icon, max, min]`, or null. */
    method GetAllRelevantForecastData(query: QueryResult, res: Resources) returns (data: Option<seq<byte>>)
      ensures data.None? <==> query.NullCursor? || query.rows == []
      ensures data.Some? ==>
        var row := query.rows[0];
        Deserialize(data.value) ==
          Some([res.artPng(row.weatherId), res.formatTemperature(row.maxTemp), res.formatTemperature(row.minTemp)])
      ensures data == ForecastData(query, res)
    {
      if query.NullCursor? {
        return None;
      }
      if |query.rows| == 0 {
        return None;
      }
      var row := query.rows[0];
      var artResBitmap := res.artPng(row.weatherId);
      var maxTemp := res.formatTemperature(row.maxTemp);
      var minTemp := res.formatTemperature(row.minTemp);
      var dataBytes: seq<ByteArray> := [];
      dataBytes := dataBytes + [artResBitmap];
      dataBytes := dataBytes + [maxTemp];
      dataBytes := dataBytes + [minTemp];
      assert dataBytes == [artResBitmap, maxTemp, minTemp];
      SerializeRoundTrip(dataBytes, []);
      assert Serialize(dataBytes) + [] == Serialize(dataBytes);
      data := Some(Serialize(dataBytes));
    }

    /** `sendDataToSunWatch`: while connected, one message per connected node. */
    method SendDataToSunWatch(data: Option<seq<byte>>, nodes: seq<NodeId>)
      modifies this`effects
      ensures effects == old(effects) + SendData(isConnected, data, nodes)
    {
      if isConnected {
        effects := effects + [ListConnectedNodes];
        var i := 0;
        while i < |nodes|
          invariant 0 <= i <= |nodes|
          invariant effects == old(effects) + [ListConnectedNodes] + SendEffects(Broadcast(nodes[..i], data))
        {
          assert SendEffects(Broadcast(nodes[..i + 1], data)) ==
            SendEffects(Broadcast(nodes[..i], data)) + [Send(Message(nodes[i], DataPath, data))];
          effects := effects + [Send(Message(nodes[i], DataPath, data))];
          i := i + 1;
        }
        assert nodes[..|nodes|] == nodes;
      }
    }

    /**
     * `onMessageReceived`: a ready request on the data path queries the
     * forecast and sends whatever came back; another body on the data path
     * does nothing; another path goes to the superclass.
     */
    method OnMessageReceived(path: string, data: seq<byte>, query: QueryResult, res: Resources, nodes: seq<NodeId>)
      modifies this`effects
      ensures effects == old(effects) + Reaction(isConnected, path, data, query, res, nodes)
    {
      if path == DataPath {
        if data == ReadyToken {
          effects := effects + [QueryForecast];
          var payload := GetAllRelevantForecastData(query, res);
          SendDataToSunWatch(payload, nodes);
        }
      } else {
        effects := effects + [DelegateToSuper];
      }
    }
  }

  /**
   * Two identical ready requests to a connected service are answered twice:
   * nothing deduplicates them.
   */
  method RepeatedReadyRequest(query: QueryResult, res: Resources, nodes: seq<NodeId>) returns (sent: seq<Message>)
    ensures sent == Broadcast(nodes, ForecastData(query, res)) + Broadcast(nodes, ForecastData(query, res))
  {
    var service := new WearableService();
    service.OnConnected();
    service.OnMessageReceived(DataPath, ReadyToken, query, res, nodes);
    service.OnMessageReceived(DataPath, ReadyToken, query, res, nodes);
    ghost var reply := Reaction(true, DataPath, ReadyToken, query, res, nodes);
    assert service.effects == [Connect] + reply + reply;
    OutboxOfTwoReplies(reply);
    ReplyMessages(true, DataPath, ReadyToken, query, res, nodes);
    sent := Outbox(service.effects);
  }
}
