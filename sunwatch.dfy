/**
 * The watch side of the weather sync: the sync engine embedded in the watch
 * face's `Engine`, plus the few deterministic rules of the face itself (the
 * time-zone receiver flag, ambient mode and anti-aliasing, the one-second
 * update timer, and the colon and two-digit time text).
 *
 * Platform calls (listener registration, connect and disconnect, message
 * sends, receiver registration) are appended to the engine's `effects` log.
 * Worker threads run to completion at the point where they are started.
 */
module SunWatch {
  import opened Wrappers
  import opened Wire

  /** The capability the handheld advertises and the watch looks for. */
  const CapabilityName: string := "fetch_weather_data_capability"

  /** `INTERACTIVE_UPDATE_RATE_MS`: one second. */
  const InteractiveUpdateRateMs: int := 1000

  // ---------------------------------------------------------------------------
  // Peer selection and the ready request
  // ---------------------------------------------------------------------------

  /** A reachable peer as the capability lookup reports it. */
  datatype Node = Node(id: NodeId, displayName: string, isNearby: bool)

  /** `k` is the position of the first nearby node. */
  ghost predicate IsFirstNearby(nodes: seq<Node>, k: int)
  {
    0 <= k < |nodes| && nodes[k].isNearby && forall j :: 0 <= j < k ==> !nodes[j].isNearby
  }

  /** The first node marked nearby, in iteration order, if there is one. */
  function FirstNearby(nodes: seq<Node>): (r: Option<Node>)
    ensures r.None? <==> forall i :: 0 <= i < |nodes| ==> !nodes[i].isNearby
    ensures r.Some? ==> exists k :: IsFirstNearby(nodes, k) && nodes[k] == r.value
  {
    if nodes == [] then None
    else if nodes[0].isNearby then (assert IsFirstNearby(nodes, 0); Some(nodes[0]))
    else
      var r := FirstNearby(nodes[1..]);
      assert r.Some? ==> exists k :: IsFirstNearby(nodes, k) && nodes[k] == r.value by {
        if r.Some? {
          var k :| IsFirstNearby(nodes[1..], k) && nodes[1..][k] == r.value;
          assert IsFirstNearby(nodes, k + 1);
        }
      }
      r
  }

  /** The one ready request `updateConnectionCapability` sends for a capability snapshot, if any. */
  function ReadyRequest(nodes: seq<Node>): Option<Message>
  {
    if |nodes| == 0 then None
    else match FirstNearby(nodes)
      case None => None
      case Some(node) => Some(Message(node.id, DataPath, Some(ReadyToken)))
  }

  /**
   * An empty snapshot, or one without a nearby node, sends nothing; otherwise
   * exactly one ready token goes on the data path to the first nearby node.
   */
  lemma PeerSelection(nodes: seq<Node>)
    ensures ReadyRequest(nodes).None? <==> forall i :: 0 <= i < |nodes| ==> !nodes[i].isNearby
    ensures ReadyRequest(nodes).Some? ==>
      exists k :: IsFirstNearby(nodes, k) &&
        ReadyRequest(nodes).value == Message(nodes[k].id, DataPath, Some(ReadyToken))
  {
  }

  // ---------------------------------------------------------------------------
  // Timer, colon and time text
  // ---------------------------------------------------------------------------

  /** `shouldTimerBeRunning`: the face is visible and interactive. */
  predicate ShouldTimerBeRunning(visible: bool, inAmbientMode: bool)
  {
    visible && !inAmbientMode
  }

  /** Java's `/` on `long`: the quotient is truncated toward zero. */
  function JavaDiv(a: int, b: int): int
    requires b > 0
  {
    if a >= 0 then a / b else -((-a) / b)
  }

  /** Java's `%` on `long`: the remainder takes the sign of the dividend. */
  function JavaRem(a: int, b: int): (r: int)
    requires b > 0
    ensures a >= 0 ==> 0 <= r < b
    ensures a < 0 ==> -b < r <= 0
    ensures a == JavaDiv(a, b) * b + r
  {
    if a >= 0 then a % b else -((-a) % b)
  }

  /** The delay `handleUpdateTimeMessage` waits for the next tick. */
  function TickDelay(nowMs: int): (delayMs: int)
    ensures (nowMs + delayMs) % InteractiveUpdateRateMs == 0
    ensures nowMs >= 0 ==> 1 <= delayMs <= InteractiveUpdateRateMs
  {
    InteractiveUpdateRateMs - JavaRem(nowMs, InteractiveUpdateRateMs)
  }

  /** For a time after the epoch, the tick lands on the NEXT whole second: none is skipped. */
  lemma TickDelayIsNextSecond(nowMs: int, k: int)
    requires nowMs >= 0 && 0 < k < TickDelay(nowMs)
    ensures (nowMs + k) % InteractiveUpdateRateMs != 0
  {
  }

  /** `isColonVisible`: always in ambient mode, on even seconds otherwise. */
  predicate ColonVisible(inAmbientMode: bool, second: nat)
  {
    inAmbientMode || second % 2 == 0
  }

  /** In interactive mode the colon blinks: shown and hidden on alternate seconds. */
  lemma ColonBlinks(second: nat)
    ensures ColonVisible(false, second) != ColonVisible(false, second + 1)
    ensures ColonVisible(true, second)
  {
  }

  function DigitChar(d: nat): (c: char)
    requires d < 10
    ensures '0' <= c <= '9' && c as int - '0' as int == d
  {
    ('0' as int + d) as char
  }

  /** `String.format("%02d", n)` for a field in `0..99`. */
  function TwoDigits(n: nat): (s: string)
    requires n < 100
    ensures |s| == 2 && '0' <= s[0] <= '9' && '0' <= s[1] <= '9'
    ensures (s[0] as int - '0' as int) * 10 + (s[1] as int - '0' as int) == n
  {
    [DigitChar(n / 10), DigitChar(n % 10)]
  }

  // ---------------------------------------------------------------------------
  // The reply
  // ---------------------------------------------------------------------------

  /** The eight bytes every PNG file starts with. */
  const PngSignature: seq<byte> := [0x89, 0x50, 0x4E, 0x47, 0x0D, 0x0A, 0x1A, 0x0A]

  predicate HasPngSignature(b: seq<byte>)
  {
    |b| >= 8 && b[..8] == PngSignature
  }

  /** A decoded bitmap, kept as the bytes it was decoded from. */
  datatype Bitmap = Bitmap(png: ByteArray)

  /** `BitmapFactory.decodeByteArray`: null for bytes that are not an image. */
  function DecodeBitmap(b: ByteArray): Option<Bitmap>
  {
    if HasPngSignature(b) then Some(Bitmap(b)) else None
  }

  /** The ASCII space the watch puts in front of each label. */
  const Space: byte := 0x20

  /** `" " + new String(bytes)`, in bytes. */
  function Labelled(text: seq<byte>): seq<byte>
  {
    [Space] + text
  }

  /** The three weather fields of the face; `None` is Java's null. */
  datatype Weather = Weather(bitmap: Option<Bitmap>, maxTemp: Option<seq<byte>>, minTemp: Option<seq<byte>>)

  /** Why an uncaught exception leaves `onMessageReceived`. */
  datatype Failure = IndexOutOfBounds | NullBitmap

  /** How `onMessageReceived` ended. */
  datatype Delivery =
    | NotForUs           // another path: ignored
    | StreamCaught       // the blob did not read as a list: IOException, caught and logged
    | Escaped(failure: Failure)  // an uncaught exception, after the fields assigned so far
    | Applied            // all three fields stored

  datatype Reception = Reception(weather: Weather, delivery: Delivery)

  /** A reply the watch stores in full: a list of at least three arrays whose first is an image. */
  predicate WellFormedReply(data: seq<byte>)
  {
    var list := Deserialize(data);
    list.Some? && |list.value| >= 3 && HasPngSignature(list.value[0])
  }

  /**
   * What `onMessageReceived` does to the weather fields, in the order the code
   * assigns them: the icon first, then the raw max label, then the min label,
   * then both labels get their leading space. An exception that is not an
   * IOException leaves whatever was already assigned.
   */
  function Receive(w: Weather, path: string, data: seq<byte>): (r: Reception)
    ensures path != DataPath ==> r == Reception(w, NotForUs)
    ensures r.delivery.NotForUs? || r.delivery.StreamCaught? ==> r.weather == w
    ensures r.delivery.Applied? <==> path == DataPath && WellFormedReply(data)
    ensures r.weather.minTemp != w.minTemp ==> r.delivery.Applied?
    ensures r.delivery.Applied? ==>
      var list := Deserialize(data).value;
      r.weather == Weather(Some(Bitmap(list[0])), Some(Labelled(list[1])), Some(Labelled(list[2])))
  {
    if path != DataPath then Reception(w, NotForUs)
    else match Deserialize(data)
      case None => Reception(w, StreamCaught)
      case Some(list) =>
        if |list| == 0 then Reception(w, Escaped(IndexOutOfBounds))
        else
          var bitmap := DecodeBitmap(list[0]);
          var w1 := w.(bitmap := bitmap);
          if bitmap.None? then Reception(w1, Escaped(NullBitmap))
          else if |list| < 2 then Reception(w1, Escaped(IndexOutOfBounds))
          else if |list| < 3 then Reception(w1.(maxTemp := Some(list[1])), Escaped(IndexOutOfBounds))
          else Reception(Weather(bitmap, Some(Labelled(list[1])), Some(Labelled(list[2]))), Applied)
  }

  /** A ready token arriving on the data path is not a list: it is caught and changes nothing. */
  lemma ReadyTokenIsNotAReply(w: Weather)
    ensures Receive(w, DataPath, ReadyToken) == Reception(w, StreamCaught)
  {
  }

  /**
   * Decoding is not all-or-nothing: a one-element list holding an image
   * replaces the icon, keeps the old labels, and ends in an uncaught exception.
   */
  lemma IconStoredBeforeLabels(w: Weather, icon: ByteArray)
    requires HasPngSignature(icon)
    ensures Receive(w, DataPath, Serialize([icon])) ==
      Reception(w.(bitmap := Some(Bitmap(icon))), Escaped(IndexOutOfBounds))
  {
    SerializeRoundTrip([icon], []);
    assert Serialize([icon]) + [] == Serialize([icon]);
  }

  // ---------------------------------------------------------------------------
  // The engine
  // ---------------------------------------------------------------------------

  /** A platform call the engine makes. */
  datatype WatchEffect =
    | Connect
    | Disconnect
    | AddCapabilityListener(capability: string)
    | RemoveCapabilityListener(capability: string)
    | AddMessageListener
    | RemoveMessageListener
    | RegisterTimeZoneReceiver
    | UnregisterTimeZoneReceiver
    | Send(message: Message)

  /** How a platform call changes the number of outstanding time-zone receiver registrations. */
  function ReceiverDelta(e: WatchEffect): int
  {
    match e
    case RegisterTimeZoneReceiver => 1
    case UnregisterTimeZoneReceiver => -1
    case _ => 0
  }

  /** Registrations minus unregistrations of the time-zone receiver in a log. */
  ghost function ReceiverBalance(log: seq<WatchEffect>): int
  {
    if log == [] then 0 else ReceiverBalance(log[..|log| - 1]) + ReceiverDelta(log[|log| - 1])
  }

  /** The effect of one `updateConnectionCapability` call. */
  function ReadyEffects(nodes: seq<Node>): seq<WatchEffect>
  {
    match ReadyRequest(nodes)
    case None => []
    case Some(m) => [Send(m)]
  }

  /** The listener removals and the disconnect of suspend, fail and hide. */
  const Teardown: seq<WatchEffect> := [RemoveCapabilityListener(CapabilityName), RemoveMessageListener]

  class Engine {
    var registeredTimeZoneReceiver: bool
    /** `mLowBitAmbient`, from the display's properties. */
    var lowBitAmbient: bool
    /** `mAmbient`, the face's own copy of the mode. */
    var ambient: bool
    /** `isInAmbientMode()`, set by the framework before `onAmbientModeChanged`. */
    var inAmbientMode: bool
    /** `isVisible()`, set by the framework before `onVisibilityChanged`. */
    var visible: bool
    /** Anti-aliasing of the time, max-temperature and min-temperature paints. */
    var timeAntiAlias: bool
    var maxTempAntiAlias: bool
    var minTempAntiAlias: bool
    var isColonVisible: bool
    /** The delays of the `MSG_UPDATE_TIME` messages queued on the update handler. */
    var scheduled: seq<int>
    /** `mGoogleApiClient.isConnected()`. */
    var clientConnected: bool
    var weatherBitmap: Option<Bitmap>
    var maxTemp: Option<seq<byte>>
    var minTemp: Option<seq<byte>>
    var effects: seq<WatchEffect>

    /**
     * At most one tick is queued, and one is queued exactly when the timer
     * should run; `mAmbient` agrees with the framework's mode; the receiver
     * flag says whether a registration is outstanding.
     */
    ghost predicate Valid()
      reads this
    {
      && |scheduled| <= 1
      && (scheduled != [] <==> ShouldTimerBeRunning(visible, inAmbientMode))
      && ambient == inAmbientMode
      && ReceiverBalance(effects) == (if registeredTimeZoneReceiver then 1 else 0)
    }

    function CurrentWeather(): Weather
      reads this
    {
      Weather(weatherBitmap, maxTemp, minTemp)
    }

    /** `onCreate`: text paints anti-aliased, client connecting, nothing else set. */
    constructor ()
      ensures Valid()
      ensures !registeredTimeZoneReceiver && !lowBitAmbient && !ambient && !inAmbientMode && !visible
      ensures timeAntiAlias && maxTempAntiAlias && minTempAntiAlias && !isColonVisible
      ensures scheduled == [] && !clientConnected
      ensures CurrentWeather() == Weather(None, None, None)
      ensures effects == [Connect]
    {
      registeredTimeZoneReceiver, lowBitAmbient, ambient, inAmbientMode, visible := false, false, false, false, false;
      timeAntiAlias, maxTempAntiAlias, minTempAntiAlias, isColonVisible := true, true, true, false;
      scheduled, clientConnected := [], false;
      weatherBitmap, maxTemp, minTemp := None, None, None;
      effects := [Connect];
      assert [Connect][..0] == [];
    }

    /** Appends one platform call to the log. */
    method Emit(e: WatchEffect)
      modifies this`effects
      ensures effects == old(effects) + [e]
      ensures ReceiverBalance(effects) == old(ReceiverBalance(effects)) + ReceiverDelta(e)
    {
      effects := effects + [e];
      assert effects[..|effects| - 1] == old(effects);
    }

    method OnPropertiesChanged(lowBit: bool)
      modifies this`lowBitAmbient
      ensures lowBitAmbient == lowBit
    {
      lowBitAmbient := lowBit;
    }

    /** `registerReceiver`: registers at most once. */
    method RegisterReceiver()
      requires ReceiverBalance(effects) == (if registeredTimeZoneReceiver then 1 else 0)
      modifies this`registeredTimeZoneReceiver, this`effects
      ensures registeredTimeZoneReceiver && ReceiverBalance(effects) == 1
      ensures effects == old(effects) + if old(registeredTimeZoneReceiver) then [] else [RegisterTimeZoneReceiver]
    {
      if registeredTimeZoneReceiver {
        return;
      }
      registeredTimeZoneReceiver := true;
      Emit(RegisterTimeZoneReceiver);
    }

    /** `unregisterReceiver`: a no-op when nothing is registered. */
    method UnregisterReceiver()
      requires ReceiverBalance(effects) == (if registeredTimeZoneReceiver then 1 else 0)
      modifies this`registeredTimeZoneReceiver, this`effects
      ensures !registeredTimeZoneReceiver && ReceiverBalance(effects) == 0
      ensures effects == old(effects) + if old(registeredTimeZoneReceiver) then [UnregisterTimeZoneReceiver] else []
    {
      if !registeredTimeZoneReceiver {
        return;
      }
      registeredTimeZoneReceiver := false;
      Emit(UnregisterTimeZoneReceiver);
    }

    /** `updateTimer`: drop any queued tick, then queue one now if the timer should run. */
    method UpdateTimer()
      modifies this`scheduled
      ensures scheduled == if ShouldTimerBeRunning(visible, inAmbientMode) then [0] else []
    {
      scheduled := [];
      if ShouldTimerBeRunning(visible, inAmbientMode) {
        scheduled := scheduled + [0];
      }
    }

    /** The hidden face's teardown of a connected client. */
    method RemoveListenersAndDisconnect()
      modifies this`clientConnected, this`effects
      ensures !clientConnected
      ensures effects == old(effects) + Teardown + [Disconnect]
      ensures ReceiverBalance(effects) == old(ReceiverBalance(effects))
    {
      Emit(RemoveCapabilityListener(CapabilityName));
      Emit(RemoveMessageListener);
      Emit(Disconnect);
      clientConnected := false;
    }

    method OnVisibilityChanged(isVisible: bool)
      requires Valid()
      modifies this`visible, this`registeredTimeZoneReceiver, this`clientConnected, this`scheduled, this`effects
      ensures Valid()
      ensures visible == isVisible && registeredTimeZoneReceiver == isVisible
      ensures clientConnected == (old(clientConnected) && isVisible)
      ensures isVisible ==>
        effects == old(effects) + (if old(registeredTimeZoneReceiver) then [] else [RegisterTimeZoneReceiver])
      ensures !isVisible ==>
        effects == old(effects) + (if old(registeredTimeZoneReceiver) then [UnregisterTimeZoneReceiver] else []) +
                   (if old(clientConnected) then Teardown + [Disconnect] else [])
      ensures scheduled == if ShouldTimerBeRunning(visible, inAmbientMode) then [0] else []
    {
      visible := isVisible;
      if isVisible {
        RegisterReceiver();
      } else {
        UnregisterReceiver();
        if clientConnected {
          RemoveListenersAndDisconnect();
        }
      }
      UpdateTimer();
    }

    method OnAmbientModeChanged(isInAmbient: bool)
      requires Valid()
      modifies this`inAmbientMode, this`ambient, this`scheduled,
               this`timeAntiAlias, this`maxTempAntiAlias, this`minTempAntiAlias
      ensures Valid()
      ensures ambient == isInAmbient && inAmbientMode == isInAmbient
      ensures if old(ambient) != isInAmbient && lowBitAmbient then
          timeAntiAlias == maxTempAntiAlias == minTempAntiAlias == !isInAmbient
        else
          timeAntiAlias == old(timeAntiAlias) && maxTempAntiAlias == old(maxTempAntiAlias) &&
          minTempAntiAlias == old(minTempAntiAlias)
      ensures scheduled == if ShouldTimerBeRunning(visible, inAmbientMode) then [0] else []
    {
      inAmbientMode := isInAmbient;
      if ambient != isInAmbient {
        ambient := isInAmbient;
        if lowBitAmbient {
          timeAntiAlias := !isInAmbient;
          maxTempAntiAlias := !isInAmbient;
          minTempAntiAlias := !isInAmbient;
        }
      }
      UpdateTimer();
    }

    /** `handleUpdateTimeMessage`: queue the next tick for the next whole second while the timer should run. */
    method HandleUpdateTimeMessage(nowMs: int)
      modifies this`scheduled
      ensures scheduled == old(scheduled) +
        if ShouldTimerBeRunning(visible, inAmbientMode) then [TickDelay(nowMs)] else []
    {
      if ShouldTimerBeRunning(visible, inAmbientMode) {
        var delayMs := InteractiveUpdateRateMs - JavaRem(nowMs, InteractiveUpdateRateMs);
        scheduled := scheduled + [delayMs];
      }
    }

    /** The update handler delivers the queued tick (`EngineHandler.handleMessage`). */
    method DeliverTick(nowMs: int)
      requires Valid() && scheduled != []
      modifies this`scheduled
      ensures Valid()
      ensures scheduled == [TickDelay(nowMs)]
    {
      scheduled := scheduled[1..];
      HandleUpdateTimeMessage(nowMs);
    }

    /** The time text of `onDraw`, for the calendar's hour, minute and second. */
    method OnDraw(hour: nat, minute: nat, second: nat) returns (hourText: string, minuteText: string)
      requires hour < 24 && minute < 60 && second < 60
      modifies this`isColonVisible
      ensures isColonVisible == ColonVisible(inAmbientMode, second)
      ensures hourText == TwoDigits(hour) && minuteText == TwoDigits(minute)
    {
      isColonVisible := inAmbientMode || second % 2 == 0;
      hourText := TwoDigits(hour);
      minuteText := TwoDigits(minute);
    }

    /** `sendReadyMessageToHandheld`. */
    method SendReadyMessageToHandheld(node: Node)
      modifies this`effects
      ensures effects == old(effects) + [Send(Message(node.id, DataPath, Some(ReadyToken)))]
      ensures ReceiverBalance(effects) == old(ReceiverBalance(effects))
    {
      Emit(Send(Message(node.id, DataPath, Some(ReadyToken))));
    }

    /** `updateConnectionCapability`: send the ready token to the first nearby node, if any. */
    method UpdateConnectionCapability(connectedNodes: seq<Node>)
      modifies this`effects
      ensures effects == old(effects) + ReadyEffects(connectedNodes)
      ensures ReceiverBalance(effects) == old(ReceiverBalance(effects))
    {
      if |connectedNodes| == 0 {
        // "Connection Lost!!" is only logged.
        return;
      }
      var nodeToUse: Option<Node> := None;
      var i := 0;
      while i < |connectedNodes|
        invariant 0 <= i <= |connectedNodes|
        invariant nodeToUse.None? && FirstNearby(connectedNodes) == FirstNearby(connectedNodes[i..])
      {
        if connectedNodes[i].isNearby {
          nodeToUse := Some(connectedNodes[i]);
          break;
        }
        assert connectedNodes[i..][1..] == connectedNodes[i + 1..];
        i := i + 1;
      }
      if nodeToUse.Some? {
        SendReadyMessageToHandheld(nodeToUse.value);
      }
    }

    method OnCapabilityChanged(nodes: seq<Node>)
      requires Valid()
      modifies this`effects
      ensures Valid()
      ensures effects == old(effects) + ReadyEffects(nodes)
    {
      UpdateConnectionCapability(nodes);
    }

    /**
     * `onConnected`: the capability lookup (run here to completion, with
     * `reachable` as its answer) may send a ready request; then both
     * listeners are added.
     */
    method OnConnected(reachable: seq<Node>)
      requires Valid()
      modifies this`clientConnected, this`effects
      ensures Valid() && clientConnected
      ensures effects == old(effects) + ReadyEffects(reachable) +
        [AddCapabilityListener(CapabilityName), AddMessageListener]
    {
      clientConnected := true;
      UpdateConnectionCapability(reachable);
      Emit(AddCapabilityListener(CapabilityName));
      Emit(AddMessageListener);
    }

    /** `onConnectionSuspended`: both listeners are removed. */
    method OnConnectionSuspended(cause: int)
      requires Valid()
      modifies this`clientConnected, this`effects
      ensures Valid() && !clientConnected
      ensures effects == old(effects) + Teardown
    {
      clientConnected := false;
      Emit(RemoveCapabilityListener(CapabilityName));
      Emit(RemoveMessageListener);
    }

    /** `onConnectionFailed`: both listeners are removed. */
    method OnConnectionFailed()
      requires Valid()
      modifies this`clientConnected, this`effects
      ensures Valid() && !clientConnected
      ensures effects == old(effects) + Teardown
    {
      clientConnected := false;
      Emit(RemoveCapabilityListener(CapabilityName));
      Emit(RemoveMessageListener);
    }

    /** `onMessageReceived`, field by field as the code assigns them. */
    method OnMessageReceived(path: string, data: seq<byte>) returns (delivery: Delivery)
      requires Valid()
      modifies this`weatherBitmap, this`maxTemp, this`minTemp
      ensures Valid()
      ensures Reception(CurrentWeather(), delivery) == Receive(old(CurrentWeather()), path, data)
    {
      if path != DataPath {
        return NotForUs;
      }
      var byteList := Deserialize(data);
      if byteList.None? {
        return StreamCaught;
      }
      var list := byteList.value;
      if |list| == 0 {
        return Escaped(IndexOutOfBounds);
      }
      weatherBitmap := DecodeBitmap(list[0]);
      if weatherBitmap.None? {
        return Escaped(NullBitmap);
      }
      if |list| < 2 {
        return Escaped(IndexOutOfBounds);
      }
      maxTemp := Some(list[1]);
      if |list| < 3 {
        return Escaped(IndexOutOfBounds);
      }
      minTemp := Some(list[2]);
      maxTemp := Some(Labelled(maxTemp.value));
      minTemp := Some(Labelled(minTemp.value));
      delivery := Applied;
    }
  }
}
