/**
 * The realtime connection to the ingestion server. The Socket.IO transport
 * is reduced to two facts (whether one exists, whether it reports itself
 * connected); each event it delivers to a registered handler is a method
 * call, and each message the service emits is appended to `emitted`.
 */
module Socket {
  import opened Wrappers
  import opened JsonTree
  import opened Platform

  datatype ConnectionState = Disconnected | Connecting | Connected | Error(message: string)

  /** A value put into an outbound `JSONObject`. */
  datatype PayloadValue = PString(str: string) | PDouble(double: Double) | PFloat(float: Float) | PLong(long: int)

  /** What the service emits over the transport. */
  datatype Emitted = GetTrackingStatus | LocationUpdate(payload: map<string, PayloadValue>)

  /** What building the transport (`IO.socket`) does. */
  datatype Construction =
    | Built
    | BadUri(detail: Option<string>)     // URISyntaxException and its message
    | Failed(detail: Option<string>)     // any other exception and its message

  /** The first argument of a `connect_error` event. */
  datatype ConnectErrorArg = NoArgument | ExceptionArg(message: Option<string>) | OtherArg(text: string)

  /** The server events the service registers a handler for; `arg` is the first argument. */
  datatype ServerEvent =
    | TrackingStatusChanged(arg: Option<Json>)
    | TrackingStatus(arg: Option<Json>)
    | TrackingStatusResponse(arg: Option<Json>)
    | LocationConfirmed
    | LocationError
    | LocationRealtime
    | LocationAllLocations
    | Welcome
    | GeneralError

  const UNKNOWN_ERROR := "Error desconocido"
  const BAD_URL_PREFIX := "URL inválida: "

  /** The message a `connect_error` puts into the `Error` state. */
  function ConnectErrorMessage(arg: ConnectErrorArg): string {
    match arg
    case NoArgument => UNKNOWN_ERROR
    case ExceptionArg(m) => m.GetOr(UNKNOWN_ERROR)
    case OtherArg(t) => t
  }

  /**
   * org.json's `opt(key)` read as a boolean the way `optBoolean(key, false)`
   * does: a boolean, or a string equal to "true" ignoring case, is true;
   * anything else, including a missing key, is the default false.
   */
  predicate IsTrueString(s: string) {
    |s| == 4 && (s[0] == 't' || s[0] == 'T') && (s[1] == 'r' || s[1] == 'R')
    && (s[2] == 'u' || s[2] == 'U') && (s[3] == 'e' || s[3] == 'E')
  }

  /** `(args.firstOrNull() as? JSONObject)?.optBoolean("active", false) ?: false`. */
  function ActiveFlag(arg: Option<Json>): (active: bool)
    ensures active <==> arg.Some? && arg.value.JObj? && "active" in arg.value.fields
                        && (arg.value.fields["active"] == JBool(true)
                            || (arg.value.fields["active"].JStr? && IsTrueString(arg.value.fields["active"].str)))
  {
    match arg
    case Some(JObj(fields)) =>
      if "active" !in fields then false
      else (
        match fields["active"]
        case JBool(b) => b
        case JStr(s) => IsTrueString(s)
        case _ => false)
    case _ => false
  }

  /**
   * The `location:update` payload: `userId`, `latitude`, `longitude`,
   * `timestamp`, and `accuracy` only when there is one.
   */
  function LocationPayload(userId: string, latitude: Double, longitude: Double, accuracy: Option<Float>, timestamp: int)
    : (p: map<string, PayloadValue>)
    ensures p.Keys == {"userId", "latitude", "longitude", "timestamp"} + (if accuracy.Some? then {"accuracy"} else {})
    ensures p["userId"] == PString(userId) && p["latitude"] == PDouble(latitude)
            && p["longitude"] == PDouble(longitude) && p["timestamp"] == PLong(timestamp)
    ensures accuracy.Some? ==> p["accuracy"] == PFloat(accuracy.value)
  {
    var p := map["userId" := PString(userId), "latitude" := PDouble(latitude),
                 "longitude" := PDouble(longitude), "timestamp" := PLong(timestamp)];
    if accuracy.Some? then p["accuracy" := PFloat(accuracy.value)] else p
  }

  /**
   * What `sendLocation` emits: nothing unless the transport is connected,
   * and nothing when `JSONObject.put` refuses a non-finite number (the
   * exception is caught); otherwise exactly one `location:update`.
   */
  function LocationSend(connected: bool, userId: string, latitude: Double, longitude: Double,
                        accuracy: Option<Float>, now: int): (out: seq<Emitted>)
    ensures |out| <= 1
    ensures out != [] <==> connected && latitude.IsFinite() && longitude.IsFinite()
                           && (accuracy.Some? ==> accuracy.value.IsFinite())
    ensures out != [] ==> out[0] == LocationUpdate(LocationPayload(userId, latitude, longitude, accuracy, now))
  {
    if !connected then []
    else if !latitude.IsFinite() || !longitude.IsFinite() then []
    else if accuracy.Some? && !accuracy.value.IsFinite() then []
    else [LocationUpdate(LocationPayload(userId, latitude, longitude, accuracy, now))]
  }

  /** The state `connect()` leaves, from the state it finds. */
  function AfterConnect(state: ConnectionState, construction: Construction): (r: ConnectionState)
    ensures state == Connected ==> r == Connected
    ensures state != Connected ==> r != Connected && r != Disconnected
    ensures state != Connected ==> (r == Connecting <==> construction == Built)
  {
    if state == Connected then Connected
    else match construction
      case Built => Connecting
      case BadUri(detail) => Error(BAD_URL_PREFIX + detail.GetOr("null"))
      case Failed(detail) => Error(detail.GetOr(UNKNOWN_ERROR))
  }

  class SocketService {
    var hasTransport: bool
    var transportConnected: bool
    var state: ConnectionState
    var trackingActive: bool
    var emitted: seq<Emitted>
    /** How many transports `IO.socket` has built; a replaced one is not closed. */
    var transportsBuilt: nat

    /**
     * Only an existing transport can be connected, and the state says
     * `Connected` exactly when the transport is.
     */
    ghost predicate Valid()
      reads this`hasTransport, this`transportConnected, this`state
    {
      (transportConnected ==> hasTransport) && (transportConnected <==> state == Connected)
    }

    constructor ()
      ensures Valid()
      ensures state == Disconnected && !trackingActive
      ensures !hasTransport && !transportConnected && emitted == [] && transportsBuilt == 0
    {
      transportsBuilt := 0;
      hasTransport, transportConnected := false, false;
      state, trackingActive := Disconnected, false;
      emitted := [];
    }

    /** `isConnected()`: whether the current transport reports itself connected. */
    method IsConnected() returns (connected: bool)
      requires Valid()
      ensures connected <==> state == Connected
      ensures connected ==> hasTransport
    {
      connected := hasTransport && transportConnected;
    }

    /**
     * `connect()`: nothing when the transport is connected. Otherwise a
     * fresh transport is built and the state is `Connecting`, or building
     * fails and the state is `Error` with the reason.
     */
    method Connect(construction: Construction)
      requires Valid()
      modifies this`hasTransport, this`transportConnected, this`state, this`transportsBuilt
      ensures Valid()
      ensures state == AfterConnect(old(state), construction)
      ensures hasTransport == (old(hasTransport) || (old(state) != Connected && construction == Built))
      ensures transportsBuilt == old(transportsBuilt) + (if old(state) != Connected && construction == Built then 1 else 0)
    {
      if hasTransport && transportConnected {
        return;
      }
      match construction
      case Built =>
        hasTransport, transportConnected := true, false;
        transportsBuilt := transportsBuilt + 1;
        state := Connecting;
      case BadUri(detail) =>
        state := Error(BAD_URL_PREFIX + detail.GetOr("null"));
      case Failed(detail) =>
        state := Error(detail.GetOr(UNKNOWN_ERROR));
    }

    /** The transport's `connect` event: `Connected`, then one `tracking:getStatus`. */
    method OnConnect()
      requires Valid() && hasTransport
      modifies this`transportConnected, this`state, this`emitted
      ensures Valid()
      ensures transportConnected && state == Connected
      ensures emitted == old(emitted) + [GetTrackingStatus]
    {
      transportConnected := true;
      state := Connected;
      emitted := emitted + [GetTrackingStatus];
    }

    /** The transport's `disconnect` event: `Disconnected`; the tracking flag is kept. */
    method OnDisconnect()
      requires Valid() && hasTransport
      modifies this`transportConnected, this`state
      ensures Valid()
      ensures !transportConnected && state == Disconnected
    {
      transportConnected := false;
      state := Disconnected;
    }

    /** The transport's `connect_error` event: `Error` with the reported reason. */
    method OnConnectError(arg: ConnectErrorArg)
      requires Valid() && hasTransport
      modifies this`transportConnected, this`state
      ensures Valid()
      ensures !transportConnected && state == Error(ConnectErrorMessage(arg))
    {
      transportConnected := false;
      state := Error(ConnectErrorMessage(arg));
    }

    /**
     * A server event. The three tracking events set the tracking flag from
     * their payload; the others are only logged.
     */
    method OnServerEvent(event: ServerEvent)
      requires Valid() && hasTransport
      modifies this`trackingActive
      ensures Valid()
      ensures (event.TrackingStatusChanged? || event.TrackingStatus? || event.TrackingStatusResponse?)
              ==> trackingActive == ActiveFlag(event.arg)
      ensures !(event.TrackingStatusChanged? || event.TrackingStatus? || event.TrackingStatusResponse?)
              ==> trackingActive == old(trackingActive)
    {
      match event
      case TrackingStatusChanged(arg) => trackingActive := ActiveFlag(arg);
      case TrackingStatus(arg) => trackingActive := ActiveFlag(arg);
      case TrackingStatusResponse(arg) => trackingActive := ActiveFlag(arg);
      case _ =>
    }

    /** `disconnect()`: no transport, `Disconnected`, tracking off, whatever came before. */
    method Disconnect()
      requires Valid()
      modifies this`hasTransport, this`transportConnected, this`state, this`trackingActive
      ensures Valid()
      ensures !hasTransport && !transportConnected && state == Disconnected && !trackingActive
    {
      hasTransport, transportConnected := false, false;
      state := Disconnected;
      trackingActive := false;
    }

    /** `sendLocation`: at most one `location:update`, and only over a connected transport. */
    method SendLocation(userId: string, latitude: Double, longitude: Double, accuracy: Option<Float>, now: int)
      requires Valid()
      modifies this`emitted
      ensures emitted == old(emitted) + LocationSend(state == Connected, userId, latitude, longitude, accuracy, now)
    {
      if !(hasTransport && transportConnected) {
        return;
      }
      if !latitude.IsFinite() || !longitude.IsFinite() || (accuracy.Some? && !accuracy.value.IsFinite()) {
        return;
      }
      emitted := emitted + [LocationUpdate(LocationPayload(userId, latitude, longitude, accuracy, now))];
    }

    /** `requestTrackingStatus()`: one `tracking:getStatus`, only over a connected transport. */
    method RequestTrackingStatus()
      requires Valid()
      modifies this`emitted
      ensures emitted == old(emitted) + (if state == Connected then [GetTrackingStatus] else [])
    {
      if hasTransport && transportConnected {
        emitted := emitted + [GetTrackingStatus];
      }
    }
  }
}
