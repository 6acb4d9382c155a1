/**
 * The device positioning wrapper: one-shot fetches gated by the location
 * permission, and a registry of continuous-update subscriptions keyed by a
 * 32-bit watch id. The permission check and the provider's answers are
 * inputs.
 */
module Location {
  import opened Wrappers
  import opened Platform

  /** An `android.location.Location`, reduced to what the client reads. */
  datatype AndroidLocation = AndroidLocation(latitude: Double, longitude: Double, accuracy: Float, time: int)

  datatype LocationData = LocationData(latitude: Double, longitude: Double, accuracy: Option<Float>, timestamp: int)

  datatype LocationWatchId = LocationWatchId(id: int)

  /** How the provider's one-shot request ends. */
  datatype ProviderOutcome = ProviderSuccess(location: Option<AndroidLocation>) | ProviderFailure(message: Option<string>)

  /** What `getCurrentLocation` gives its caller: a location or null, or an exception. */
  datatype Fetch = Fetched(data: Option<LocationData>) | FetchFailed(message: Option<string>)

  /** A call the fused location provider accepted. */
  datatype ProviderCall<Callback> = RequestUpdates(watched: Callback) | RemoveUpdates(removed: Callback)

  /** `Location.toLocationData()`: every field is copied, and the accuracy is always present. */
  function ToLocationData(l: AndroidLocation): (d: LocationData)
    ensures d.latitude == l.latitude && d.longitude == l.longitude
    ensures d.accuracy == Some(l.accuracy) && d.timestamp == l.time
  {
    LocationData(l.latitude, l.longitude, Some(l.accuracy), l.time)
  }

  /**
   * `getCurrentLocation()`: null at once without the permission, whatever
   * the provider would have answered; otherwise the provider's one answer
   * is what the caller resumes with.
   */
  function GetCurrentLocation(permission: bool, outcome: ProviderOutcome): (r: Fetch)
    ensures !permission ==> r == Fetched(None)
    ensures r.FetchFailed? ==> permission && outcome == ProviderFailure(r.message)
    ensures r.Fetched? && r.data.Some?
            ==> permission && outcome.ProviderSuccess? && outcome.location.Some?
                && r.data.value == ToLocationData(outcome.location.value)
    ensures permission ==> (r.FetchFailed? <==> outcome.ProviderFailure?)
    ensures permission && outcome.ProviderSuccess? ==> (r.Fetched? && (r.data.Some? <==> outcome.location.Some?))
  {
    if !permission then Fetched(None)
    else match outcome
      case ProviderSuccess(location) =>
        Fetched(if location.Some? then Some(ToLocationData(location.value)) else None)
      case ProviderFailure(message) => FetchFailed(message)
  }

  /**
   * `DefaultLocationClient`'s watch registry. `watchIdCounter` is the
   * `AtomicInteger` (it wraps at 32 bits), `activeWatchers` the map from
   * watch id to the provider callback, `providerLog` the registrations and
   * removals the provider accepted, and `issued` how many ids were drawn.
   */
  class DefaultLocationClient<Callback> {
    var watchIdCounter: int
    var activeWatchers: map<int, Callback>
    var providerLog: seq<ProviderCall<Callback>>
    ghost var issued: nat

    /**
     * The counter is 1 plus the number of ids drawn, as a 32-bit value; and
     * until the counter wraps, every active id is positive and below it.
     */
    ghost predicate Valid()
      reads this`watchIdCounter, this`issued, this`activeWatchers
    {
      watchIdCounter == WrapInt32(1 + issued)
      && (issued < MAX_INT32 ==> forall k :: k in activeWatchers ==> 1 <= k < watchIdCounter)
    }

    constructor ()
      ensures Valid()
      ensures watchIdCounter == 1 && activeWatchers == map[] && providerLog == [] && issued == 0
    {
      watchIdCounter := 1;
      activeWatchers := map[];
      providerLog := [];
      issued := 0;
    }

    /**
     * `startLocationUpdates`: without the permission nothing happens. With
     * it an id is drawn (`getAndIncrement`) even when the provider then
     * throws `SecurityException`; only an accepted registration enters the
     * map and is returned.
     */
    method StartLocationUpdates(permission: bool, securityException: bool, callback: Callback)
      returns (w: Option<LocationWatchId>)
      requires Valid()
      modifies this
      ensures Valid()
      ensures !permission ==> w.None? && watchIdCounter == old(watchIdCounter) && issued == old(issued)
                              && activeWatchers == old(activeWatchers) && providerLog == old(providerLog)
      ensures permission ==> watchIdCounter == WrapInt32(old(watchIdCounter) + 1) && issued == old(issued) + 1
      ensures permission && securityException
              ==> w.None? && activeWatchers == old(activeWatchers) && providerLog == old(providerLog)
      ensures permission && !securityException
              ==> w == Some(LocationWatchId(old(watchIdCounter)))
                  && activeWatchers == old(activeWatchers)[old(watchIdCounter) := callback]
                  && providerLog == old(providerLog) + [RequestUpdates(callback)]
      ensures w.Some? && old(issued) < MAX_INT32 ==> w.value.id !in old(activeWatchers)
    {
      if !permission {
        return None;
      }
      var watchId := watchIdCounter;
      WrapInt32Succ(1 + issued);
      watchIdCounter := WrapInt32(watchIdCounter + 1);
      issued := issued + 1;
      if securityException {
        return None;
      }
      activeWatchers := activeWatchers[watchId := callback];
      providerLog := providerLog + [RequestUpdates(callback)];
      w := Some(LocationWatchId(watchId));
    }

    /**
     * `stopLocationUpdates`: removes exactly that id; the provider is told
     * only when the id was active.
     */
    method StopLocationUpdates(w: LocationWatchId)
      requires Valid()
      modifies this`activeWatchers, this`providerLog
      ensures Valid()
      ensures activeWatchers == old(activeWatchers) - {w.id}
      ensures providerLog == old(providerLog)
                             + (if w.id in old(activeWatchers) then [RemoveUpdates(old(activeWatchers)[w.id])] else [])
    {
      if w.id in activeWatchers {
        var callback := activeWatchers[w.id];
        activeWatchers := activeWatchers - {w.id};
        providerLog := providerLog + [RemoveUpdates(callback)];
      }
    }
  }
}
