/**
 * The telemetry controller: it fetches locations on demand, runs continuous
 * sending (a location watch plus a 15-second polling loop, one iteration of
 * which is `Tick`), forwards samples to the socket, and mirrors the
 * socket's state into the screen state. Permission checks, provider answers
 * and clock readings are inputs.
 */
module LocationUi {
  import opened Wrappers
  import opened Platform
  import opened Socket
  import opened Location
  import SessionStore
  import AuthRepository
  import AuthUi

  datatype LocationUiState = LocationUiState(
    latitude: Option<Double>,
    longitude: Option<Double>,
    accuracy: Option<Float>,
    isFetching: bool,
    errorMessage: Option<string>,
    isTracking: bool,
    isSendingContinuously: bool,
    hasLocationPermission: bool,
    socketConnectionState: ConnectionState,
    isSocketConnected: bool,
    isTrackingActive: bool)

  const NO_USER_ID_SEND := "No se puede enviar ubicación: userId no disponible"
  const NO_LOCATION := "No se pudo obtener la ubicación actual"
  const FETCH_FAILED := "Error al obtener la ubicación"
  const PERMISSION_REQUIRED_SEND := "Se requiere permiso de ubicación para enviar datos"
  const NO_USER_ID_START := "No se puede iniciar envío: userId no disponible. Por favor, reinicia la sesión."
  const PERMISSION_REQUIRED_CONTINUE := "Se requiere el permiso de ubicación para continuar"

  /** The screen state the view model starts from. */
  function InitialUi(permission: bool): LocationUiState {
    LocationUiState(None, None, None, false, None, false, false, permission, Disconnected, false, false)
  }

  /** The screen state showing `loc`. */
  function ShowLocation(ui: LocationUiState, loc: LocationData): LocationUiState {
    ui.(latitude := Some(loc.latitude), longitude := Some(loc.longitude), accuracy := loc.accuracy)
  }

  /** Whether every number of `loc` can be put into a JSON payload. */
  predicate Finite(loc: LocationData) {
    loc.latitude.IsFinite() && loc.longitude.IsFinite() && (loc.accuracy.Some? ==> loc.accuracy.value.IsFinite())
  }

  /**
   * What sending `loc` for the user, if one is known, emits on a socket in
   * state `state`: one update carrying that user and that location exactly
   * when there is a user, the socket is connected and the numbers are
   * finite; nothing otherwise.
   */
  function SendFor(state: ConnectionState, userId: Option<string>, loc: LocationData, now: int): (out: seq<Emitted>)
    ensures |out| <= 1
    ensures out != [] <==> userId.Some? && state == Connected && Finite(loc)
    ensures out != [] ==> userId.Some?
                          && out[0] == LocationUpdate(LocationPayload(userId.value, loc.latitude, loc.longitude, loc.accuracy, now))
  {
    if userId.Some? then LocationSend(state == Connected, userId.value, loc.latitude, loc.longitude, loc.accuracy, now)
    else []
  }

  /**
   * The screen `fetchLocation` leaves: the fetch is over; a location shows
   * with the permission confirmed and tracking on, and an error only when
   * no user id is known; no location leaves the coordinates as they were
   * and says why, with the permission read again.
   */
  function FetchedUi(ui: LocationUiState, fetched: Fetch, hasUser: bool, permissionAfter: bool): (r: LocationUiState)
    ensures !r.isFetching
    ensures r.isSendingContinuously == ui.isSendingContinuously && r.socketConnectionState == ui.socketConnectionState
            && r.isSocketConnected == ui.isSocketConnected && r.isTrackingActive == ui.isTrackingActive
    ensures r.errorMessage.None? <==> fetched.Fetched? && fetched.data.Some? && hasUser
    ensures fetched.Fetched? && fetched.data.Some?
            ==> r.latitude == Some(fetched.data.value.latitude) && r.longitude == Some(fetched.data.value.longitude)
                && r.accuracy == fetched.data.value.accuracy && r.hasLocationPermission && r.isTracking
                && (!hasUser ==> r.errorMessage == Some(NO_USER_ID_SEND))
    ensures !(fetched.Fetched? && fetched.data.Some?)
            ==> r.latitude == ui.latitude && r.longitude == ui.longitude && r.accuracy == ui.accuracy
                && r.isTracking == ui.isTracking && r.hasLocationPermission == permissionAfter
    ensures fetched == Fetched(None) ==> r.errorMessage == Some(NO_LOCATION)
    ensures fetched.FetchFailed? ==> r.errorMessage == Some(fetched.message.GetOr(FETCH_FAILED))
  {
    match fetched
    case Fetched(Some(loc)) =>
      ShowLocation(ui, loc).(isFetching := false, hasLocationPermission := true, isTracking := true,
                             errorMessage := if hasUser then None else Some(NO_USER_ID_SEND))
    case Fetched(None) =>
      ui.(isFetching := false, errorMessage := Some(NO_LOCATION), hasLocationPermission := permissionAfter)
    case FetchFailed(message) =>
      ui.(isFetching := false, errorMessage := Some(message.GetOr(FETCH_FAILED)), hasLocationPermission := permissionAfter)
  }

  /** What `fetchLocation` sends: a fetched location as `SendFor` says, nothing otherwise. */
  function FetchSent(state: ConnectionState, userId: Option<string>, fetched: Fetch, now: int): (out: seq<Emitted>)
    ensures |out| <= 1
    ensures out != [] <==> fetched.Fetched? && fetched.data.Some? && userId.Some? && state == Connected && Finite(fetched.data.value)
  {
    if fetched.Fetched? && fetched.data.Some? then SendFor(state, userId, fetched.data.value, now) else []
  }

  /**
   * End to end, a user id never stored means nothing is ever sent: with the
   * session `login` builds as written, the user id read back from a store
   * that had none is absent and no location is emitted, however good the
   * connection and the fix; with the session it evidently means to build,
   * the location goes out under the server's user id.
   */
  lemma AsWrittenLoginNeverSends(prefs: map<string, string>, result: AuthRepository.AuthResult,
                                 username: string, password: string, loc: LocationData, now: int)
    requires SessionStore.USER_ID !in prefs && result.userId.Some? && Finite(loc)
    ensures var stored := SessionStore.SessionOf(SessionStore.Saved(prefs, AuthUi.SessionAsWritten(result, username, password)));
            stored.Some? && SendFor(Connected, stored.value.userId, loc, now) == []
    ensures var stored := SessionStore.SessionOf(SessionStore.Saved(prefs, AuthUi.NewSession(result, username, password)));
            stored.Some? && |SendFor(Connected, stored.value.userId, loc, now)| == 1
            && SendFor(Connected, stored.value.userId, loc, now)[0]
               == LocationUpdate(LocationPayload(result.userId.value, loc.latitude, loc.longitude, loc.accuracy, now))
  {
    AuthUi.AsWrittenDropsUserId(prefs, result, username, password);
  }

  class LocationViewModel {
    var ui: LocationUiState
    var locationWatchId: Option<LocationWatchId>
    /** Whether `continuousSendingJob` holds a job. */
    var continuousSendingJob: bool
    var isSendingContinuously: bool
    var currentUserId: Option<string>
    const socket: SocketService
    const client: DefaultLocationClient<LocationViewModel>

    /**
     * The sending flag and its copy on the screen agree, a job runs exactly
     * while sending, the connection flag on the screen agrees with the
     * connection state on the screen, and the only watch this view model
     * has registered is `locationWatchId` (none while not sending).
     */
    ghost predicate Valid()
      reads this, socket`hasTransport, socket`transportConnected, socket`state,
            client`watchIdCounter, client`issued, client`activeWatchers
    {
      Parts() && continuousSendingJob == isSendingContinuously
      && (!isSendingContinuously ==> locationWatchId.None?)
    }

    /** What `Valid` asks apart from the job and the watch following the sending flag. */
    ghost predicate Parts()
      reads this, socket`hasTransport, socket`transportConnected, socket`state,
            client`watchIdCounter, client`issued, client`activeWatchers
    {
      socket.Valid() && client.Valid()
      && ui.isSocketConnected == (ui.socketConnectionState == Connected)
      && ui.isSendingContinuously == isSendingContinuously
      && WatchOwned()
    }

    /** The watches the client holds for this view model are exactly `locationWatchId`. */
    ghost predicate WatchOwned()
      reads this`locationWatchId, client`activeWatchers
    {
      (forall k :: k in client.activeWatchers && client.activeWatchers[k] == this
                   ==> locationWatchId == Some(LocationWatchId(k)))
      && (locationWatchId.Some? ==> locationWatchId.value.id in client.activeWatchers
                                    && client.activeWatchers[locationWatchId.value.id] == this)
    }

    /** No watch registered by this view model remains with the client. */
    ghost predicate NoOwnWatch()
      reads client`activeWatchers
    {
      forall k :: k in client.activeWatchers ==> client.activeWatchers[k] != this
    }

    /** Construction, with the permission as `init` reads it. */
    constructor (client: DefaultLocationClient<LocationViewModel>, permission: bool)
      requires client.Valid()
      ensures Valid() && fresh(socket) && this.client == client
      ensures ui == InitialUi(permission) && locationWatchId.None? && !isSendingContinuously && currentUserId.None?
      ensures socket.state == Disconnected && !socket.hasTransport && socket.emitted == []
    {
      this.client := client;
      socket := new SocketService();
      ui := InitialUi(permission);
      locationWatchId := None;
      continuousSendingJob := false;
      isSendingContinuously := false;
      currentUserId := None;
      new;
      assert forall k :: k in client.activeWatchers ==> client.activeWatchers[k] != this;
    }

    /** The session collector of `init`: the user id follows the stored session. */
    method OnSession(session: Option<SessionStore.AuthSession>)
      requires Valid()
      modifies this`currentUserId
      ensures Valid()
      ensures currentUserId == if session.Some? then session.value.userId else None
    {
      currentUserId := if session.Some? then session.value.userId else None;
    }

    /** The connection-state collector of `init`. */
    method MirrorConnectionState()
      requires Valid()
      modifies this`ui
      ensures Valid()
      ensures ui == old(ui).(socketConnectionState := socket.state, isSocketConnected := socket.state == Connected)
    {
      ui := ui.(socketConnectionState := socket.state, isSocketConnected := socket.state == Connected);
    }

    /** The tracking-flag collector of `init`. */
    method MirrorTrackingActive()
      requires Valid()
      modifies this`ui
      ensures Valid()
      ensures ui == old(ui).(isTrackingActive := socket.trackingActive)
    {
      ui := ui.(isTrackingActive := socket.trackingActive);
    }

    /** `connectSocket`. */
    method ConnectSocket(construction: Construction)
      requires Parts()
      modifies socket`hasTransport, socket`transportConnected, socket`state, socket`transportsBuilt
      ensures Parts()
      ensures socket.state == AfterConnect(old(socket.state), construction)
      ensures socket.hasTransport == (old(socket.hasTransport) || (old(socket.state) != Connected && construction == Built))
      ensures socket.transportsBuilt
              == old(socket.transportsBuilt) + (if old(socket.state) != Connected && construction == Built then 1 else 0)
    {
      socket.Connect(construction);
    }

    /**
     * `fetchLocation`: the screen ends as `FetchedUi` says and the socket
     * receives what `FetchSent` says.
     */
    method FetchLocation(permission: bool, outcome: ProviderOutcome, permissionAfter: bool, now: int)
      requires Valid()
      modifies this`ui, socket`emitted
      ensures Valid()
      ensures ui == FetchedUi(old(ui).(isFetching := true, errorMessage := None), GetCurrentLocation(permission, outcome),
                              currentUserId.Some?, permissionAfter)
      ensures socket.emitted == old(socket.emitted) + FetchSent(socket.state, currentUserId, GetCurrentLocation(permission, outcome), now)
    {
      ui := ui.(isFetching := true, errorMessage := None);
      var fetched := GetCurrentLocation(permission, outcome);
      SendFetched(fetched, now);
      ui := FetchedUi(ui, fetched, currentUserId.Some?, permissionAfter);
    }

    /** The send `fetchLocation` makes: a fetched location goes out when a user id is known. */
    method SendFetched(fetched: Fetch, now: int)
      requires Valid()
      modifies socket`emitted
      ensures socket.emitted == old(socket.emitted) + FetchSent(socket.state, currentUserId, fetched, now)
    {
      if fetched.Fetched? && fetched.data.Some? {
        SendIfKnown(fetched.data.value, now);
      }
    }

    /** `currentUserId?.let { socketService.sendLocation(...) }`: nothing goes out without a user id. */
    method SendIfKnown(loc: LocationData, now: int)
      requires Valid()
      modifies socket`emitted
      ensures socket.emitted == old(socket.emitted) + SendFor(socket.state, currentUserId, loc, now)
    {
      if currentUserId.Some? {
        socket.SendLocation(currentUserId.value, loc.latitude, loc.longitude, loc.accuracy, now);
      }
    }

    /**
     * `startTracking`: with the permission, registers this view model's
     * callback with the client and, when that worked, marks tracking.
     */
    method StartTracking(permission: bool, securityException: bool)
      requires Parts() && locationWatchId.None?
      modifies this`ui, this`locationWatchId, client
      ensures Parts()
      ensures !permission ==> ui == old(ui) && locationWatchId.None? && unchanged(client)
      ensures permission && securityException
              ==> ui == old(ui) && locationWatchId.None? && client.activeWatchers == old(client.activeWatchers)
                  && client.providerLog == old(client.providerLog)
      ensures permission && !securityException
              ==> locationWatchId == Some(LocationWatchId(old(client.watchIdCounter)))
                  && ui == old(ui).(isTracking := true)
                  && client.activeWatchers == old(client.activeWatchers)[old(client.watchIdCounter) := this]
                  && client.providerLog == old(client.providerLog) + [RequestUpdates(this)]
      ensures permission ==> client.watchIdCounter == WrapInt32(old(client.watchIdCounter) + 1)
    {
      if !permission {
        return;
      }
      locationWatchId := client.StartLocationUpdates(permission, securityException, this);
      if locationWatchId.Some? {
        ui := ui.(isTracking := true);
      }
    }

    /** `stopTracking`: the watch, if any, is released and forgotten; tracking is off. */
    method StopTracking()
      requires Parts()
      modifies this`ui, this`locationWatchId, client`activeWatchers, client`providerLog
      ensures Parts() && NoOwnWatch()
      ensures locationWatchId.None? && ui == old(ui).(isTracking := false)
      ensures old(locationWatchId).Some? ==> client.activeWatchers == old(client.activeWatchers) - {old(locationWatchId).value.id}
      ensures old(locationWatchId).None? ==> client.activeWatchers == old(client.activeWatchers)
      ensures client.providerLog == old(client.providerLog) + (if old(locationWatchId).Some? then [RemoveUpdates(this)] else [])
    {
      if locationWatchId.Some? {
        client.StopLocationUpdates(locationWatchId.value);
        locationWatchId := None;
      }
      ui := ui.(isTracking := false);
    }

    /**
     * `startContinuousSending`: a no-op while sending. Without the
     * permission or a user id it only reports why. Otherwise it marks
     * sending, connects the socket unless connected, registers the watch
     * and starts the job.
     */
    method StartContinuousSending(permission: bool, construction: Construction, securityException: bool)
      requires Valid()
      modifies this`ui, this`isSendingContinuously, this`continuousSendingJob, this`locationWatchId,
               socket`hasTransport, socket`transportConnected, socket`state, socket`transportsBuilt, client
      ensures Valid()
      ensures old(isSendingContinuously) ==> ui == old(ui) && isSendingContinuously && locationWatchId == old(locationWatchId)
                                             && unchanged(socket) && unchanged(client)
      ensures !old(isSendingContinuously) && !permission
              ==> ui == old(ui).(errorMessage := Some(PERMISSION_REQUIRED_SEND))
                  && !isSendingContinuously && locationWatchId.None? && unchanged(socket) && unchanged(client)
      ensures !old(isSendingContinuously) && permission && currentUserId.None?
              ==> ui == old(ui).(errorMessage := Some(NO_USER_ID_START))
                  && !isSendingContinuously && locationWatchId.None? && unchanged(socket) && unchanged(client)
      ensures !old(isSendingContinuously) && permission && currentUserId.Some?
              ==> isSendingContinuously
                  && ui == old(ui).(isSendingContinuously := true, isTracking := old(ui).isTracking || !securityException)
                  && socket.state == AfterConnect(old(socket.state), construction)
                  && socket.hasTransport == (old(socket.hasTransport) || (old(socket.state) != Connected && construction == Built))
                  && socket.transportsBuilt
                     == old(socket.transportsBuilt) + (if old(socket.state) != Connected && construction == Built then 1 else 0)
                  && client.watchIdCounter == WrapInt32(old(client.watchIdCounter) + 1)
                  && (securityException ==> locationWatchId.None? && client.activeWatchers == old(client.activeWatchers)
                                            && client.providerLog == old(client.providerLog))
                  && (!securityException ==> locationWatchId == Some(LocationWatchId(old(client.watchIdCounter)))
                                             && client.activeWatchers == old(client.activeWatchers)[old(client.watchIdCounter) := this]
                                             && client.providerLog == old(client.providerLog) + [RequestUpdates(this)])
    {
      if isSendingContinuously {
        return;
      }
      if !permission {
        ui := ui.(errorMessage := Some(PERMISSION_REQUIRED_SEND));
        return;
      }
      if currentUserId.None? {
        ui := ui.(errorMessage := Some(NO_USER_ID_START));
        return;
      }
      BeginSending(construction, securityException);
    }

    /** The part of `startContinuousSending` past its three guards. */
    method BeginSending(construction: Construction, securityException: bool)
      requires Valid() && !isSendingContinuously
      modifies this`ui, this`isSendingContinuously, this`continuousSendingJob, this`locationWatchId,
               socket`hasTransport, socket`transportConnected, socket`state, socket`transportsBuilt, client
      ensures Valid() && isSendingContinuously
      ensures ui == old(ui).(isSendingContinuously := true, isTracking := old(ui).isTracking || !securityException)
      ensures socket.state == AfterConnect(old(socket.state), construction)
      ensures socket.hasTransport == (old(socket.hasTransport) || (old(socket.state) != Connected && construction == Built))
      ensures socket.transportsBuilt
              == old(socket.transportsBuilt) + (if old(socket.state) != Connected && construction == Built then 1 else 0)
      ensures client.watchIdCounter == WrapInt32(old(client.watchIdCounter) + 1)
      ensures securityException ==> locationWatchId.None? && client.activeWatchers == old(client.activeWatchers)
                                    && client.providerLog == old(client.providerLog)
      ensures !securityException ==> locationWatchId == Some(LocationWatchId(old(client.watchIdCounter)))
                                     && client.activeWatchers == old(client.activeWatchers)[old(client.watchIdCounter) := this]
                                     && client.providerLog == old(client.providerLog) + [RequestUpdates(this)]
    {
      MarkSending(construction);
      StartTracking(true, securityException);
      continuousSendingJob := true;
    }

    /** The sending flag goes up and the socket is connected unless it already is. */
    method MarkSending(construction: Construction)
      requires Parts() && !isSendingContinuously
      modifies this`ui, this`isSendingContinuously,
               socket`hasTransport, socket`transportConnected, socket`state, socket`transportsBuilt
      ensures Parts() && isSendingContinuously
      ensures ui == old(ui).(isSendingContinuously := true)
      ensures socket.state == AfterConnect(old(socket.state), construction)
      ensures socket.hasTransport == (old(socket.hasTransport) || (old(socket.state) != Connected && construction == Built))
      ensures socket.transportsBuilt
              == old(socket.transportsBuilt) + (if old(socket.state) != Connected && construction == Built then 1 else 0)
    {
      isSendingContinuously := true;
      ui := ui.(isSendingContinuously := true);
      var connected := socket.IsConnected();
      if !connected {
        ConnectSocket(construction);
      } else {
        assert AfterConnect(socket.state, construction) == socket.state;
      }
    }

    /**
     * One iteration of the sending loop. After the job is stopped the loop
     * condition fails and nothing happens. A location is shown and, with a
     * user id, sent; a missing location or a failed fetch is skipped and the
     * loop keeps running.
     */
    method Tick(permission: bool, outcome: ProviderOutcome, now: int)
      requires Valid()
      modifies this`ui, socket`emitted
      ensures Valid()
      ensures !isSendingContinuously ==> ui == old(ui) && socket.emitted == old(socket.emitted)
      ensures isSendingContinuously
              ==> match GetCurrentLocation(permission, outcome)
                  case Fetched(Some(loc)) =>
                    ui == ShowLocation(old(ui), loc)
                    && socket.emitted == old(socket.emitted) + SendFor(socket.state, currentUserId, loc, now)
                  case _ => ui == old(ui) && socket.emitted == old(socket.emitted)
    {
      if !isSendingContinuously {
        return;
      }
      var fetched := GetCurrentLocation(permission, outcome);
      if fetched.Fetched? && fetched.data.Some? {
        var loc := fetched.data.value;
        ui := ShowLocation(ui, loc);
        SendIfKnown(loc, now);
      }
    }

    /**
     * The provider delivering a result to the callback registered under
     * `watchId`. Only this view model's own active watch reaches its
     * callback, which always shows the location and marks tracking, and
     * sends only while sending continuously and with a user id.
     */
    method OnLocationResult(watchId: int, lastLocation: Option<AndroidLocation>, now: int)
      requires Valid()
      modifies this`ui, socket`emitted
      ensures Valid()
      ensures !(watchId in client.activeWatchers && client.activeWatchers[watchId] == this && lastLocation.Some?)
              ==> ui == old(ui) && socket.emitted == old(socket.emitted)
      ensures watchId in client.activeWatchers && client.activeWatchers[watchId] == this && lastLocation.Some?
              ==> var loc := ToLocationData(lastLocation.value);
                  ui == ShowLocation(old(ui), loc).(isTracking := true)
                  && socket.emitted == old(socket.emitted)
                                       + (if isSendingContinuously then SendFor(socket.state, currentUserId, loc, now) else [])
      ensures !isSendingContinuously ==> socket.emitted == old(socket.emitted)
    {
      if !(watchId in client.activeWatchers && client.activeWatchers[watchId] == this) || lastLocation.None? {
        return;
      }
      var loc := ToLocationData(lastLocation.value);
      ui := ui.(latitude := Some(loc.latitude), longitude := Some(loc.longitude), accuracy := loc.accuracy, isTracking := true);
      if isSendingContinuously {
        SendIfKnown(loc, now);
      }
    }

    /**
     * `stopContinuousSending`: always leaves sending off in both places, no
     * job, no watch (the client no longer holds one for this view model)
     * and tracking off, whatever came before.
     */
    method StopContinuousSending()
      requires Valid()
      modifies this`ui, this`isSendingContinuously, this`continuousSendingJob, this`locationWatchId,
               client`activeWatchers, client`providerLog
      ensures Valid() && NoOwnWatch()
      ensures !isSendingContinuously && !continuousSendingJob && locationWatchId.None?
      ensures ui == old(ui).(isSendingContinuously := false, isTracking := false)
      ensures old(locationWatchId).Some? ==> client.activeWatchers == old(client.activeWatchers) - {old(locationWatchId).value.id}
      ensures old(locationWatchId).None? ==> client.activeWatchers == old(client.activeWatchers)
      ensures client.providerLog == old(client.providerLog) + (if old(locationWatchId).Some? then [RemoveUpdates(this)] else [])
    {
      isSendingContinuously := false;
      ui := ui.(isSendingContinuously := false);
      continuousSendingJob := false;
      StopTracking();
    }

    /** `reportPermissionError`. */
    method ReportPermissionError()
      requires Valid()
      modifies this`ui
      ensures Valid()
      ensures ui == old(ui).(errorMessage := Some(PERMISSION_REQUIRED_CONTINUE), hasLocationPermission := false)
    {
      ui := ui.(errorMessage := Some(PERMISSION_REQUIRED_CONTINUE), hasLocationPermission := false);
    }

    /** `disconnectSocket`: sending is stopped first, then the socket is torn down. */
    method DisconnectSocket()
      requires Valid()
      modifies this`ui, this`isSendingContinuously, this`continuousSendingJob, this`locationWatchId,
               client`activeWatchers, client`providerLog,
               socket`hasTransport, socket`transportConnected, socket`state, socket`trackingActive
      ensures Valid() && NoOwnWatch()
      ensures !isSendingContinuously && !continuousSendingJob && locationWatchId.None?
      ensures ui == old(ui).(isSendingContinuously := false, isTracking := false)
      ensures socket.state == Disconnected && !socket.trackingActive && !socket.hasTransport
      ensures old(locationWatchId).Some? ==> client.activeWatchers == old(client.activeWatchers) - {old(locationWatchId).value.id}
      ensures old(locationWatchId).None? ==> client.activeWatchers == old(client.activeWatchers)
      ensures client.providerLog == old(client.providerLog) + (if old(locationWatchId).Some? then [RemoveUpdates(this)] else [])
    {
      StopContinuousSending();
      socket.Disconnect();
    }

    /** `onCleared`: the view model going away stops sending. */
    method OnCleared()
      requires Valid()
      modifies this`ui, this`isSendingContinuously, this`continuousSendingJob, this`locationWatchId,
               client`activeWatchers, client`providerLog
      ensures Valid() && NoOwnWatch()
      ensures !isSendingContinuously && !continuousSendingJob && locationWatchId.None?
      ensures ui == old(ui).(isSendingContinuously := false, isTracking := false)
      ensures old(locationWatchId).Some? ==> client.activeWatchers == old(client.activeWatchers) - {old(locationWatchId).value.id}
      ensures old(locationWatchId).None? ==> client.activeWatchers == old(client.activeWatchers)
      ensures client.providerLog == old(client.providerLog) + (if old(locationWatchId).Some? then [RemoveUpdates(this)] else [])
    {
      StopContinuousSending();
    }
  }
}
