/**
 * CastProxy: the process-wide proxy between the application's channel and
 * one Cast session. The instance fields follow the session (client, flags,
 * session id, selected device); the static part (sInstance, sInstanceCount)
 * counts the registered observers, switches route discovery on and off and
 * tears the session down when the last observer leaves.
 *
 * Every call into the SDK, the media router or the channel is appended to
 * the ghost `trace`; every SDK callback is a method whose argument is the
 * result the SDK delivered.
 */
module Proxy {
  import opened Optional
  import opened Sdk

  /** mSingleUserMode: leave (rather than stop) the receiver application on disconnect, and join before launching. */
  const SingleUserMode: bool := false

  /**
   * The calls disconnect() makes for a client in the given state: leave (or
   * stop) the application, remove the message callbacks, disconnect the
   * client and tell the channel; nothing unless an application was started
   * on a client that is connected or connecting.
   */
  function TeardownEffects(client: ApiClient?, started: bool, status: ClientStatus,
                           sessionId: Option<string>, channel: ChannelRef): (r: seq<Effect>)
    ensures r != [] <==> client != null && started && status != Idle
    ensures r != [] ==>
              && |r| == 4 && r[0] == LeaveApplication
              && r[1] == RemoveMessageCallbacks(channel.namespace)
              && r[2] == DisconnectClient(client) && r[3] == ChannelDisconnected(channel)
    ensures SessionOnly(r)
  {
    if client != null && started && (status.Connected? || status.Connecting?) then
      [if SingleUserMode then StopApplication(sessionId) else LeaveApplication,
       RemoveMessageCallbacks(channel.namespace),
       DisconnectClient(client),
       ChannelDisconnected(channel)]
    else []
  }

  /** The session fields of a CastProxy, for saying what an operation leaves alone. */
  datatype SessionState = SessionState(
    selectedDevice: Option<DeviceId>,
    apiClient: ApiClient?,
    waitingForReconnect: bool,
    applicationStarted: bool,
    sessionId: Option<string>,
    channel: ChannelRef)

  /**
   * The session disconnect() leaves behind: no client, device, session id
   * or pending reconnect; the application stays marked started only if it
   * had no client; the channel is kept.
   */
  function AfterDisconnect(s: SessionState): SessionState {
    s.(selectedDevice := None, apiClient := null, waitingForReconnect := false,
       applicationStarted := s.applicationStarted && s.apiClient == null, sessionId := None)
  }

  class CastProxy {
    /** The receiver application id (resource R.string.app_id). */
    const appId: string
    var channel: ChannelRef
    var selectedDevice: Option<DeviceId>
    var apiClient: ApiClient?
    var waitingForReconnect: bool
    var applicationStarted: bool
    var sessionId: Option<string>
    ghost var trace: seq<Effect>

    ghost function Session(): SessionState
      reads this
    {
      SessionState(selectedDevice, apiClient, waitingForReconnect, applicationStarted, sessionId, channel)
    }

    /** A started application always has a client. */
    ghost predicate Consistent()
      reads this
    {
      applicationStarted ==> apiClient != null
    }

    constructor (appId: string, channel: ChannelRef)
      ensures this.appId == appId
      ensures Session() == SessionState(None, null, false, false, None, channel)
      ensures trace == []
    {
      this.appId := appId;
      this.channel := channel;
      selectedDevice := None;
      apiClient := null;
      waitingForReconnect := false;
      applicationStarted := false;
      sessionId := None;
      trace := [];
    }

    method SetChannel(channel: ChannelRef)
      modifies this`channel
      ensures this.channel == channel
    {
      this.channel := channel;
    }

    /**
     * disconnect(): tear down the session if an application was started on
     * a live client, then forget the client, the device, the session id and
     * the pending reconnect. `status` is what the client reports.
     */
    method Disconnect(status: ClientStatus)
      modifies this
      ensures apiClient == null && selectedDevice == None && sessionId == None && !waitingForReconnect
      ensures applicationStarted == (old(applicationStarted) && old(apiClient) == null)
      ensures channel == old(channel)
      ensures Session() == AfterDisconnect(old(Session()))
      ensures trace == old(trace) + TeardownEffects(old(apiClient), old(applicationStarted), status, old(sessionId), channel)
      ensures DiscoveryOn(trace) == DiscoveryOn(old(trace))
      ensures old(Consistent()) ==> Consistent() && !applicationStarted
    {
      ghost var effects := TeardownEffects(apiClient, applicationStarted, status, sessionId, channel);
      if apiClient != null {
        if applicationStarted {
          if status.Connected? || status.Connecting? {
            trace := trace + [if SingleUserMode then StopApplication(sessionId) else LeaveApplication];
            trace := trace + [RemoveMessageCallbacks(channel.namespace)];
            trace := trace + [DisconnectClient(apiClient)];
            trace := trace + [ChannelDisconnected(channel)];
          }
          applicationStarted := false;
        }
        apiClient := null;
      }
      selectedDevice := None;
      waitingForReconnect := false;
      sessionId := None;
      DiscoveryOnAppend(old(trace), effects);
    }

    /**
     * connect(): build a client for the selected device and connect it. The
     * options are built from the device before an existing client is
     * disconnected, so that disconnect clears the selected device while the
     * new client still targets it.
     */
    method Connect(status: ClientStatus)
      modifies this
      ensures apiClient != null && fresh(apiClient)
      ensures channel == old(channel)
      ensures old(apiClient) == null ==>
        selectedDevice == old(selectedDevice) && sessionId == old(sessionId)
        && waitingForReconnect == old(waitingForReconnect) && applicationStarted == old(applicationStarted)
      ensures old(apiClient) != null ==>
        selectedDevice == None && sessionId == None && !waitingForReconnect && !applicationStarted
      ensures trace == old(trace)
        + (if old(apiClient) == null then []
           else TeardownEffects(old(apiClient), old(applicationStarted), status, old(sessionId), channel))
        + [BuildClient(apiClient, old(selectedDevice)), ConnectClient(apiClient)]
      ensures DiscoveryOn(trace) == DiscoveryOn(old(trace))
      ensures Consistent()
    {
      var device := selectedDevice;
      if apiClient != null {
        Disconnect(status);
      }
      ghost var before := trace;
      var client := new ApiClient();
      apiClient := client;
      trace := trace + [BuildClient(client, device), ConnectClient(client)];
      DiscoveryOnAppend(before, [BuildClient(client, device), ConnectClient(client)]);
    }

    /** The media router selected a route: remember its device and connect to it. */
    method OnRouteSelected(device: DeviceId, status: ClientStatus)
      modifies this
      ensures apiClient != null && fresh(apiClient)
      ensures channel == old(channel)
      ensures old(apiClient) == null ==>
        selectedDevice == Some(device) && sessionId == old(sessionId)
        && waitingForReconnect == old(waitingForReconnect) && applicationStarted == old(applicationStarted)
      ensures old(apiClient) != null ==>
        selectedDevice == None && sessionId == None && !waitingForReconnect && !applicationStarted
      ensures trace == old(trace)
        + (if old(apiClient) == null then []
           else TeardownEffects(old(apiClient), old(applicationStarted), status, old(sessionId), channel))
        + [BuildClient(apiClient, Some(device)), ConnectClient(apiClient)]
      ensures DiscoveryOn(trace) == DiscoveryOn(old(trace))
    {
      selectedDevice := Some(device);
      Connect(status);
    }

    /** The media router unselected the route. */
    method OnRouteUnselected(status: ClientStatus)
      modifies this
      ensures Session() == AfterDisconnect(old(Session()))
      ensures trace == old(trace) + TeardownEffects(old(apiClient), old(applicationStarted), status, old(sessionId), channel)
      ensures DiscoveryOn(trace) == DiscoveryOn(old(trace))
    {
      Disconnect(status);
    }

    /** createMessageChannel(): register the channel for messages on its namespace. */
    method CreateMessageChannel()
      modifies this`trace
      ensures trace == old(trace) + [SetMessageCallbacks(channel.namespace)]
    {
      trace := trace + [SetMessageCallbacks(channel.namespace)];
    }

    /** launchApp(tryJoin): ask to join the running application (with the last session id) or to launch it. */
    method LaunchApp(tryJoin: bool)
      modifies this`trace
      ensures trace == old(trace) + [if tryJoin then JoinApplication(appId, sessionId) else LaunchApplication(appId)]
    {
      if tryJoin {
        trace := trace + [JoinApplication(appId, sessionId)];
      } else {
        trace := trace + [LaunchApplication(appId)];
      }
    }

    /**
     * The client connected. Nothing happens if the client was dropped
     * meanwhile. After a suspension the session resumes: it is torn down
     * when the hint says the application stopped, otherwise the channel is
     * registered again. A fresh connection joins (or launches) the
     * application.
     */
    method OnConnected(appNoLongerRunning: bool, status: ClientStatus)
      modifies this
      ensures old(apiClient) == null ==> Session() == old(Session()) && trace == old(trace)
      ensures old(apiClient) != null && old(waitingForReconnect) && appNoLongerRunning ==>
        Session() == AfterDisconnect(old(Session())) && !applicationStarted
        && trace == old(trace) + TeardownEffects(old(apiClient), old(applicationStarted), status, old(sessionId), channel)
      ensures old(apiClient) != null && old(waitingForReconnect) && !appNoLongerRunning ==>
        Session() == old(Session()).(waitingForReconnect := false)
        && trace == old(trace) + [SetMessageCallbacks(channel.namespace)]
      ensures old(apiClient) != null && !old(waitingForReconnect) ==>
        Session() == old(Session())
        && trace == old(trace) + [if SingleUserMode then LaunchApplication(appId) else JoinApplication(appId, sessionId)]
      ensures DiscoveryOn(trace) == DiscoveryOn(old(trace))
      ensures old(Consistent()) ==> Consistent()
    {
      if apiClient == null {
        return;
      }
      if waitingForReconnect {
        waitingForReconnect := false;
        if appNoLongerRunning {
          Disconnect(status);
        } else {
          CreateMessageChannel();
          DiscoveryOnAppend(old(trace), [SetMessageCallbacks(channel.namespace)]);
        }
      } else {
        LaunchApp(!SingleUserMode);
        DiscoveryOnAppend(old(trace), [trace[|trace| - 1]]);
      }
    }

    /**
     * The result of launchApp(tryJoin). On success the session id is
     * recorded, the channel registered, and the channel told it is
     * connected unless an application had already been started. A join
     * refused because the application is not running falls back to one
     * launch; every other failure disconnects.
     */
    method OnApplicationResult(tryJoin: bool, result: AppResult, status: ClientStatus)
      modifies this
      ensures result.Success? ==>
        Session() == old(Session()).(sessionId := Some(result.sessionId), applicationStarted := true)
        && trace == old(trace) + [SetMessageCallbacks(channel.namespace)]
                    + (if old(applicationStarted) then [] else [ChannelConnected(channel)])
      ensures tryJoin && result.ApplicationNotRunning? ==>
        Session() == old(Session()) && trace == old(trace) + [LaunchApplication(appId)]
      ensures !result.Success? && !(tryJoin && result.ApplicationNotRunning?) ==>
        Session() == AfterDisconnect(old(Session()))
        && trace == old(trace) + TeardownEffects(old(apiClient), old(applicationStarted), status, old(sessionId), channel)
      ensures DiscoveryOn(trace) == DiscoveryOn(old(trace))
      ensures old(Consistent()) && old(apiClient) != null ==> Consistent()
    {
      if result.Success? {
        sessionId := Some(result.sessionId);
        CreateMessageChannel();
        if !applicationStarted {
          trace := trace + [ChannelConnected(channel)];
        }
        applicationStarted := true;
        DiscoveryOnAppend(old(trace), trace[|old(trace)|..]);
        assert old(trace) + trace[|old(trace)|..] == trace;
      } else {
        if tryJoin && result.ApplicationNotRunning? {
          LaunchApp(false);
          DiscoveryOnAppend(old(trace), [LaunchApplication(appId)]);
          return;
        }
        Disconnect(status);
      }
    }

    /** The connection was suspended: the next onConnected resumes the session. */
    method OnConnectionSuspended()
      modifies this`waitingForReconnect
      ensures waitingForReconnect
    {
      waitingForReconnect := true;
    }

    /** The client could not connect. */
    method OnConnectionFailed(status: ClientStatus)
      modifies this
      ensures Session() == AfterDisconnect(old(Session()))
      ensures trace == old(trace) + TeardownEffects(old(apiClient), old(applicationStarted), status, old(sessionId), channel)
      ensures DiscoveryOn(trace) == DiscoveryOn(old(trace))
    {
      Disconnect(status);
    }

    /** The receiver application stopped (Cast.Listener.onApplicationDisconnected); the error code is not used. */
    method OnApplicationDisconnected(errorCode: int, status: ClientStatus)
      modifies this
      ensures Session() == AfterDisconnect(old(Session()))
      ensures trace == old(trace) + TeardownEffects(old(apiClient), old(applicationStarted), status, old(sessionId), channel)
      ensures DiscoveryOn(trace) == DiscoveryOn(old(trace))
    {
      Disconnect(status);
    }
  }

  /** disconnect() is idempotent: a second call changes nothing and calls nothing. */
  method DisconnectTwice(p: CastProxy, first: ClientStatus, second: ClientStatus)
    modifies p
    ensures p.Session() == AfterDisconnect(old(p.Session()))
    ensures p.trace == old(p.trace) + TeardownEffects(old(p.apiClient), old(p.applicationStarted), first, old(p.sessionId), p.channel)
  {
    p.Disconnect(first);
    ghost var once := p.Session();
    ghost var onceTrace := p.trace;
    p.Disconnect(second);
    assert p.Session() == once && p.trace == onceTrace;
  }

  /**
   * The static part of CastProxy: sInstance and sInstanceCount. The count
   * is the number of registered observers; discovery runs while it is
   * positive.
   */
  class Registry {
    var instance: CastProxy?
    var count: int

    constructor ()
      ensures instance == null && count == 0
    {
      instance := null;
      count := 0;
    }

    /** The count is never negative, is zero before the proxy exists, and discovery runs while it is positive. */
    ghost predicate Valid()
      reads this, instance
    {
      && count >= 0
      && (instance == null ==> count == 0)
      && (instance != null && count > 0 ==> DiscoveryOn(instance.trace))
    }

    /** Discovery runs exactly while an observer is registered. */
    ghost predicate Gated()
      reads this, instance
    {
      instance != null ==> DiscoveryOn(instance.trace) == (count > 0)
    }

    /**
     * init(context, channel): create the proxy on first use, then hand it
     * the channel. The caller must supply a context when no proxy exists.
     */
    method Init(hasContext: bool, appId: string, channel: ChannelRef) returns (p: CastProxy)
      requires Valid()
      requires instance != null || hasContext
      modifies this, instance
      ensures Valid() && (old(Gated()) ==> Gated())
      ensures p == instance && count == old(count)
      ensures old(instance) == null ==>
        fresh(p) && p.appId == appId && p.Session() == SessionState(None, null, false, false, None, channel) && p.trace == []
      ensures old(instance) != null ==>
        p == old(instance) && p.Session() == old(p.Session()).(channel := channel) && p.trace == old(p.trace)
    {
      if instance == null && hasContext {
        instance := new CastProxy(appId, channel);
      }
      instance.SetChannel(channel);
      p := instance;
    }

    /**
     * registerInstance(): with a proxy, count one more observer. The first
     * observer starts discovery and reconnects to a device still selected
     * without a client; a later one tells the channel it reconnected when a
     * device and a client are there. Without a proxy nothing changes.
     */
    method RegisterInstance()
      requires Valid()
      modifies this, instance
      ensures Valid() && (old(Gated()) ==> Gated())
      ensures instance == old(instance)
      ensures old(instance) == null ==> count == old(count)
      ensures old(instance) != null ==> count == old(count) + 1 && DiscoveryOn(instance.trace)
      ensures old(instance) != null && old(count) == 0 && old(instance.selectedDevice).Some? && old(instance.apiClient) == null ==>
        fresh(instance.apiClient) && instance.apiClient != null
        && instance.Session() == old(instance.Session()).(apiClient := instance.apiClient)
        && instance.trace == old(instance.trace)
           + [AddDiscoveryCallback, BuildClient(instance.apiClient, old(instance.selectedDevice)), ConnectClient(instance.apiClient)]
      ensures old(instance) != null && old(count) == 0 && !(old(instance.selectedDevice).Some? && old(instance.apiClient) == null) ==>
        instance.Session() == old(instance.Session())
        && instance.trace == old(instance.trace) + [AddDiscoveryCallback]
      ensures old(instance) != null && old(count) != 0 ==>
        instance.Session() == old(instance.Session())
        && instance.trace == old(instance.trace)
           + (if old(instance.selectedDevice).Some? && old(instance.apiClient) != null
              then [ChannelReconnected(instance.channel)] else [])
    {
      if instance != null {
        if count == 0 {
          instance.trace := instance.trace + [AddDiscoveryCallback];
          if instance.selectedDevice.Some? && instance.apiClient == null {
            // No client exists, so connect() never reads a client status.
            instance.Connect(Idle);
          }
        } else if instance.selectedDevice.Some? && instance.apiClient != null {
          instance.trace := instance.trace + [ChannelReconnected(instance.channel)];
          DiscoveryOnAppend(old(instance.trace), [ChannelReconnected(instance.channel)]);
        }
        count := count + 1;
      }
    }

    /**
     * unregisterInstance(disconnectIfLast): count one observer less. When
     * the count drops to zero or below it is reset to zero and, with a
     * proxy, discovery stops and the session is torn down if asked.
     */
    method UnregisterInstance(disconnectIfLast: bool, status: ClientStatus)
      requires Valid()
      modifies this, instance
      ensures Valid() && (old(Gated()) ==> Gated())
      ensures instance == old(instance)
      ensures count >= 0
      ensures old(count) - 1 > 0 ==>
        count == old(count) - 1
        && (instance != null ==> instance.Session() == old(instance.Session()) && instance.trace == old(instance.trace))
      ensures old(count) - 1 <= 0 ==> count == 0
      ensures old(count) - 1 <= 0 && instance != null ==> !DiscoveryOn(instance.trace)
      ensures old(count) - 1 <= 0 && instance != null && !disconnectIfLast ==>
        instance.Session() == old(instance.Session())
        && instance.trace == old(instance.trace) + [RemoveDiscoveryCallback]
      ensures old(count) - 1 <= 0 && instance != null && disconnectIfLast ==>
        instance.Session() == AfterDisconnect(old(instance.Session()))
        && instance.trace == old(instance.trace) + [RemoveDiscoveryCallback]
           + TeardownEffects(old(instance.apiClient), old(instance.applicationStarted), status,
                             old(instance.sessionId), instance.channel)
    {
      count := count - 1;
      if count <= 0 {
        if instance != null {
          instance.trace := instance.trace + [RemoveDiscoveryCallback];
          if disconnectIfLast {
            instance.Disconnect(status);
          }
        }
        count := 0;
      }
    }

    /**
     * unregisterAllInstances(disconnect): forget every observer and tear
     * the session down. The argument is not used, and discovery is left
     * running.
     */
    method UnregisterAllInstances(disconnect: bool, status: ClientStatus)
      requires Valid()
      modifies this, instance
      ensures Valid()
      ensures instance == old(instance) && count == 0
      ensures instance != null ==>
        instance.Session() == AfterDisconnect(old(instance.Session()))
        && instance.trace == old(instance.trace)
           + TeardownEffects(old(instance.apiClient), old(instance.applicationStarted), status,
                             old(instance.sessionId), instance.channel)
        && DiscoveryOn(instance.trace) == DiscoveryOn(old(instance.trace))
    {
      count := 0;
      if instance != null {
        instance.Disconnect(status);
      }
    }
  }

  /**
   * Over register and unregister calls discovery runs exactly while an
   * observer is registered, but unregisterAllInstances leaves it running
   * with no observer.
   */
  method UnregisterAllLeavesDiscoveryOn(appId: string, channel: ChannelRef) returns (registry: Registry)
    ensures registry.Valid() && registry.count == 0 && registry.instance != null
    ensures DiscoveryOn(registry.instance.trace) && !registry.Gated()
  {
    registry := new Registry();
    var proxy := registry.Init(true, appId, channel);
    assert registry.Gated();
    registry.RegisterInstance();
    registry.RegisterInstance();
    registry.UnregisterInstance(false, Idle);
    assert registry.Gated() && registry.count == 1;
    registry.UnregisterAllInstances(true, Idle);
    assert registry.count == 0 && DiscoveryOn(proxy.trace);
    assert !registry.Gated();
  }
}
