/**
 * MainActivity: the earlier, inline copy of the session logic, with its own
 * message channel (HelloWorldChannel), the payload it sends, and the text
 * field it clears after a successful send. Unlike CastProxy it keeps no
 * selected device, connect() does not disconnect an existing client, and
 * disconnect() tears down only a client that reports itself connected.
 */
module Activity {
  import opened Optional
  import opened Payloads
  import opened Accounts
  import opened Sdk

  /** mSingleUserMode, as in CastProxy. */
  const SingleUserMode: bool := false

  /**
   * The calls disconnect() makes: leave (or stop) the application, remove
   * the channel's callbacks when a channel exists, disconnect the client;
   * nothing unless an application was started on a connected client.
   */
  function TeardownEffects(client: ApiClient?, started: bool, status: ClientStatus, hasChannel: bool,
                           sessionId: Option<string>, namespace: string): (r: seq<Effect>)
    ensures r != [] <==> client != null && started && status == Connected
    ensures r != [] ==>
              && r[0] == LeaveApplication && r[|r| - 1] == DisconnectClient(client)
              && (RemoveMessageCallbacks(namespace) in r <==> hasChannel)
  {
    if client != null && started && status.Connected? then
      [if SingleUserMode then StopApplication(sessionId) else LeaveApplication]
      + (if hasChannel then [RemoveMessageCallbacks(namespace)] else [])
      + [DisconnectClient(client)]
    else []
  }

  /** The session fields of MainActivity. */
  datatype SessionState = SessionState(
    apiClient: ApiClient?,
    hasChannel: bool,
    applicationStarted: bool,
    waitingForReconnect: bool,
    sessionId: Option<string>)

  /**
   * The session disconnect() leaves behind: no client, session id or
   * pending reconnect; the application stays marked started only if it had
   * no client; the channel is dropped only when the session was torn down.
   */
  function AfterDisconnect(s: SessionState, status: ClientStatus): SessionState {
    s.(apiClient := null,
       hasChannel := s.hasChannel && !(s.apiClient != null && s.applicationStarted && status == Connected),
       applicationStarted := s.applicationStarted && s.apiClient == null,
       waitingForReconnect := false, sessionId := None)
  }

  class MainActivity {
    /** The receiver application id (resource R.string.app_id). */
    const appId: string
    /** The channel namespace (resource R.string.namespace). */
    const namespace: string
    /** The names of the Google accounts on the device, as the account manager lists them. */
    const accountNames: seq<Option<string>>
    var apiClient: ApiClient?
    /** Whether mHelloWorldChannel is set. */
    var hasChannel: bool
    var applicationStarted: bool
    var waitingForReconnect: bool
    var sessionId: Option<string>
    /** The text in the message field. */
    var messageText: string
    ghost var trace: seq<Effect>

    ghost function Session(): SessionState
      reads this
    {
      SessionState(apiClient, hasChannel, applicationStarted, waitingForReconnect, sessionId)
    }

    /** A started application always has a client. */
    ghost predicate Consistent()
      reads this
    {
      applicationStarted ==> apiClient != null
    }

    constructor (appId: string, namespace: string, accountNames: seq<Option<string>>)
      ensures this.appId == appId && this.namespace == namespace && this.accountNames == accountNames
      ensures Session() == SessionState(null, false, false, false, None)
      ensures messageText == [] && trace == []
    {
      this.appId := appId;
      this.namespace := namespace;
      this.accountNames := accountNames;
      apiClient := null;
      hasChannel := false;
      applicationStarted := false;
      waitingForReconnect := false;
      sessionId := None;
      messageText := [];
      trace := [];
    }

    /** connect(device): build a client for the device and connect it, replacing any client without disconnecting it. */
    method Connect(device: DeviceId)
      modifies this`apiClient, this`trace
      ensures apiClient != null && fresh(apiClient)
      ensures trace == old(trace) + [BuildClient(apiClient, Some(device)), ConnectClient(apiClient)]
      ensures Consistent()
    {
      var client := new ApiClient();
      apiClient := client;
      trace := trace + [BuildClient(client, Some(device)), ConnectClient(client)];
    }

    /** The media router selected a route. */
    method OnRouteSelected(device: DeviceId)
      modifies this`apiClient, this`trace
      ensures apiClient != null && fresh(apiClient)
      ensures trace == old(trace) + [BuildClient(apiClient, Some(device)), ConnectClient(apiClient)]
    {
      Connect(device);
    }

    /**
     * disconnect(): tear down the session when an application was started
     * on a connected client, then forget the client, the session id and the
     * pending reconnect. The channel is dropped only on the teardown path.
     */
    method Disconnect(status: ClientStatus)
      modifies this
      ensures apiClient == null && sessionId == None && !waitingForReconnect
      ensures applicationStarted == (old(applicationStarted) && old(apiClient) == null)
      ensures hasChannel == (old(hasChannel) && !(old(apiClient) != null && old(applicationStarted) && status == Connected))
      ensures messageText == old(messageText)
      ensures Session() == AfterDisconnect(old(Session()), status)
      ensures trace == old(trace) + TeardownEffects(old(apiClient), old(applicationStarted), status, old(hasChannel), old(sessionId), namespace)
      ensures old(Consistent()) ==> Consistent() && !applicationStarted
    {
      if apiClient != null {
        if applicationStarted {
          if status.Connected? {
            trace := trace + [if SingleUserMode then StopApplication(sessionId) else LeaveApplication];
            if hasChannel {
              trace := trace + [RemoveMessageCallbacks(namespace)];
              hasChannel := false;
            }
            trace := trace + [DisconnectClient(apiClient)];
          }
          applicationStarted := false;
        }
        apiClient := null;
      }
      waitingForReconnect := false;
      sessionId := None;
    }

    /** The media router unselected the route. */
    method OnRouteUnselected(status: ClientStatus)
      modifies this
      ensures Session() == AfterDisconnect(old(Session()), status) && messageText == old(messageText)
      ensures trace == old(trace) + TeardownEffects(old(apiClient), old(applicationStarted), status, old(hasChannel), old(sessionId), namespace)
    {
      Disconnect(status);
    }

    /**
     * createMessageChannel(): register the channel's callbacks. Without a
     * channel the call fails before reaching the SDK; on the path that can
     * reach it (onConnected) the failure is caught.
     */
    method CreateMessageChannel()
      modifies this`trace
      ensures trace == old(trace) + (if hasChannel then [SetMessageCallbacks(namespace)] else [])
    {
      if hasChannel {
        trace := trace + [SetMessageCallbacks(namespace)];
      }
    }

    /** launchApp(tryJoin): ask to join the running application (with the last session id) or to launch it. */
    method LaunchApp(tryJoin: bool)
      modifies this`trace
      ensures trace == old(trace) + [if tryJoin then JoinApplication(appId, sessionId) else LaunchApplication(appId)]
    {
      if tryJoin {
        trace := trace + [JoinApplication(appId, sessionId)];
      } else {
        trace := trace + [LaunchApplication(appId)];
      }
    }

    /**
     * The client connected: nothing when the client was dropped meanwhile;
     * after a suspension, tear down (the application stopped) or register
     * the channel again; otherwise join or launch the application.
     */
    method OnConnected(appNoLongerRunning: bool, status: ClientStatus)
      modifies this
      ensures messageText == old(messageText)
      ensures old(apiClient) == null ==> Session() == old(Session()) && trace == old(trace)
      ensures old(apiClient) != null && old(waitingForReconnect) && appNoLongerRunning ==>
        Session() == AfterDisconnect(old(Session()), status) && !applicationStarted
        && trace == old(trace) + TeardownEffects(old(apiClient), old(applicationStarted), status, old(hasChannel), old(sessionId), namespace)
      ensures old(apiClient) != null && old(waitingForReconnect) && !appNoLongerRunning ==>
        Session() == old(Session()).(waitingForReconnect := false)
        && trace == old(trace) + (if hasChannel then [SetMessageCallbacks(namespace)] else [])
      ensures old(apiClient) != null && !old(waitingForReconnect) ==>
        Session() == old(Session())
        && trace == old(trace) + [if SingleUserMode then LaunchApplication(appId) else JoinApplication(appId, sessionId)]
      ensures old(Consistent()) ==> Consistent()
    {
      if apiClient == null {
        return;
      }
      if waitingForReconnect {
        waitingForReconnect := false;
        if appNoLongerRunning {
          Disconnect(status);
        } else {
          CreateMessageChannel();
        }
      } else {
        LaunchApp(!SingleUserMode);
      }
    }

    /**
     * sendMessage(message): build the payload (a null message is the
     * handshake), then send it on the channel if there is a client and a
     * channel. The result says whether the send was issued without the SDK
     * throwing; `sdkThrows` is whether it throws.
     */
    method SendMessage(message: Option<string>, sdkThrows: bool) returns (sent: bool)
      modifies this`trace
      ensures sent <==> apiClient != null && hasChannel && !sdkThrows
      ensures trace == old(trace)
        + (if apiClient != null && hasChannel
           then [Effect.SendMessage(namespace, BuildPayload(message, GetUsername(accountNames)))] else [])
    {
      var payload := BuildPayload(message, GetUsername(accountNames));
      if apiClient == null {
        sent := false;
      } else if !hasChannel {
        sent := false;
      } else {
        trace := trace + [Effect.SendMessage(namespace, payload)];
        sent := !sdkThrows;
      }
    }

    /** sendTextMessage(field): send the field's text as a user message and clear the field when it was sent. */
    method SendTextMessage(sdkThrows: bool)
      modifies this`trace, this`messageText
      ensures messageText == (if apiClient != null && hasChannel && !sdkThrows then [] else old(messageText))
      ensures trace == old(trace)
        + (if apiClient != null && hasChannel
           then [Effect.SendMessage(namespace, Payload(UserMessageCode, Some(old(messageText)), GetUsername(accountNames)))]
           else [])
    {
      var sent := SendMessage(Some(messageText), sdkThrows);
      if sent {
        messageText := [];
      }
    }

    /**
     * The result of launchApp(tryJoin). On success the session id is
     * recorded, the application marked started, a channel created and
     * registered and the handshake sent. A join refused because the
     * application is not running falls back to one launch; every other
     * failure disconnects.
     */
    method OnApplicationResult(tryJoin: bool, result: AppResult, status: ClientStatus, sdkThrows: bool)
      modifies this
      ensures messageText == old(messageText)
      ensures result.Success? ==>
        Session() == old(Session()).(sessionId := Some(result.sessionId), applicationStarted := true, hasChannel := true)
        && trace == old(trace) + [SetMessageCallbacks(namespace)]
           + (if apiClient != null
              then [Effect.SendMessage(namespace, Payload(HandshakeCode, None, GetUsername(accountNames)))] else [])
      ensures tryJoin && result.ApplicationNotRunning? ==>
        Session() == old(Session()) && trace == old(trace) + [LaunchApplication(appId)]
      ensures !result.Success? && !(tryJoin && result.ApplicationNotRunning?) ==>
        Session() == AfterDisconnect(old(Session()), status)
        && trace == old(trace) + TeardownEffects(old(apiClient), old(applicationStarted), status, old(hasChannel), old(sessionId), namespace)
      ensures old(Consistent()) && old(apiClient) != null ==> Consistent()
    {
      if result.Success? {
        sessionId := Some(result.sessionId);
        applicationStarted := true;
        hasChannel := true;
        CreateMessageChannel();
        var _ := SendMessage(None, sdkThrows);
      } else {
        if tryJoin && result.ApplicationNotRunning? {
          LaunchApp(false);
          return;
        }
        Disconnect(status);
      }
    }

    /** The connection was suspended: the next onConnected resumes the session. */
    method OnConnectionSuspended()
      modifies this`waitingForReconnect
      ensures waitingForReconnect
    {
      waitingForReconnect := true;
    }

    /** The client could not connect. */
    method OnConnectionFailed(status: ClientStatus)
      modifies this
      ensures Session() == AfterDisconnect(old(Session()), status) && messageText == old(messageText)
      ensures trace == old(trace) + TeardownEffects(old(apiClient), old(applicationStarted), status, old(hasChannel), old(sessionId), namespace)
    {
      Disconnect(status);
    }

    /** The receiver application stopped (Cast.Listener.onApplicationDisconnected). */
    method OnApplicationDisconnected(status: ClientStatus)
      modifies this
      ensures Session() == AfterDisconnect(old(Session()), status) && messageText == old(messageText)
      ensures trace == old(trace) + TeardownEffects(old(apiClient), old(applicationStarted), status, old(hasChannel), old(sessionId), namespace)
    {
      Disconnect(status);
    }
  }
}
