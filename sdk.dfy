/**
 * The vocabulary shared by CastProxy and MainActivity for the closed Google
 * Cast SDK they drive: what an SDK client reports about itself, what a
 * launch or join returns, and the calls the code makes, recorded as effects
 * rather than executed.
 */
module Sdk {
  import opened Optional
  import opened Payloads

  /** A Cast device obtained from a selected media route; only its identity matters. */
  type DeviceId = nat

  /** A GoogleApiClient instance; only its identity matters. */
  class ApiClient {
    constructor () {}
  }

  /** What isConnected() and isConnecting() report about the current client. */
  datatype ClientStatus = Idle | Connecting | Connected

  /** The status delivered to a launch or join result callback. */
  datatype AppResult =
    | Success(sessionId: string)
    | ApplicationNotRunning
    | OtherFailure

  /** A CastChannel supplied by the application: an identity and its namespace. */
  datatype ChannelRef = ChannelRef(id: nat, namespace: string)

  /** One call into the SDK, the media router, or the application's channel. */
  datatype Effect =
    | AddDiscoveryCallback
    | RemoveDiscoveryCallback
    | BuildClient(client: ApiClient, device: Option<DeviceId>)
    | ConnectClient(client: ApiClient)
    | DisconnectClient(client: ApiClient)
    | JoinApplication(appId: string, sessionId: Option<string>)
    | LaunchApplication(appId: string)
    | StopApplication(sessionId: Option<string>)
    | LeaveApplication
    | SetMessageCallbacks(namespace: string)
    | RemoveMessageCallbacks(namespace: string)
    | SendMessage(namespace: string, payload: Payload)
    | ChannelConnected(channel: ChannelRef)
    | ChannelReconnected(channel: ChannelRef)
    | ChannelDisconnected(channel: ChannelRef)

  predicate IsDiscoveryEffect(e: Effect) {
    e.AddDiscoveryCallback? || e.RemoveDiscoveryCallback?
  }

  /** Effects that leave the media router alone. */
  predicate SessionOnly(u: seq<Effect>) {
    forall i :: 0 <= i < |u| ==> !IsDiscoveryEffect(u[i])
  }

  /** Whether the discovery callback is registered after the calls in t: the latest add or remove decides. */
  function DiscoveryOn(t: seq<Effect>): bool {
    if t == [] then false
    else if t[|t| - 1].AddDiscoveryCallback? then true
    else if t[|t| - 1].RemoveDiscoveryCallback? then false
    else DiscoveryOn(t[..|t| - 1])
  }

  /** Calls that do not touch the media router do not change whether discovery is on. */
  lemma {:induction false} DiscoveryOnAppend(t: seq<Effect>, u: seq<Effect>)
    requires SessionOnly(u)
    ensures DiscoveryOn(t + u) == DiscoveryOn(t)
  {
    if u != [] {
      var v := u[..|u| - 1];
      assert (t + u)[..|t + u| - 1] == t + v;
      assert (t + u)[|t + u| - 1] == u[|u| - 1];
      assert !IsDiscoveryEffect(u[|u| - 1]);
      DiscoveryOnAppend(t, v);
      assert DiscoveryOn(t + u) == DiscoveryOn(t + v);
    } else {
      assert t + u == t;
    }
  }

  /** Discovery is on right after an add and off right after a remove, whatever came before. */
  lemma DiscoveryOnLast(t: seq<Effect>, e: Effect)
    requires IsDiscoveryEffect(e)
    ensures DiscoveryOn(t + [e]) == e.AddDiscoveryCallback?
  {
  }
}
