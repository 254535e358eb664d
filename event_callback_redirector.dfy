/** Temporarily replacing the event callback installed on a debug client
    (getEventCallback and EventCallbackRedirector in cdbdebugeventcallback.cpp).
    A callback is any object; `null` is the absent callback. */
module CallbackRedirection {

  /** The debug client's event-callback slot. Whether querying the slot
      succeeds is up to the debugging engine and is given. */
  class DebugClient {
    var eventCallbacks: object?
    const querySucceeds: bool

    constructor (installed: object?, querySucceeds: bool)
      ensures eventCallbacks == installed && this.querySucceeds == querySucceeds
    {
      eventCallbacks := installed;
      this.querySucceeds := querySucceeds;
    }

    method SetEventCallbacks(cb: object?)
      modifies this
      ensures eventCallbacks == cb
    {
      eventCallbacks := cb;
    }
  }

  /** CdbDebugEventCallbackBase::getEventCallback: the installed callback,
      or null when the query fails. */
  function GetEventCallback(client: DebugClient): (rc: object?)
    reads client
    ensures rc != null ==> rc == client.eventCallbacks
    ensures client.querySucceeds ==> rc == client.eventCallbacks
    ensures !client.querySucceeds ==> rc == null
  {
    if client.querySucceeds then client.eventCallbacks else null
  }

  /** EventCallbackRedirector: installs a callback for its lifetime; the
      destructor, here `Restore`, puts back what was there before. */
  class EventCallbackRedirector {
    const client: DebugClient
    const oldCb: object?

    constructor (client: DebugClient, cb: object?)
      modifies client
      ensures this.client == client
      ensures oldCb == old(GetEventCallback(client))
      ensures client.eventCallbacks == cb
    {
      this.client := client;
      oldCb := GetEventCallback(client);
      new;
      client.SetEventCallbacks(cb);
    }

    method Restore()
      modifies client
      ensures client.eventCallbacks == oldCb
    {
      client.SetEventCallbacks(oldCb);
    }
  }

  /** Nested redirectors destroyed in reverse order of construction: while
      each lives its callback is installed, and at the end the original one
      is back. */
  method NestedRedirection(original: object?, outer: object?, inner: object?)
    returns (duringOuter: object?, duringInner: object?, afterInner: object?, afterOuter: object?)
    ensures duringOuter == outer && duringInner == inner
    ensures afterInner == outer && afterOuter == original
  {
    var client := new DebugClient(original, true);
    var r1 := new EventCallbackRedirector(client, outer);
    duringOuter := client.eventCallbacks;
    var r2 := new EventCallbackRedirector(client, inner);
    duringInner := client.eventCallbacks;
    r2.Restore();
    afterInner := client.eventCallbacks;
    r1.Restore();
    afterOuter := client.eventCallbacks;
  }

  /** Destroyed in the order of construction instead, the redirectors leave
      the inner callback's predecessor, the outer callback, installed. */
  method CrossedRedirection(original: object?, outer: object?, inner: object?)
    returns (afterBoth: object?)
    ensures afterBoth == outer
  {
    var client := new DebugClient(original, true);
    var r1 := new EventCallbackRedirector(client, outer);
    var r2 := new EventCallbackRedirector(client, inner);
    r1.Restore();
    r2.Restore();
    afterBoth := client.eventCallbacks;
  }

  /** When the slot cannot be queried the redirector saves null, so its
      destruction leaves no callback installed, whatever was there. */
  method RedirectionAfterFailedQuery(original: object?, cb: object?)
    returns (during: object?, after: object?)
    ensures during == cb && after == null
  {
    var client := new DebugClient(original, false);
    var r := new EventCallbackRedirector(client, cb);
    during := client.eventCallbacks;
    r.Restore();
    after := client.eventCallbacks;
  }
}
