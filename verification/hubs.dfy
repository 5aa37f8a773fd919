/**
 * The Hubs layer of the client: a `HubConnection` keeps a table of pending
 * invocation callbacks keyed by decimal ids and a registry of hub proxies
 * keyed by lower-cased hub names, and routes every message the transport
 * delivers either to the callback waiting for it (a result frame, which
 * carries `I`) or to the proxy of the hub it names (a hub invocation).
 */
module Hubs {
  import opened Common
  import opened Text
  import opened Json

  /** The lifecycle state of the underlying connection. */
  datatype ConnectionState = Disconnected | Connecting | Connected | Reconnecting

  /**
   * The reply to a hub method invocation: the callback id `I`, the result
   * `R`, the hub-exception flag `H`, the error `E`, the error data `D` and
   * the state changes `S`.
   */
  datatype HubResult = HubResult(
    id: Option<string>,
    result: Option<string>,
    hubException: bool,
    error: Option<string>,
    errorData: Option<Json>,
    state: Option<map<string, string>>)

  /** The result handed to every pending callback when the table is cleared. */
  function ErrorResult(error: string): (r: HubResult)
    ensures r.error == Some(error)
    ensures r.id.None? && r.result.None? && !r.hubException
    ensures r.errorData.None? && r.state.None?
  {
    HubResult(None, None, false, Some(error), None, None)
  }

  /** A result frame as LoganSquare binds it to the `HubResult` fields. */
  function DecodeResult(message: Object): (r: HubResult)
    ensures r.id == StringField(message, "I")
    ensures r.result == StringField(message, "R")
    ensures r.hubException <==> "H" in message && message["H"] == JBool(true)
    ensures r.error == StringField(message, "E")
    ensures r.errorData.Some? <==> "D" in message
    ensures r.state == StringMapField(message, "S")
  {
    HubResult(
      StringField(message, "I"),
      StringField(message, "R"),
      "H" in message && message["H"] == JBool(true),
      StringField(message, "E"),
      if "D" in message then Some(message["D"]) else None,
      StringMapField(message, "S"))
  }

  /** One `invokeEvent` call on a proxy: the lower-cased event name and its arguments. */
  datatype Event = Event(name: string, args: seq<Object>)

  /**
   * A hub proxy as the connection sees it: the hub name it was created
   * with, its state bag, and the events dispatched to it so far.
   */
  datatype HubProxy = HubProxy(hubName: string, state: map<string, string>, events: seq<Event>)

  /** One run of an invocation callback with the result it was given. */
  datatype Run = Run(callback: Action, result: HubResult)

  /** What `onError(e, false)` is told about. */
  datatype HubError =
    | CallbackFailed(callback: Action)   // an invocation callback threw
    | ArgumentsUnreadable(hub: string)   // `A` is missing, not an array, or holds a non-object

  /** Why `createHubProxy` refused. */
  datatype ProxyError =
    | InvalidState(state: ConnectionState)   // InvalidStateException
    | NullHubName                            // IllegalArgumentException

  // ------------------------------------------------------------- getUrl

  /**
   * The connection URL: `url` with a trailing '/' ensured, followed by
   * "signalr" when the default URL is asked for.
   */
  function GetUrl(url: string, useDefaultUrl: bool): (r: string)
    ensures StartsWith(r, url)
    ensures useDefaultUrl ==> EndsWith(r, "/signalr")
    ensures !useDefaultUrl ==> EndsWith(r, "/")
    ensures |r| <= |url| + 1 + (if useDefaultUrl then |"signalr"| else 0)
  {
    var slashed := if EndsWith(url, "/") then url else url + "/";
    if useDefaultUrl then slashed + "signalr" else slashed
  }

  /** A URL that already ends in '/' is kept as it is when no default is asked for. */
  lemma SlashedUrlKept(url: string)
    requires EndsWith(url, "/")
    ensures GetUrl(url, false) == url
  {
  }

  /** Normalising a URL twice gives the same URL as normalising it once. */
  lemma GetUrlIdempotent(url: string)
    ensures GetUrl(GetUrl(url, false), false) == GetUrl(url, false)
  {
    SlashedUrlKept(GetUrl(url, false));
  }

  /** The default URL is the normalised URL with "signalr" appended. */
  lemma DefaultUrlExtendsSlashed(url: string)
    ensures GetUrl(url, true) == GetUrl(url, false) + "signalr"
  {
  }

  // ---------------------------------------------------- pure helpers

  /** The arguments `A` of a hub invocation when every element is an object. */
  function ArgumentObjects(message: Object): (r: Option<seq<Object>>)
    ensures r.Some? <==> "A" in message && message["A"].JArr?
                         && forall i :: 0 <= i < |message["A"].items| ==> message["A"].items[i].JObj?
    ensures r.Some? ==> |r.value| == |message["A"].items|
                        && forall i :: 0 <= i < |r.value| ==> message["A"].items[i] == JObj(r.value[i])
  {
    if "A" in message && message["A"].JArr?
       && forall i :: 0 <= i < |message["A"].items| ==> message["A"].items[i].JObj?
    then Some(ObjectsOf(message["A"].items))
    else None
  }

  /** The state bag after the `S` members of an invocation were set on it. */
  function MergeState(bag: map<string, string>, update: Option<map<string, string>>): (r: map<string, string>)
    ensures update.None? ==> r == bag
    ensures update.Some? ==> r.Keys == bag.Keys + update.value.Keys
    ensures update.Some? ==> forall k :: k in update.value ==> r[k] == update.value[k]
    ensures forall k :: k in bag && (update.None? || k !in update.value) ==> r[k] == bag[k]
  {
    if update.None? then bag else bag + update.value
  }

  /**
   * `setState(key, value)` for every member of `update`, one at a time:
   * every key of `update` takes its new value and every other key keeps
   * the old one.
   */
  method ApplyState(bag: map<string, string>, update: map<string, string>) returns (r: map<string, string>)
    ensures r.Keys == bag.Keys + update.Keys
    ensures forall k :: k in update ==> r[k] == update[k]
    ensures forall k :: k in bag && k !in update ==> r[k] == bag[k]
  {
    r := bag;
    var pending := update.Keys;
    while pending != {}
      invariant pending <= update.Keys
      invariant forall k :: k in r <==> k in bag || (k in update && k !in pending)
      invariant forall k :: k in update && k !in pending ==> r[k] == update[k]
      invariant forall k :: k in bag && (k !in update || k in pending) ==> r[k] == bag[k]
      decreases |pending|
    {
      var key :| key in pending;
      r := r[key := update[key]];
      pending := pending - {key};
    }
  }

  /**
   * Reads the arguments of a hub invocation one element at a time
   * (`getJSONArray("A")` then `getJSONObject(i)`); `None` stands for the
   * exception either call throws.
   */
  method ExtractArguments(message: Object) returns (args: Option<seq<Object>>)
    ensures args == ArgumentObjects(message)
  {
    if "A" !in message || !message["A"].JArr? {
      return None;
    }
    var items := message["A"].items;
    var objects: seq<Object> := [];
    for i := 0 to |items|
      invariant |objects| == i
      invariant forall j :: 0 <= j < i ==> items[j] == JObj(objects[j])
    {
      if !items[i].JObj? {
        return None;
      }
      objects := objects + [items[i].fields];
    }
    assert objects == ObjectsOf(items);
    return Some(objects);
  }

  /** The `{"name": hub}` entry of the connection data. */
  function NameEntry(hubName: string): (r: Json)
    ensures r.JObj? && r.fields.Keys == {"name"} && r.fields["name"] == JStr(hubName)
  {
    JObj(map["name" := JStr(hubName)])
  }

  /** The callback runs of a table cleared in the order `keys`. */
  function RunsFor(keys: seq<string>, callbacks: map<string, Action>, result: HubResult): (r: seq<Run>)
    requires forall i :: 0 <= i < |keys| ==> keys[i] in callbacks
    ensures |r| == |keys|
    ensures forall i :: 0 <= i < |keys| ==> r[i] == Run(callbacks[keys[i]], result)
  {
    seq(|keys|, i requires 0 <= i < |keys| => Run(callbacks[keys[i]], result))
  }

  // ------------------------------------------------------- HubConnection

  class HubConnection {
    /** The normalised connection URL. */
    const url: string
    /** The state of the underlying connection (kept by its base class). */
    var state: ConnectionState
    /** Pending invocation callbacks, keyed by callback id. */
    var callbacks: map<string, Action>
    /** The next callback id. */
    var callbackId: nat
    /** Hub proxies, keyed by lower-cased hub name. */
    var hubs: map<string, HubProxy>
    /** Exceptions reported through `onError(e, false)`, oldest first. */
    var errors: seq<HubError>
    /** Every callback run so far, oldest first. */
    ghost var runs: seq<Run>

    /**
     * Every pending id is the decimal form of a number below the next id,
     * so the next id is never in use; every registry key is lower-case.
     */
    ghost predicate Valid()
      reads this
    {
      && (forall id :: id in callbacks ==> IsDecimal(id) && DecimalValue(id) < callbackId)
      && (forall name :: name in hubs ==> Lower(name) == name)
    }

    constructor (url: string, useDefaultUrl: bool)
      ensures Valid()
      ensures this.url == GetUrl(url, useDefaultUrl)
      ensures state == Disconnected
      ensures callbacks == map[] && callbackId == 0 && hubs == map[]
      ensures errors == [] && runs == []
    {
      this.url := GetUrl(url, useDefaultUrl);
      state := Disconnected;
      callbacks := map[];
      callbackId := 0;
      hubs := map[];
      errors := [];
      runs := [];
    }

    /** The overload that takes the URL as given, without normalising it. */
    constructor WithUrl(url: string)
      ensures Valid()
      ensures this.url == url
      ensures state == Disconnected
      ensures callbacks == map[] && callbackId == 0 && hubs == map[]
      ensures errors == [] && runs == []
    {
      this.url := url;
      state := Disconnected;
      callbacks := map[];
      callbackId := 0;
      hubs := map[];
      errors := [];
      runs := [];
    }

    /**
     * A transition of the underlying connection; the base class that
     * drives it is not part of this model.
     */
    method SetState(newState: ConnectionState)
      modifies this`state
      ensures state == newState
    {
      state := newState;
    }

    /**
     * Stores `callback` under a fresh id, the decimal form of the counter,
     * and advances the counter; no pending callback is displaced.
     */
    method RegisterCallback(callback: Action) returns (id: string)
      requires Valid()
      modifies this`callbacks, this`callbackId
      ensures Valid()
      ensures id == DecimalString(old(callbackId))
      ensures id !in old(callbacks)
      ensures callbacks == old(callbacks)[id := callback]
      ensures callbackId == old(callbackId) + 1
    {
      LowerDecimal(callbackId);
      DecimalRoundTrip(callbackId);
      id := Lower(DecimalString(callbackId));
      callbacks := callbacks[id := callback];
      callbackId := callbackId + 1;
    }

    /** Drops the callback stored under the lower-cased `id`, if any. */
    method RemoveCallback(id: string)
      requires Valid()
      modifies this`callbacks
      ensures Valid()
      ensures callbacks == old(callbacks) - {Lower(id)}
    {
      callbacks := callbacks - {Lower(id)};
    }

    /**
     * Runs every pending callback once, in some order of its keys, with a
     * result carrying only `error`, then empties the table. Exceptions the
     * callbacks throw are only logged.
     */
    method ClearInvocationCallbacks(error: string) returns (ghost order: seq<string>)
      requires Valid()
      modifies this`callbacks, this`runs
      ensures Valid()
      ensures callbacks == map[]
      ensures |order| == |old(callbacks)|
      ensures forall i, j :: 0 <= i < j < |order| ==> order[i] != order[j]
      ensures forall k :: k in old(callbacks) <==> k in order
      ensures runs == old(runs) + RunsFor(order, old(callbacks), ErrorResult(error))
    {
      var result := ErrorResult(error);
      var pending := callbacks.Keys;
      order := [];
      while pending != {}
        invariant callbacks == old(callbacks)
        invariant pending <= callbacks.Keys
        invariant forall k :: k in callbacks <==> k in pending || k in order
        invariant forall k :: k in order ==> k !in pending
        invariant |order| + |pending| == |callbacks|
        invariant forall i, j :: 0 <= i < j < |order| ==> order[i] != order[j]
        invariant runs == old(runs) + RunsFor(order, callbacks, result)
        decreases |pending|
      {
        var key :| key in pending;
        runs := runs + [Run(callbacks[key], result)];
        order := order + [key];
        pending := pending - {key};
      }
      callbacks := map[];
    }

    /** The connection closed: every pending callback gets "Connection closed". */
    method OnClosed() returns (ghost order: seq<string>)
      requires Valid()
      modifies this`callbacks, this`runs
      ensures Valid()
      ensures callbacks == map[]
      ensures |order| == |old(callbacks)|
      ensures forall i, j :: 0 <= i < j < |order| ==> order[i] != order[j]
      ensures forall k :: k in old(callbacks) <==> k in order
      ensures runs == old(runs) + RunsFor(order, old(callbacks), ErrorResult("Connection closed"))
    {
      order := ClearInvocationCallbacks("Connection closed");
    }

    /** The connection is reconnecting: every pending callback gets "Reconnecting". */
    method OnReconnecting() returns (ghost order: seq<string>)
      requires Valid()
      modifies this`callbacks, this`runs
      ensures Valid()
      ensures callbacks == map[]
      ensures |order| == |old(callbacks)|
      ensures forall i, j :: 0 <= i < j < |order| ==> order[i] != order[j]
      ensures forall k :: k in old(callbacks) <==> k in order
      ensures runs == old(runs) + RunsFor(order, old(callbacks), ErrorResult("Reconnecting"))
    {
      order := ClearInvocationCallbacks("Reconnecting");
    }

    /**
     * Returns the proxy for `hubName`, creating it on first use. Refused
     * unless the connection is disconnected (checked first) and unless a
     * name is given; names that agree once lower-cased share one proxy.
     */
    method CreateHubProxy(hubName: Option<string>) returns (r: Result<HubProxy, ProxyError>)
      requires Valid()
      modifies this`hubs
      ensures Valid()
      ensures state != Disconnected ==> r == Err(InvalidState(state))
      ensures state == Disconnected && hubName.None? ==> r == Err(NullHubName)
      ensures r.Err? ==> hubs == old(hubs)
      ensures state == Disconnected && hubName.Some? ==>
                var key := Lower(hubName.value);
                && r.Ok? && key in hubs && r.value == hubs[key]
                && (key in old(hubs) ==> hubs == old(hubs))
                && (key !in old(hubs) ==> hubs == old(hubs)[key := HubProxy(hubName.value, map[], [])])
      ensures hubs.Keys == old(hubs).Keys + (if r.Ok? then {Lower(hubName.value)} else {})
    {
      if state != Disconnected {
        return Err(InvalidState(state));
      }
      if hubName.None? {
        return Err(NullHubName);
      }
      var key := Lower(hubName.value);
      LowerIdempotent(hubName.value);
      if key !in hubs {
        hubs := hubs[key := HubProxy(hubName.value, map[], [])];
      }
      return Ok(hubs[key]);
    }

    /** The `[{"name": hub}, …]` array naming every registered hub once. */
    method ConnectionData() returns (data: Json)
      ensures data.JArr?
      ensures |data.items| == |hubs|
      ensures forall name :: name in hubs <==> NameEntry(name) in data.items
      ensures forall i, j :: 0 <= i < j < |data.items| ==> data.items[i] != data.items[j]
    {
      var items: seq<Json> := [];
      var pending := hubs.Keys;
      ghost var names: seq<string> := [];
      while pending != {}
        invariant pending <= hubs.Keys
        invariant forall name :: name in hubs <==> name in pending || name in names
        invariant forall name :: name in names ==> name !in pending
        invariant |names| + |pending| == |hubs|
        invariant forall i, j :: 0 <= i < j < |names| ==> names[i] != names[j]
        invariant |items| == |names| && forall i :: 0 <= i < |items| ==> items[i] == NameEntry(names[i])
        decreases |pending|
      {
        var name :| name in pending;
        items := items + [NameEntry(name)];
        names := names + [name];
        pending := pending - {name};
      }
      forall name | NameEntry(name) in items
        ensures name in hubs
      {
        var i :| 0 <= i < |items| && items[i] == NameEntry(name);
        assert NameEntry(name).fields["name"] == JStr(names[i]);
      }
      forall name | name in hubs
        ensures NameEntry(name) in items
      {
        var i :| 0 <= i < |names| && names[i] == name;
        assert items[i] == NameEntry(name);
      }
      forall i, j | 0 <= i < j < |items|
        ensures items[i] != items[j]
      {
        assert items[i].fields["name"] == JStr(names[i]);
        assert items[j].fields["name"] == JStr(names[j]);
      }
      return JArr(items);
    }

    /**
     * A message from the transport, acted on only while connected. A result
     * frame (one with `I`) removes and runs the callback stored under its
     * lower-cased id, and a callback that throws is reported. Otherwise the
     * message invokes a method on the hub named by its lower-cased `H`:
     * its `S` members are set on the proxy's state, and then the
     * lower-cased method `M` is dispatched with the objects of `A`, or an
     * error is reported when `A` cannot be read. A message that lacks the
     * fields a step needs ends at that step.
     */
    method OnReceived(message: Object)
      requires Valid()
      modifies this`callbacks, this`hubs, this`errors, this`runs
      ensures Valid()
      ensures state != Connected ==>
                callbacks == old(callbacks) && hubs == old(hubs) && errors == old(errors) && runs == old(runs)
      ensures state == Connected && "I" in message ==>
                var result := DecodeResult(message);
                && hubs == old(hubs)
                && if result.id.None? || Lower(result.id.value) !in old(callbacks) then
                     callbacks == old(callbacks) && errors == old(errors) && runs == old(runs)
                   else
                     var id := Lower(result.id.value);
                     var callback := old(callbacks)[id];
                     && callbacks == old(callbacks) - {id}
                     && runs == old(runs) + [Run(callback, result)]
                     && errors == old(errors) + (if callback.throws then [CallbackFailed(callback)] else [])
      ensures state == Connected && "I" !in message ==>
                var hub := StringField(message, "H");
                && callbacks == old(callbacks) && runs == old(runs)
                && if hub.None? || Lower(hub.value) !in old(hubs) then
                     hubs == old(hubs) && errors == old(errors)
                   else
                     var key := Lower(hub.value);
                     var proxy := old(hubs)[key];
                     var merged := proxy.(state := MergeState(proxy.state, StringMapField(message, "S")));
                     var methodName := StringField(message, "M");
                     var args := ArgumentObjects(message);
                     if methodName.None? then
                       hubs == old(hubs)[key := merged] && errors == old(errors)
                     else if args.None? then
                       hubs == old(hubs)[key := merged] && errors == old(errors) + [ArgumentsUnreadable(key)]
                     else
                       && hubs == old(hubs)[key := merged.(events := merged.events + [Event(Lower(methodName.value), args.value)])]
                       && errors == old(errors)
    {
      if state != Connected {
        return;
      }
      if "I" in message {
        var result := DecodeResult(message);
        if result.id.None? {
          return;
        }
        LowerIdempotent(result.id.value);
        var id := Lower(Lower(result.id.value));
        if id in callbacks {
          var callback := callbacks[id];
          callbacks := callbacks - {id};
          runs := runs + [Run(callback, result)];
          if callback.throws {
            errors := errors + [CallbackFailed(callback)];
          }
        }
        return;
      }
      var hub := StringField(message, "H");
      if hub.None? {
        return;
      }
      var key := Lower(hub.value);
      if key !in hubs {
        return;
      }
      var proxy := hubs[key];
      var update := StringMapField(message, "S");
      if update.Some? {
        var bag := ApplyState(proxy.state, update.value);
        assert bag == MergeState(proxy.state, update);
        proxy := proxy.(state := bag);
        hubs := hubs[key := proxy];
      }
      var methodName := StringField(message, "M");
      if methodName.None? {
        return;
      }
      var eventName := Lower(methodName.value);
      var args := ExtractArguments(message);
      if args.None? {
        errors := errors + [ArgumentsUnreadable(key)];
        return;
      }
      assert proxy == old(hubs)[key].(state := MergeState(old(hubs)[key].state, update));
      hubs := hubs[key := proxy.(events := proxy.events + [Event(eventName, args.value)])];
    }
  }

  /**
   * Hub names that agree once lower-cased name the same proxy: asking for
   * the second returns the proxy created for the first.
   */
  method SameProxyForCaseVariants(connection: HubConnection, first: string, second: string)
      returns (p: HubProxy, q: HubProxy)
    requires connection.Valid() && connection.state == Disconnected
    requires Lower(first) == Lower(second)
    modifies connection
    ensures p == q && p.hubName == (if Lower(first) in old(connection.hubs)
                                    then old(connection.hubs)[Lower(first)].hubName else first)
  {
    var r := connection.CreateHubProxy(Some(first));
    var s := connection.CreateHubProxy(Some(second));
    p, q := r.value, s.value;
  }

  /**
   * Registering a callback and then delivering a result frame that carries
   * its id runs that callback exactly once with that result and leaves the
   * table as it was before the registration.
   */
  method InvocationRoundTrip(connection: HubConnection, callback: Action, frame: Object)
      returns (id: string)
    requires connection.Valid() && connection.state == Connected
    requires !callback.throws
    modifies connection
    ensures "I" in frame && frame["I"] == JStr(id) ==>
              && connection.callbacks == old(connection.callbacks)
              && connection.runs == old(connection.runs) + [Run(callback, DecodeResult(frame))]
              && connection.errors == old(connection.errors)
  {
    id := connection.RegisterCallback(callback);
    if "I" in frame && frame["I"] == JStr(id) {
      LowerDecimal(old(connection.callbackId));
    }
    connection.OnReceived(frame);
  }
}
