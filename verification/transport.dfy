/**
 * `TransportHelper`: the classifier that turns one raw server envelope into
 * the initialize / reconnect / disconnect flags while updating the
 * connection's cursors and forwarding messages, and the three query-string
 * builders.
 *
 * The JSON parser (`new JSONObject(text)`) is the parameter `parse`
 * (`None` when the text is not a JSON object), the JSON text of a nested
 * value is the parameter `printed` and `URLEncoder.encode` is the
 * parameter `enc`; none of them is interpreted here.
 */
module Transport {
  import opened Common
  import opened Text
  import opened Json

  // ======================================================= the classifier

  /** The flags of a `MessageResult`. */
  datatype MessageResult = MessageResult(initialize: bool, reconnect: bool, disconnect: bool)

  const Neutral := MessageResult(false, false, false)

  /** The exceptions the classifier hands to `onError(e, false)`. */
  datatype ReceiveError =
    | Unparseable               // `new JSONObject(data)` failed
    | NotAnInt(field: string)   // `getInt` on a member that is neither a number nor a numeric text
    | NotAnObject(index: nat)   // `getJSONObject(i)` on an element of `M`

  /** Everything one call does to the connection, besides the flags it returns. */
  datatype Effects = Effects(
    flags: MessageResult,
    groupsToken: Option<string>,  // the value given to `setGroupsToken`, if it was called
    messageId: Option<string>,    // the value given to `setMessageId`, if it was called
    delivered: seq<Object>,       // the objects given to `onReceived`, in call order
    errors: seq<ReceiveError>)    // the exceptions given to `onError`, in call order

  const NoEffects := Effects(Neutral, None, None, [], [])

  /** The call either returns its flags or lets a `NullPointerException` escape. */
  datatype Outcome = Returned(result: MessageResult) | ThrewNullPointer

  datatype Processed = Processed(outcome: Outcome, effects: Effects)

  /** Reading one member either lets the cascade go on or ends it early. */
  datatype Step = Go(e: Effects) | Stop(e: Effects)

  /**
   * The longest prefix of `items` made of JSON objects: the messages that
   * reach `onReceived` before `getJSONObject` throws on the first element
   * that is not an object.
   */
  function LeadingObjects(items: seq<Json>): (r: seq<Object>)
    ensures |r| <= |items|
    ensures forall i :: 0 <= i < |r| ==> items[i] == JObj(r[i])
    ensures |r| < |items| ==> !items[|r|].JObj?
  {
    if items == [] || !items[0].JObj? then [] else [items[0].fields] + LeadingObjects(items[1..])
  }

  /** Whether `name` is present and `getInt` reads it as 1. */
  predicate IsOne(json: Object, name: string) {
    name in json && AsInt(json[name]) == Some(1)
  }

  /** Whether `name` is present and `getInt` throws on it. */
  predicate Unreadable(json: Object, name: string) {
    name in json && AsInt(json[name]).None?
  }

  /**
   * `D`: a disconnect command (or a `D` that cannot be read) ends the call
   * at once; this is the first step, so nothing else has happened yet.
   */
  function DisconnectStep(json: Object): (r: Step)
    ensures r.Stop? <==> IsOne(json, "D") || Unreadable(json, "D")
    ensures r.e.flags == Neutral.(disconnect := IsOne(json, "D"))
    ensures r.e.errors == (if Unreadable(json, "D") then [NotAnInt("D")] else [])
    ensures r.e.groupsToken.None? && r.e.messageId.None? && r.e.delivered == []
  {
    if "D" !in json then Go(NoEffects)
    else match AsInt(json["D"])
      case None => Stop(NoEffects.(errors := [NotAnInt("D")]))
      case Some(d) => if d == 1 then Stop(NoEffects.(flags := Neutral.(disconnect := true))) else Go(NoEffects)
  }

  /**
   * `T`: a reconnect request sets the reconnect flag; a `T` that cannot be
   * read is reported and ends the call. Nothing else changes.
   */
  function ReconnectStep(json: Object, e: Effects): (r: Step)
    ensures r.Stop? <==> Unreadable(json, "T")
    ensures r.e.flags == e.flags.(reconnect := e.flags.reconnect || IsOne(json, "T"))
    ensures r.e.errors == e.errors + (if Unreadable(json, "T") then [NotAnInt("T")] else [])
    ensures r.e.groupsToken == e.groupsToken && r.e.messageId == e.messageId && r.e.delivered == e.delivered
  {
    if "T" !in json then Go(e)
    else match AsInt(json["T"])
      case None => Stop(e.(errors := e.errors + [NotAnInt("T")]))
      case Some(t) => Go(if t == 1 then e.(flags := e.flags.(reconnect := true)) else e)
  }

  /**
   * `G`: the text of whatever value it holds becomes the groups token;
   * `getString` cannot fail on a member that is present.
   */
  function GroupsStep(json: Object, e: Effects, printed: Json -> string): (r: Effects)
    ensures "G" in json ==> r.groupsToken == Some(AsString(json["G"], printed))
    ensures "G" !in json ==> r == e
    ensures r == e.(groupsToken := r.groupsToken)
  {
    if "G" in json then e.(groupsToken := Some(AsString(json["G"], printed))) else e
  }

  /**
   * `M` and `C`: only when `M` is an array is the text of `C` stored as
   * the message id and are the elements of `M` delivered, in array order,
   * up to the first one that is not an object, which is reported and ends
   * the call.
   */
  function MessagesStep(json: Object, e: Effects, printed: Json -> string): (r: Step)
    ensures !("M" in json && json["M"].JArr?) ==> r == Go(e)
    ensures "M" in json && json["M"].JArr? ==>
              var items := json["M"].items;
              && r.e.delivered == e.delivered + LeadingObjects(items)
              && (r.Stop? <==> exists i :: 0 <= i < |items| && !items[i].JObj?)
              && r.e.errors == e.errors + (if r.Stop? then [NotAnObject(|LeadingObjects(items)|)] else [])
              && r.e.messageId == (if "C" in json then Some(AsString(json["C"], printed)) else e.messageId)
              && r.e.flags == e.flags && r.e.groupsToken == e.groupsToken
  {
    if "M" !in json || !json["M"].JArr? then Go(e)
    else
      var e1 := if "C" in json then e.(messageId := Some(AsString(json["C"], printed))) else e;
      var items := json["M"].items;
      var objects := LeadingObjects(items);
      if |objects| < |items| then
        Stop(e1.(delivered := e1.delivered + objects, errors := e1.errors + [NotAnObject(|objects|)]))
      else
        Go(e1.(delivered := e1.delivered + objects))
  }

  /**
   * `S`: an initialization frame sets the initialize flag; an `S` that
   * cannot be read is reported. Nothing else changes.
   */
  function InitializeStep(json: Object, e: Effects): (r: Step)
    ensures r.Stop? <==> Unreadable(json, "S")
    ensures r.e.flags == e.flags.(initialize := e.flags.initialize || IsOne(json, "S"))
    ensures r.e.errors == e.errors + (if Unreadable(json, "S") then [NotAnInt("S")] else [])
    ensures r.e.groupsToken == e.groupsToken && r.e.messageId == e.messageId && r.e.delivered == e.delivered
  {
    if "S" !in json then Go(e)
    else match AsInt(json["S"])
      case None => Stop(e.(errors := e.errors + [NotAnInt("S")]))
      case Some(s) => Go(if s == 1 then e.(flags := e.flags.(initialize := true)) else e)
  }

  /**
   * The body of the `try` block for a parsed, non-empty object: a hub
   * result (`I`) is forwarded whole; anything else goes through the
   * members `D`, `T`, `G`, `M`/`C`, `S` in that order, and the first
   * member `getInt` or `getJSONObject` cannot read ends the call with one
   * reported error.
   */
  function Classify(json: Object, printed: Json -> string): (r: Effects)
    ensures "I" in json ==> r == NoEffects.(delivered := [json])
    ensures |r.errors| <= 1
    ensures r.flags.disconnect <==> "I" !in json && IsOne(json, "D")
  {
    if "I" in json then NoEffects.(delivered := [json])
    else match DisconnectStep(json)
      case Stop(e) => e
      case Go(e1) =>
        match ReconnectStep(json, e1)
        case Stop(e) => e
        case Go(e2) =>
          var e3 := GroupsStep(json, e2, printed);
          match MessagesStep(json, e3, printed)
          case Stop(e) => e
          case Go(e4) => InitializeStep(json, e4).e
  }

  /**
   * `processReceivedData(data, connection)` as a function of its input:
   * null, blank and "{}" are neutral; text that does not parse is one
   * reported error; an object without members reaches `json.names()`,
   * which org.json answers with null, so `.length()` throws.
   */
  function Process(data: Option<string>, parse: string -> Option<Object>, printed: Json -> string): (r: Processed)
    ensures r.outcome.ThrewNullPointer? <==>
              data.Some? && Trim(data.value) != "" && Trim(data.value) != "{}" && parse(Trim(data.value)) == Some(map[])
    ensures r.outcome.Returned? ==> r.outcome.result == r.effects.flags
    ensures |r.effects.errors| <= 1
  {
    if data.None? then Processed(Returned(Neutral), NoEffects)
    else
      var text := Trim(data.value);
      if text == "" || text == "{}" then Processed(Returned(Neutral), NoEffects)
      else match parse(text)
        case None => Processed(Returned(Neutral), NoEffects.(errors := [Unparseable]))
        case Some(json) =>
          if |json| == 0 then Processed(ThrewNullPointer, NoEffects)
          else
            var e := Classify(json, printed);
            Processed(Returned(e.flags), e)
  }

  // ================================================= the connection side

  /** The values the query-string builders read from a connection. */
  datatype Session = Session(
    connectionToken: Option<string>,
    connectionId: Option<string>,
    messageId: Option<string>,
    groupsToken: Option<string>,
    connectionData: Option<string>,
    queryString: Option<string>)

  /** What the classifier can change on a connection. */
  datatype View = View(
    messageId: Option<string>,
    groupsToken: Option<string>,
    errors: seq<ReceiveError>,
    received: seq<Object>)

  /** The connection after the effects `e`, starting from `v`. */
  function Apply(v: View, e: Effects): View {
    View(
      if e.messageId.Some? then e.messageId else v.messageId,
      if e.groupsToken.Some? then e.groupsToken else v.groupsToken,
      v.errors + e.errors,
      v.received + e.delivered)
  }

  /**
   * The connection as `TransportHelper` sees it (`ConnectionBase`): the two
   * cursors it updates, the errors reported to it and the objects handed to
   * its `onReceived` hook.
   */
  class ConnectionBase {
    const connectionToken: Option<string>
    const connectionId: Option<string>
    const connectionData: Option<string>
    const queryString: Option<string>
    var messageId: Option<string>
    var groupsToken: Option<string>
    var errors: seq<ReceiveError>
    ghost var received: seq<Object>

    constructor (connectionToken: Option<string>, connectionId: Option<string>,
                 connectionData: Option<string>, queryString: Option<string>)
      ensures this.connectionToken == connectionToken && this.connectionId == connectionId
      ensures this.connectionData == connectionData && this.queryString == queryString
      ensures messageId == None && groupsToken == None && errors == [] && received == []
    {
      this.connectionToken := connectionToken;
      this.connectionId := connectionId;
      this.connectionData := connectionData;
      this.queryString := queryString;
      messageId, groupsToken, errors, received := None, None, [], [];
    }

    function Snapshot(): Session
      reads this
    {
      Session(connectionToken, connectionId, messageId, groupsToken, connectionData, queryString)
    }

    ghost function Current(): View
      reads this
    {
      View(messageId, groupsToken, errors, received)
    }

    /** `onError(e, false)`: a non-fatal error is recorded. */
    method OnError(e: ReceiveError)
      modifies this`errors
      ensures errors == old(errors) + [e]
    {
      errors := errors + [e];
    }

    /** The `onReceived` hook: the object is recorded in call order. */
    method OnReceived(message: Object)
      modifies this`received
      ensures received == old(received) + [message]
    {
      received := received + [message];
    }
  }

  /**
   * `processReceivedData`. Its outcome and everything it does to the
   * connection are those `Process` describes: the cursors change only when
   * their setters are called, errors and forwarded objects are appended in
   * call order, and nothing else about the connection changes.
   */
  method ProcessReceivedData(data: Option<string>, parse: string -> Option<Object>, printed: Json -> string,
                             connection: ConnectionBase)
    returns (outcome: Outcome)
    modifies connection
    ensures outcome == Process(data, parse, printed).outcome
    ensures connection.Current() == Apply(old(connection.Current()), Process(data, parse, printed).effects)
  {
    if data.None? {
      return Returned(Neutral);
    }
    var text := Trim(data.value);
    if text == "" || text == "{}" {
      return Returned(Neutral);
    }
    var parsed := parse(text);
    if parsed.None? {
      connection.OnError(Unparseable);
      return Returned(Neutral);
    }
    var json := parsed.value;
    if |json| == 0 {
      // `json.names()` is null for an object without members
      return ThrewNullPointer;
    }
    var result := ClassifyInto(json, printed, connection);
    return Returned(result);
  }

  /** The `try` block of `processReceivedData`, for a parsed object with members. */
  method ClassifyInto(json: Object, printed: Json -> string, connection: ConnectionBase) returns (result: MessageResult)
    modifies connection
    ensures result == Classify(json, printed).flags
    ensures connection.Current() == Apply(old(connection.Current()), Classify(json, printed))
  {
    ghost var start := connection.Current();
    result := Neutral;
    if "I" in json {
      connection.OnReceived(json);
      return;
    }
    if "D" in json {
      var d := AsInt(json["D"]);
      if d.None? {
        connection.OnError(NotAnInt("D"));
        return;
      }
      if d.value == 1 {
        result := result.(disconnect := true);
        return;
      }
    }
    ghost var e1 := DisconnectStep(json).e;
    assert DisconnectStep(json) == Go(e1) && e1 == NoEffects;
    if "T" in json {
      var t := AsInt(json["T"]);
      if t.None? {
        connection.OnError(NotAnInt("T"));
        return;
      }
      if t.value == 1 {
        result := result.(reconnect := true);
      }
    }
    ghost var e2 := ReconnectStep(json, e1).e;
    assert ReconnectStep(json, e1) == Go(e2) && e2 == NoEffects.(flags := result);
    if "G" in json {
      var g := AsString(json["G"], printed);
      connection.groupsToken := Some(g);
    }
    ghost var e3 := GroupsStep(json, e2, printed);
    assert e3.flags == result;
    assert connection.Current() == Apply(start, e3);
    var stopped := DeliverMessages(json, printed, connection, start, e3);
    if stopped {
      return;
    }
    ghost var e4 := MessagesStep(json, e3, printed).e;
    assert e4.flags == result;
    if "S" in json {
      var s := AsInt(json["S"]);
      if s.None? {
        connection.OnError(NotAnInt("S"));
        return;
      }
      if s.value == 1 {
        result := result.(initialize := true);
      }
    }
  }

  /**
   * The `M` block: when `M` is an array, `C` (if present) is stored as the
   * message id and the elements are handed to `onReceived` one by one until
   * one is not an object. `stopped` says whether an exception ended the call.
   */
  method DeliverMessages(json: Object, printed: Json -> string, connection: ConnectionBase,
                         ghost start: View, ghost e: Effects)
    returns (stopped: bool)
    requires connection.Current() == Apply(start, e)
    modifies connection
    ensures stopped == MessagesStep(json, e, printed).Stop?
    ensures connection.Current() == Apply(start, MessagesStep(json, e, printed).e)
  {
    if !("M" in json && json["M"].JArr?) {
      return false;
    }
    if "C" in json {
      var c := AsString(json["C"], printed);
      connection.messageId := Some(c);
    }
    ghost var e1 := if "C" in json then e.(messageId := Some(AsString(json["C"], printed))) else e;
    assert connection.Current() == Apply(start, e1);
    var messages := json["M"].items;
    ghost var objects := LeadingObjects(messages);
    for i := 0 to |messages|
      invariant i <= |objects|
      invariant connection.Current() == Apply(start, e1.(delivered := e1.delivered + objects[..i]))
    {
      if !messages[i].JObj? {
        connection.OnError(NotAnObject(i));
        assert objects[..i] == objects;
        return true;
      }
      connection.OnReceived(messages[i].fields);
      assert objects[..i + 1] == objects[..i] + [messages[i].fields];
    }
    assert objects[..|messages|] == objects;
    return false;
  }

  // ============================================ properties of the classifier

  /** Null input, blank input and "{}" are neutral and touch nothing. */
  lemma NeutralInputs(data: Option<string>, parse: string -> Option<Object>, printed: Json -> string)
    requires data.None? || (forall i :: 0 <= i < |data.value| ==> IsBlank(data.value[i])) || Trim(data.value) == "{}"
    ensures Process(data, parse, printed) == Processed(Returned(Neutral), NoEffects)
  {
  }

  /** Text that does not parse is reported once, as a non-fatal error, and is otherwise neutral. */
  lemma UnparseableInput(data: string, parse: string -> Option<Object>, printed: Json -> string)
    requires Trim(data) != "" && Trim(data) != "{}" && parse(Trim(data)).None?
    ensures Process(Some(data), parse, printed) == Processed(Returned(Neutral), NoEffects.(errors := [Unparseable]))
  {
  }

  /** An envelope carrying `I` is forwarded whole, once, and sets nothing. */
  lemma ResultEnvelopeForwarded(json: Object, printed: Json -> string)
    requires "I" in json
    ensures Classify(json, printed) == NoEffects.(delivered := [json])
  {
  }

  /**
   * A `D` that `getInt` reads as 1 sets only the disconnect flag: `T`, `G`,
   * `M`, `C` and `S` have no effect.
   */
  lemma DisconnectIgnoresRest(json: Object, printed: Json -> string)
    requires "I" !in json && "D" in json && AsInt(json["D"]) == Some(1)
    ensures Classify(json, printed) == NoEffects.(flags := MessageResult(false, false, true))
  {
  }

  /**
   * The message id is set only from `C`, as its text, and only when `M` is
   * an array in the same envelope.
   */
  lemma MessageIdOnlyWithArray(json: Object, printed: Json -> string)
    ensures Classify(json, printed).messageId.Some? ==>
      && "I" !in json && "M" in json && json["M"].JArr?
      && "C" in json && Classify(json, printed).messageId.value == AsString(json["C"], printed)
  {
    if "I" !in json {
      match DisconnectStep(json)
      case Stop(e) =>
      case Go(e1) =>
        assert e1.messageId.None?;
        match ReconnectStep(json, e1)
        case Stop(e) =>
        case Go(e2) =>
          assert e2.messageId.None?;
          assert GroupsStep(json, e2, printed).messageId.None?;
    }
  }

  /** Every member that is read with `getInt` or `getJSONObject` can be read so. */
  predicate WellTyped(json: Object) {
    && ("D" in json ==> AsInt(json["D"]).Some?)
    && ("T" in json ==> AsInt(json["T"]).Some?)
    && ("S" in json ==> AsInt(json["S"]).Some?)
    && ("M" in json && json["M"].JArr? ==>
          forall i :: 0 <= i < |json["M"].items| ==> json["M"].items[i].JObj?)
  }

  /**
   * A well-typed envelope without `I` and without a `D` read as 1 sets
   * reconnect exactly when `T` reads as 1 and initialize exactly when `S`
   * does, stores the text of `G` as the groups token, stores the text of
   * `C` as the message id when `M` is an array, delivers every element of
   * that array in order and reports no error.
   */
  lemma {:induction false} WellTypedEnvelope(json: Object, printed: Json -> string)
    requires "I" !in json && WellTyped(json) && !IsOne(json, "D")
    ensures var isArray := "M" in json && json["M"].JArr?;
      Classify(json, printed) == Effects(
        MessageResult(IsOne(json, "S"), IsOne(json, "T"), false),
        if "G" in json then Some(AsString(json["G"], printed)) else None,
        if isArray && "C" in json then Some(AsString(json["C"], printed)) else None,
        if isArray then ObjectsOf(json["M"].items) else [],
        [])
  {
    DisconnectGoes(json);
    var e2 := NoEffects.(flags := Neutral.(reconnect := IsOne(json, "T")));
    FlagGoes(json, "T", NoEffects);
    assert ReconnectStep(json, NoEffects) == Go(e2);
    var e3 := GroupsStep(json, e2, printed);
    var isArray := "M" in json && json["M"].JArr?;
    var e4 := if isArray then
                e3.(messageId := if "C" in json then Some(AsString(json["C"], printed)) else None,
                    delivered := ObjectsOf(json["M"].items))
              else e3;
    if isArray {
      AllObjects(json["M"].items);
    }
    assert MessagesStep(json, e3, printed) == Go(e4);
    FlagGoes(json, "S", e4);
  }

  /** A readable `D` that is not 1 lets the cascade go on untouched. */
  lemma DisconnectGoes(json: Object)
    requires ("D" in json ==> AsInt(json["D"]).Some?) && !IsOne(json, "D")
    ensures DisconnectStep(json) == Go(NoEffects)
  {
  }

  /** A readable `T` or `S` sets its flag exactly when it reads as 1. */
  lemma FlagGoes(json: Object, name: string, e: Effects)
    requires name == "T" || name == "S"
    requires name in json ==> AsInt(json[name]).Some?
    ensures name == "T" ==> ReconnectStep(json, e) == Go(e.(flags := e.flags.(reconnect := e.flags.reconnect || IsOne(json, "T"))))
    ensures name == "S" ==> InitializeStep(json, e) == Go(e.(flags := e.flags.(initialize := e.flags.initialize || IsOne(json, "S"))))
  {
  }

  lemma {:induction false} AllObjects(items: seq<Json>)
    requires forall i :: 0 <= i < |items| ==> items[i].JObj?
    ensures LeadingObjects(items) == ObjectsOf(items)
  {
  }

  /**
   * A `T` that `getInt` cannot read ends the call with one error: no flag
   * is set, and `G`, `M`, `C` and `S` are not read.
   */
  lemma UnreadableReconnectStops(json: Object, printed: Json -> string)
    requires "I" !in json && ("D" in json ==> AsInt(json["D"]).Some? && !IsOne(json, "D"))
    requires "T" in json && AsInt(json["T"]).None?
    ensures Classify(json, printed) == NoEffects.(errors := [NotAnInt("T")])
  {
  }

  /**
   * Two envelopes with the same members that differ at most in `D`, `T`
   * and `S`, and there only in ways `getInt` cannot tell apart.
   */
  predicate ReadAlike(j1: Object, j2: Object) {
    && j1.Keys == j2.Keys
    && (forall k :: k in j1 && k != "D" && k != "T" && k != "S" ==> j1[k] == j2[k])
    && (forall k :: k in j1 && (k == "D" || k == "T" || k == "S") ==> AsInt(j1[k]) == AsInt(j2[k]))
  }

  /**
   * Without `I`, the classifier sees an envelope only through what its
   * getters read. (With `I` the envelope itself is forwarded.)
   */
  lemma ClassifyReadAlike(j1: Object, j2: Object, printed: Json -> string)
    requires "I" !in j1 && ReadAlike(j1, j2)
    ensures Classify(j1, printed) == Classify(j2, printed)
  {
    assert "D" in j1 ==> AsInt(j1["D"]) == AsInt(j2["D"]);
    assert DisconnectStep(j1) == DisconnectStep(j2);
    forall e: Effects
      ensures ReconnectStep(j1, e) == ReconnectStep(j2, e)
      ensures GroupsStep(j1, e, printed) == GroupsStep(j2, e, printed)
      ensures MessagesStep(j1, e, printed) == MessagesStep(j2, e, printed)
      ensures InitializeStep(j1, e) == InitializeStep(j2, e)
    {
      assert "T" in j1 ==> AsInt(j1["T"]) == AsInt(j2["T"]);
      assert "S" in j1 ==> AsInt(j1["S"]) == AsInt(j2["S"]);
      assert "G" in j1 ==> j1["G"] == j2["G"];
      assert "M" in j1 ==> j1["M"] == j2["M"];
      assert "C" in j1 ==> j1["C"] == j2["C"];
    }
  }

  /**
   * In an envelope without `I`, a flag written as the text of an `int`
   * ("1" rather than 1) acts exactly as the number does.
   */
  lemma NumericTextActsAsNumber(json: Object, name: string, n: int, printed: Json -> string)
    requires "I" !in json
    requires name == "D" || name == "T" || name == "S"
    requires InInt(n)
    ensures Classify(json[name := JStr(SignedDecimal(n))], printed) == Classify(json[name := JNum(n)], printed)
  {
    SignedDecimalRoundTrip(n);
    var text := json[name := JStr(SignedDecimal(n))];
    var number := json[name := JNum(n)];
    assert AsInt(text[name]) == AsInt(number[name]);
    assert ReadAlike(text, number);
    ClassifyReadAlike(text, number, printed);
  }

  // =========================================================== query strings

  /** `urlEncode`: null encodes to the empty string, anything else through `URLEncoder`. */
  function UrlEncode(s: Option<string>, enc: string -> string): (r: string)
    ensures s.None? ==> r == ""
    ensures s.Some? ==> r == enc(s.value)
  {
    if s.None? then "" else enc(s.value)
  }

  /** An optional `&name=value` parameter, present only when the value is not null. */
  function Parameter(name: string, value: Option<string>, enc: string -> string): string {
    if value.None? then "" else "&" + name + "=" + UrlEncode(value, enc)
  }

  /** The caller's own query string, appended raw after an `&` when not null. */
  function CustomQuery(queryString: Option<string>): string {
    if queryString.None? then "" else "&" + queryString.value
  }

  /** `getReceiveQueryString`: the transport name is appended without encoding. */
  function ReceiveQueryString(transportName: string, c: Session, enc: string -> string): (r: string)
    ensures StartsWith(r, "?transport=" + transportName + "&connectionToken=")
  {
    "?transport=" + transportName
    + "&connectionToken=" + UrlEncode(c.connectionToken, enc)
    + "&connectionId=" + UrlEncode(c.connectionId, enc)
    + Parameter("messageId", c.messageId, enc)
    + Parameter("groupsToken", c.groupsToken, enc)
    + Parameter("connectionData", c.connectionData, enc)
    + CustomQuery(c.queryString)
  }

  /** `getSendQueryString`: the transport name is URL-encoded here. */
  function SendQueryString(transportName: string, c: Session, enc: string -> string): (r: string)
    ensures StartsWith(r, "?transport=" + enc(transportName) + "&connectionToken=")
  {
    "?transport=" + UrlEncode(Some(transportName), enc)
    + "&connectionToken=" + UrlEncode(c.connectionToken, enc)
    + "&connectionId=" + UrlEncode(c.connectionId, enc)
    + Parameter("connectionData", c.connectionData, enc)
    + CustomQuery(c.queryString)
  }

  /** `getNegotiateQueryString`, for the client's protocol version `version`. */
  function NegotiateQueryString(version: string, c: Session, enc: string -> string): (r: string)
    ensures StartsWith(r, "?clientProtocol=" + enc(version))
  {
    "?clientProtocol=" + UrlEncode(Some(version), enc)
    + Parameter("connectionData", c.connectionData, enc)
    + CustomQuery(c.queryString)
  }

  /**
   * The receive query string lists `transport`, `connectionToken` and
   * `connectionId`, then `messageId`, `groupsToken` and `connectionData`
   * each exactly when it is not null, then the raw custom query: it is the
   * query string of the same session without cursors, with the cursor
   * parameters inserted right after `connectionId`.
   */
  lemma ReceiveInsertsCursors(transportName: string, c: Session, enc: string -> string)
    ensures var head := "?transport=" + transportName
                        + "&connectionToken=" + UrlEncode(c.connectionToken, enc)
                        + "&connectionId=" + UrlEncode(c.connectionId, enc);
            var bare := ReceiveQueryString(transportName, c.(messageId := None, groupsToken := None), enc);
      && StartsWith(bare, head)
      && ReceiveQueryString(transportName, c, enc)
         == head + Parameter("messageId", c.messageId, enc) + Parameter("groupsToken", c.groupsToken, enc) + bare[|head|..]
  {
  }

  /**
   * The send query string is the receive query string of the same session
   * with the transport name encoded and both cursors dropped.
   */
  lemma SendIsReceiveWithoutCursors(transportName: string, c: Session, enc: string -> string)
    ensures SendQueryString(transportName, c, enc)
         == ReceiveQueryString(enc(transportName), c.(messageId := None, groupsToken := None), enc)
  {
  }

  /** The send query string never depends on `messageId` or `groupsToken`. */
  lemma SendIgnoresCursors(transportName: string, c: Session, messageId: Option<string>,
                           groupsToken: Option<string>, enc: string -> string)
    ensures SendQueryString(transportName, c, enc)
         == SendQueryString(transportName, c.(messageId := messageId, groupsToken := groupsToken), enc)
  {
  }

  /**
   * After the protocol version, the negotiate query string carries the same
   * parameters as the send query string carries after `connectionId`.
   */
  lemma NegotiateSharesSendTail(version: string, transportName: string, c: Session, enc: string -> string)
    ensures var head := "?clientProtocol=" + enc(version);
            var sendHead := "?transport=" + enc(transportName)
                            + "&connectionToken=" + UrlEncode(c.connectionToken, enc)
                            + "&connectionId=" + UrlEncode(c.connectionId, enc);
            var n := NegotiateQueryString(version, c, enc);
            var s := SendQueryString(transportName, c, enc);
      StartsWith(s, sendHead) && n[|head|..] == s[|sendHead|..]
  {
  }

  // ================================================================ findings

  /**
   * As written: "{ }" is not literally "{}", so an object without members
   * is parsed and reaches `json.names().length()`; org.json's `names()` is
   * null for such an object and the call throws.
   */
  lemma EmptyObjectEscapes(parse: string -> Option<Object>, printed: Json -> string)
    requires parse("{ }") == Some(map[])
    ensures Process(Some("{ }"), parse, printed).outcome == ThrewNullPointer
  {
    assert Trim("{ }") == "{ }" by {
      assert TrimStart("{ }") == "{ }";
      assert TrimEnd("{ }") == "{ }";
    }
  }

  /**
   * The classifier with the evidently intended guard: an object without
   * members is neutral, as "{}" is.
   */
  function ProcessGuarded(data: Option<string>, parse: string -> Option<Object>, printed: Json -> string): (p: Processed)
    ensures p.outcome.Returned?
  {
    if data.Some? && Trim(data.value) != "" && Trim(data.value) != "{}" && parse(Trim(data.value)) == Some(map[])
    then Processed(Returned(Neutral), NoEffects)
    else Process(data, parse, printed)
  }

  /**
   * With the guard, every object without members is neutral and touches
   * nothing, and every other input is classified as before.
   */
  lemma GuardedEmptyObjectIsNeutral(data: string, parse: string -> Option<Object>, printed: Json -> string)
    ensures parse(Trim(data)) == Some(map[]) ==>
              ProcessGuarded(Some(data), parse, printed) == Processed(Returned(Neutral), NoEffects)
    ensures parse(Trim(data)) != Some(map[]) ==>
              ProcessGuarded(Some(data), parse, printed) == Process(Some(data), parse, printed)
  {
  }
}
