# SignalR Java client: hubs, transport helper, date normalisation

A Dafny model of the core of the SignalR Java client. It covers four parts:

- **`HubConnection`** (module `Hubs`). This is the hubs layer on top of a
  persistent connection. It keeps a table of pending invocation callbacks,
  keyed by the decimal form of a counter. It keeps a registry of hub proxies,
  keyed by lower-cased hub name. It routes every message the transport
  delivers either to the callback a result frame (`I`) names or to the proxy
  of the hub an invocation (`H`, `M`, `A`, `S`) names. It empties the
  callback table, with an error result, when the connection closes or starts
  reconnecting. It also builds the connection data that lists the hubs, and
  normalises the connection URL.
- **`TransportHelper`** (module `Transport`). This is the classifier that
  turns one raw server envelope into the initialize / reconnect / disconnect
  flags. Along the way it updates the connection's message id and groups
  token, forwards messages and reports malformed members. The module also
  has the builders of the receive, send and negotiate query strings.
- **`DateSerializer.deserialize`** (module `Dates`). This is the string
  rewriting that turns a .NET ISO-8601 date into the shape
  `yyyy-MM-ddTHH:mm:ss.SSS+0000` that the Java date formatter reads next.
- **`Subscription`** (module `HubSubscription`). This is an ordered list of
  "Received" handlers that run one after another on each event.

Module `Text` writes out the `java.lang.String` operations the code relies
on: `trim`, `toLowerCase`, `Integer.toString`, `contains`, `replace`,
`endsWith` and `substring`. Module `Json` is a small JSON value type that
stands in for org.json's objects and arrays. Module `Common` holds `Option`,
`Result` and `Action`. An `Action` is a callback or handler, identified by a
number, that either completes or throws.

State that the source mutates in place lives in classes:

- `Hubs.HubConnection` holds the callback table, the counter, the proxy
  registry and the errors reported to `onError`.
- `Transport.ConnectionBase` holds the cursors the classifier sets, the
  errors and the forwarded messages.
- `HubSubscription.Subscription` holds the handler list.

Each class method states its whole new state in terms of the old one. The
loops of the source are kept as loops with their invariants:

- setting the `S` members on a proxy;
- reading the arguments of `A` one by one;
- running every pending callback;
- building the connection data;
- delivering the elements of `M`;
- running the handlers;
- building the zero padding of a date.

Where the code and the protocol's usual description differ, the model
follows the code:

- A hub invocation whose `A` holds a non-object element (a number or a
  string argument) is not dispatched. `getJSONObject(i)` throws, and the
  exception is reported through `onError`
  (`HubConnection.java:130-137`).
- The message id `C` is stored only when `M` is an array in the same
  envelope (`TransportHelper.java:80-88`). An envelope with `C` and no `M`
  leaves the cursor where it was.
- The getters are those of the Android platform's org.json. `getInt`
  also reads a numeric text, so `{"T":"1"}` asks for a reconnect just as
  `{"T":1}` does. A number that fits a `long` is cut to its low 32 bits.
  `getString` reads any value that is present as its text, so `G` and `C`
  are never rejected: `{"G":5}` stores the groups token "5".
- A `D`, `T` or `S` that `getInt` cannot read (null, a boolean, an object,
  an array or a text that is not a number) ends the classification with
  one reported error. The flags set before it are still returned.

## Model

| member | source | states |
|---|---|---|
| Hubs.GetUrl | signalr-client-sdk/src/main/java/microsoft/aspnet/signalr/client/hubs/HubConnection.java:256-266 | The URL keeps the given URL as its prefix. It ends in "/signalr" when the default URL is asked for, and in "/" otherwise. At most the slash and "signalr" are added. |
| Hubs.SlashedUrlKept | signalr-client-sdk/src/main/java/microsoft/aspnet/signalr/client/hubs/HubConnection.java:257-259 | A URL that already ends in '/' is not changed when no default is asked for. |
| Hubs.GetUrlIdempotent | signalr-client-sdk/src/main/java/microsoft/aspnet/signalr/client/hubs/HubConnection.java:256-266 | Normalising an already normalised URL changes nothing. |
| Hubs.DefaultUrlExtendsSlashed | signalr-client-sdk/src/main/java/microsoft/aspnet/signalr/client/hubs/HubConnection.java:261-263 | The default URL is the slash-terminated URL followed by "signalr". |
| Hubs.HubConnection.constructor | signalr-client-sdk/src/main/java/microsoft/aspnet/signalr/client/hubs/HubConnection.java:44-66 | The connection's URL is the normalised URL. It starts disconnected, with no callbacks, counter 0, no hubs and no errors, and the invariant holds. |
| Hubs.HubConnection.WithUrl | signalr-client-sdk/src/main/java/microsoft/aspnet/signalr/client/hubs/HubConnection.java:68-70 | This overload keeps the URL exactly as given. Otherwise it starts in the same state as the other constructors. |
| Hubs.HubConnection.RegisterCallback | signalr-client-sdk/src/main/java/microsoft/aspnet/signalr/client/hubs/HubConnection.java:231-237 | The id returned is the decimal form of the old counter. That id was not in use, so no pending callback is displaced. The table gains exactly that entry, the counter advances by one, and every pending id stays below the counter. |
| Hubs.HubConnection.RemoveCallback | signalr-client-sdk/src/main/java/microsoft/aspnet/signalr/client/hubs/HubConnection.java:244-247 | Exactly the entry under the lower-cased id is removed, if any. |
| Hubs.HubConnection.ClearInvocationCallbacks | signalr-client-sdk/src/main/java/microsoft/aspnet/signalr/client/hubs/HubConnection.java:170-185 | Every callback pending before the call runs exactly once, in some order of its ids, with a result that carries only the error. The table ends empty, and callback exceptions are not reported. |
| Hubs.HubConnection.OnClosed | signalr-client-sdk/src/main/java/microsoft/aspnet/signalr/client/hubs/HubConnection.java:164-168 | Every pending callback runs exactly once with the error "Connection closed": the run order has no repeats and one entry per pending id. The table ends empty. |
| Hubs.HubConnection.OnReconnecting | signalr-client-sdk/src/main/java/microsoft/aspnet/signalr/client/hubs/HubConnection.java:187-191 | Every pending callback runs exactly once with the error "Reconnecting": the run order has no repeats and one entry per pending id. The table ends empty. |
| Hubs.HubConnection.CreateHubProxy | signalr-client-sdk/src/main/java/microsoft/aspnet/signalr/client/hubs/HubConnection.java:201-223 | A connection that is not disconnected is refused first, and a null name second; a refusal changes nothing. Otherwise the result is the proxy registered under the lower-cased name. It is created with the name as given only when that key was absent. The registry gains at most that one key. |
| Hubs.HubConnection.ConnectionData | signalr-client-sdk/src/main/java/microsoft/aspnet/signalr/client/hubs/HubConnection.java:147-162 | The result is an array with one `{"name": hub}` entry per registered hub. A name is registered exactly when its entry appears, and no entry repeats. |
| Hubs.HubConnection.OnReceived | signalr-client-sdk/src/main/java/microsoft/aspnet/signalr/client/hubs/HubConnection.java:83-145 | Nothing changes unless the connection is connected. A result frame removes the callback under its lower-cased id and runs it once with the decoded result; a throwing callback is reported. Otherwise, for a registered lower-cased hub, `S` is merged into the proxy state. Then, when `M` is present, the lower-cased method with the objects of `A` is appended to the proxy's events, or an unreadable-arguments error is reported. A missing id, hub or method stops at that step. |
| Hubs.DecodeResult | signalr-client-sdk/src/main/java/microsoft/aspnet/signalr/client/hubs/HubResult.java:21-32 | Each result field is the frame's member of the same letter when it has the expected type: `I`, `R`, `E` as strings, `H` true only for a JSON true, `D` as any value, `S` as a string map. |
| Hubs.ErrorResult | signalr-client-sdk/src/main/java/microsoft/aspnet/signalr/client/hubs/HubConnection.java:172-173 | The result carries the error and nothing else. |
| Hubs.MergeState | signalr-client-sdk/src/main/java/microsoft/aspnet/signalr/client/hubs/HubConnection.java:118-124 | Without `S` the bag is unchanged. With `S`, the keys are the union, every key of `S` takes its new value and every other key keeps its old one. |
| Hubs.ApplyState | signalr-client-sdk/src/main/java/microsoft/aspnet/signalr/client/hubs/HubConnection.java:119-123 | Setting the members one at a time yields the union of keys, the new values for the updated keys and the old values for the rest. |
| Hubs.ArgumentObjects | signalr-client-sdk/src/main/java/microsoft/aspnet/signalr/client/hubs/HubConnection.java:130-134 | The arguments are read exactly when `A` is an array of objects only. They are then those objects, in order. |
| Hubs.ExtractArguments | signalr-client-sdk/src/main/java/microsoft/aspnet/signalr/client/hubs/HubConnection.java:130-134 | The element-by-element loop yields exactly `ArgumentObjects`: the objects of `A`, in order, when all of its elements are objects, and nothing otherwise. |
| Hubs.SameProxyForCaseVariants | signalr-client-sdk/src/main/java/microsoft/aspnet/signalr/client/hubs/HubConnection.java:210-222 | Two names that agree once lower-cased get the same proxy, which carries the name of the first request. |
| Hubs.InvocationRoundTrip | signalr-client-sdk/src/main/java/microsoft/aspnet/signalr/client/hubs/HubConnection.java:89-107 | A callback that is registered and then answered by a frame carrying its id runs exactly once with that result. The table returns to what it was, and no error is reported. |
| Transport.ProcessReceivedData | signalr-client-sdk/src/main/java/microsoft/aspnet/signalr/client/transport/TransportHelper.java:25-114 | The returned outcome is that of `Process`. The connection's cursors, errors and forwarded messages become the old ones updated by `Process`'s effects, in call order. |
| Transport.ClassifyInto | signalr-client-sdk/src/main/java/microsoft/aspnet/signalr/client/transport/TransportHelper.java:52-111 | For a parsed object with members, the flags and every change to the connection are those of `Classify`. |
| Transport.DeliverMessages | signalr-client-sdk/src/main/java/microsoft/aspnet/signalr/client/transport/TransportHelper.java:80-100 | When `M` is an array, `C` is stored and the elements are delivered in order up to the first non-object, which is reported and ends the call. |
| Transport.LeadingObjects | signalr-client-sdk/src/main/java/microsoft/aspnet/signalr/client/transport/TransportHelper.java:93-98 | The delivered messages are the longest prefix of `M` made of objects. The element after them, if any, is not an object. |
| Transport.NeutralInputs | signalr-client-sdk/src/main/java/microsoft/aspnet/signalr/client/transport/TransportHelper.java:29-37 | Null, blank and "{}" input returns the neutral result and touches nothing. |
| Transport.UnparseableInput | signalr-client-sdk/src/main/java/microsoft/aspnet/signalr/client/transport/TransportHelper.java:39-46 | Text that does not parse is reported once and is otherwise neutral. |
| Transport.ResultEnvelopeForwarded | signalr-client-sdk/src/main/java/microsoft/aspnet/signalr/client/transport/TransportHelper.java:53-55 | An envelope with `I` is forwarded once, whole, and sets no flag or cursor. |
| Transport.DisconnectIgnoresRest | signalr-client-sdk/src/main/java/microsoft/aspnet/signalr/client/transport/TransportHelper.java:58-64 | A `D` that reads as 1 sets only the disconnect flag. No other member has any effect. |
| Transport.MessageIdOnlyWithArray | signalr-client-sdk/src/main/java/microsoft/aspnet/signalr/client/transport/TransportHelper.java:80-88 | A message id is stored only as the text of `C`, and only in an envelope without `I` whose `M` is an array. |
| Transport.WellTypedEnvelope | signalr-client-sdk/src/main/java/microsoft/aspnet/signalr/client/transport/TransportHelper.java:52-107 | Take an envelope without `I` whose `D`, `T` and `S` are readable, whose `D` does not read as 1, and whose array `M` holds only objects. Reconnect is set exactly when `T` reads as 1, and initialize exactly when `S` does. The text of `G` becomes the groups token. The text of `C` is stored when `M` is an array. Every element of `M` is delivered in order, and no error is reported. |
| Transport.UnreadableReconnectStops | signalr-client-sdk/src/main/java/microsoft/aspnet/signalr/client/transport/TransportHelper.java:67-111 | A `T` that `getInt` cannot read ends the call with exactly one error. No flag is set, and `G`, `M`, `C` and `S` are not read. |
| Transport.ClassifyReadAlike | signalr-client-sdk/src/main/java/microsoft/aspnet/signalr/client/transport/TransportHelper.java:52-107 | Without `I`, two envelopes whose members the getters read alike are classified alike. |
| Transport.NumericTextActsAsNumber | signalr-client-sdk/src/main/java/microsoft/aspnet/signalr/client/transport/TransportHelper.java:58-107 | Without `I`, a `D`, `T` or `S` written as the text of an `int` has exactly the effect of the number. |
| Transport.DisconnectStep | signalr-client-sdk/src/main/java/microsoft/aspnet/signalr/client/transport/TransportHelper.java:58-64 | The call ends here exactly when `D` reads as 1 or cannot be read. Only the disconnect flag can be set, and an unreadable `D` is the one error. |
| Transport.ReconnectStep | signalr-client-sdk/src/main/java/microsoft/aspnet/signalr/client/transport/TransportHelper.java:67-72 | The call ends here exactly when `T` cannot be read, which adds one error. Reconnect is set when `T` reads as 1. Cursors and delivered messages are kept. |
| Transport.GroupsStep | signalr-client-sdk/src/main/java/microsoft/aspnet/signalr/client/transport/TransportHelper.java:74-78 | A `G` that is present always becomes the groups token, as its text. Nothing else changes. |
| Transport.MessagesStep | signalr-client-sdk/src/main/java/microsoft/aspnet/signalr/client/transport/TransportHelper.java:80-100 | Without an array `M` nothing changes. With one, the text of `C` (if present) becomes the message id and the leading objects of `M` are delivered. The call ends, with one error naming the index, exactly when some element is not an object. Flags and groups token are kept. |
| Transport.InitializeStep | signalr-client-sdk/src/main/java/microsoft/aspnet/signalr/client/transport/TransportHelper.java:102-107 | The call ends here exactly when `S` cannot be read, which adds one error. Initialize is set when `S` reads as 1. Cursors and delivered messages are kept. |
| Transport.Classify | signalr-client-sdk/src/main/java/microsoft/aspnet/signalr/client/transport/TransportHelper.java:52-111 | An envelope with `I` is only forwarded. One call reports at most one error. The disconnect flag is set exactly when there is no `I` and `D` reads as 1. |
| Transport.Process | signalr-client-sdk/src/main/java/microsoft/aspnet/signalr/client/transport/TransportHelper.java:25-114 | The call throws exactly for a non-blank text other than "{}" that parses to an object without members. Otherwise the flags it returns are those of its effects. It reports at most one error. |
| Json.AsInt | signalr-client-sdk/src/main/java/microsoft/aspnet/signalr/client/transport/TransportHelper.java:59 | `getInt` reads every `int` as itself and a signed decimal text as its value. The result is always an `int`. Null, booleans, objects and arrays cannot be read. |
| Json.AsString | signalr-client-sdk/src/main/java/microsoft/aspnet/signalr/client/transport/TransportHelper.java:75 | `getString` reads a string as itself, null as "null", a boolean as "true" or "false", and a number that fits a `long` as its decimal text. |
| Json.SignedDecimalRoundTrip | signalr-client-sdk/src/main/java/microsoft/aspnet/signalr/client/transport/TransportHelper.java:75 | The decimal text of any integer reads back as that integer. |
| Json.NumberTextReadsBack | signalr-client-sdk/src/main/java/microsoft/aspnet/signalr/client/transport/TransportHelper.java:59 | `getInt` reads an `int` and its `getString` text alike. |
| Transport.UrlEncode | signalr-client-sdk/src/main/java/microsoft/aspnet/signalr/client/transport/TransportHelper.java:199-211 | Null encodes to the empty string. Anything else goes through the encoder. |
| Transport.ReceiveQueryString | signalr-client-sdk/src/main/java/microsoft/aspnet/signalr/client/transport/TransportHelper.java:123-150 | The query starts with the unencoded transport name and then the connection token. |
| Transport.SendQueryString | signalr-client-sdk/src/main/java/microsoft/aspnet/signalr/client/transport/TransportHelper.java:180-197 | The query starts with the encoded transport name and then the connection token. |
| Transport.NegotiateQueryString | signalr-client-sdk/src/main/java/microsoft/aspnet/signalr/client/transport/TransportHelper.java:158-171 | The query starts with the encoded protocol version. |
| Transport.ReceiveInsertsCursors | signalr-client-sdk/src/main/java/microsoft/aspnet/signalr/client/transport/TransportHelper.java:123-150 | The receive query is the cursor-free receive query with `messageId` and `groupsToken` inserted after `connectionId`. Each appears exactly when it is not null. |
| Transport.SendIsReceiveWithoutCursors | signalr-client-sdk/src/main/java/microsoft/aspnet/signalr/client/transport/TransportHelper.java:180-197 | The send query is the receive query of the same session with the transport name encoded and both cursors dropped. |
| Transport.SendIgnoresCursors | signalr-client-sdk/src/main/java/microsoft/aspnet/signalr/client/transport/TransportHelper.java:180-197 | The send query does not depend on the message id or the groups token. |
| Transport.NegotiateSharesSendTail | signalr-client-sdk/src/main/java/microsoft/aspnet/signalr/client/transport/TransportHelper.java:158-197 | After the version, the negotiate query carries exactly what the send query carries after `connectionId`. |
| Transport.EmptyObjectEscapes | signalr-client-sdk/src/main/java/microsoft/aspnet/signalr/client/transport/TransportHelper.java:33-50 | "{ }" passes the literal "{}" test and parses to an object without members. Its `names()` is null, so the call throws. |
| Transport.ProcessGuarded | signalr-client-sdk/src/main/java/microsoft/aspnet/signalr/client/transport/TransportHelper.java:48-50 | With the intended guard for an object without members, the classifier always returns. |
| Transport.GuardedEmptyObjectIsNeutral | signalr-client-sdk/src/main/java/microsoft/aspnet/signalr/client/transport/TransportHelper.java:33-50 | With the guard, every object without members is neutral and touches nothing. Every other input is classified as before. |
| HubSubscription.Subscription.constructor | signalr-client-sdk/src/main/java/microsoft/aspnet/signalr/client/hubs/Subscription.java:19 | A subscription starts with no handlers. |
| HubSubscription.Subscription.AddReceivedHandler | signalr-client-sdk/src/main/java/microsoft/aspnet/signalr/client/hubs/Subscription.java:40-42 | The handler is added after every earlier one. |
| HubSubscription.Subscription.OnReceived | signalr-client-sdk/src/main/java/microsoft/aspnet/signalr/client/hubs/Subscription.java:28-32 | The handlers run in the order they were added, each with the same data. If none throws, all run. Otherwise the run stops at the first that throws, whose exception reaches the caller. |
| HubSubscription.AddedHandlerRunsLast | signalr-client-sdk/src/main/java/microsoft/aspnet/signalr/client/hubs/Subscription.java:28-42 | Adding a non-throwing handler appends exactly one call of it after the calls made before. |
| Dates.Adapt | signalr-client-sdk/src/main/java/microsoft/aspnet/signalr/client/DateSerializer.java:29-43 | A bare 19-character date-time gets ".+00:00". A string of another length that holds no "+00:00", ".Z" or "Z" passes unchanged. |
| Dates.Normalise | signalr-client-sdk/src/main/java/microsoft/aspnet/signalr/client/DateSerializer.java:25-67 | The normalisation fails exactly when the rewritten string has fewer than 6 characters, with that string in the message. Otherwise it yields 28 characters. |
| Dates.Fixed | signalr-client-sdk/src/main/java/microsoft/aspnet/signalr/client/DateSerializer.java:50-62 | The intermediate form has 29 characters and ends with the input's last six. A longer input keeps its first 23 characters. A shorter one keeps everything before the offset and is padded with zeros up to the offset. |
| Dates.Canonical | signalr-client-sdk/src/main/java/microsoft/aspnet/signalr/client/DateSerializer.java:50-67 | The cut succeeds exactly when the string has at least 6 characters, and then has 28 characters: the 29-character form without index 26. Otherwise the error carries "Invalid length for: " and the string. |
| Dates.Deserialize | signalr-client-sdk/src/main/java/microsoft/aspnet/signalr/client/DateSerializer.java:25-67 | The step-by-step rewriting yields `Normalise` of the input. It fails exactly when the rewritten string has fewer than 6 characters, and otherwise yields 28 characters. |
| Dates.CanonicalOfFixed | signalr-client-sdk/src/main/java/microsoft/aspnet/signalr/client/DateSerializer.java:64 | Dropping index 26 turns a "+00:00" offset into "+0000". |
| Dates.OffsetRemovedFirst | signalr-client-sdk/src/main/java/microsoft/aspnet/signalr/client/DateSerializer.java:29-31 | A trailing "+00:00" on a date without '+' is removed before anything else, so it makes no difference. |
| Dates.AdaptBare | signalr-client-sdk/src/main/java/microsoft/aspnet/signalr/client/DateSerializer.java:33-34 | A bare 19-character date-time gets ".+00:00". |
| Dates.AdaptDotZulu | signalr-client-sdk/src/main/java/microsoft/aspnet/signalr/client/DateSerializer.java:35-38 | A date-time followed by ".Z" gets ".+00:00" in its place. |
| Dates.AdaptZulu | signalr-client-sdk/src/main/java/microsoft/aspnet/signalr/client/DateSerializer.java:39-43 | A date-time followed by "Z" gets ".+00:00" in its place. |
| Dates.PaddedWholeSeconds | signalr-client-sdk/src/main/java/microsoft/aspnet/signalr/client/DateSerializer.java:53-64 | A date-time with ".+00:00" is padded to ".000" and ends in "+0000". |
| Dates.WholeSecondsNormalised | signalr-client-sdk/src/main/java/microsoft/aspnet/signalr/client/DateSerializer.java:29-64 | A whole-seconds date, bare or followed by "Z", ".Z" or "+00:00", normalises to the date-time with ".000+0000". |
| Dates.WorkedExample | signalr-client-sdk/src/main/java/microsoft/aspnet/signalr/client/DateSerializer.java:33-64 | "2014-01-01T12:00:00" normalises to "2014-01-01T12:00:00.000+0000". |
| Dates.MillisecondsNormalised | signalr-client-sdk/src/main/java/microsoft/aspnet/signalr/client/DateSerializer.java:39-64 | A fraction of three or more digits before "Z" is cut to three digits and followed by "+0000". |
| Dates.ShortFractionMisplacesPadding | signalr-client-sdk/src/main/java/microsoft/aspnet/signalr/client/DateSerializer.java:39-64 | As written, a one- or two-digit fraction before "Z" comes out as the date-time, the fraction, a second '.', the zeros and "+0000". This differs from the intended result. |
| Dates.HalfSecondExample | signalr-client-sdk/src/main/java/microsoft/aspnet/signalr/client/DateSerializer.java:39-64 | As written, a date-time followed by ".5Z" becomes the date-time followed by ".5.0+0000". |
| Dates.FractionWithOffsetMangled | signalr-client-sdk/src/main/java/microsoft/aspnet/signalr/client/DateSerializer.java:29-64 | As written, a three-digit fraction followed by "+00:00" comes out with six zeros inside the seconds field and only the last two fraction digits. This differs from the intended result. |
| Dates.Millis | signalr-client-sdk/src/main/java/microsoft/aspnet/signalr/client/DateSerializer.java:50-62 | The milliseconds are always three digits and start with the given fraction, cut or padded. |
| Dates.IntendedNormalise | signalr-client-sdk/src/main/java/microsoft/aspnet/signalr/client/DateSerializer.java:70 | The corrected rewriting always yields 28 characters with '.' after the seconds and a trailing "+0000". |
| Dates.IntendedNormalised | signalr-client-sdk/src/main/java/microsoft/aspnet/signalr/client/DateSerializer.java:70 | Under the corrected rewriting, every well-formed date normalises to its date-time, its fraction as three digits, and "+0000". |
| Dates.IntendedIsFormatterInput | signalr-client-sdk/src/main/java/microsoft/aspnet/signalr/client/DateSerializer.java:70 | What the corrected rewriting yields has the exact shape the formatter pattern reads. |
| Dates.HalfSecondIntended | signalr-client-sdk/src/main/java/microsoft/aspnet/signalr/client/DateSerializer.java:70 | Under the corrected rewriting, ".5Z" becomes ".500+0000". |
| Dates.WholeSecondsAgree | signalr-client-sdk/src/main/java/microsoft/aspnet/signalr/client/DateSerializer.java:29-64 | For whole-seconds dates the written and the corrected rewriting agree. |
| Dates.MillisecondsAgree | signalr-client-sdk/src/main/java/microsoft/aspnet/signalr/client/DateSerializer.java:39-64 | For a fraction of three or more digits before "Z", the written and the corrected rewriting agree. |
| Text.Trim | signalr-client-sdk/src/main/java/microsoft/aspnet/signalr/client/transport/TransportHelper.java:33 | The result is empty exactly when every character is at most U+0020. Otherwise it starts and ends with a non-blank character. |
| Text.Lower | signalr-client-sdk/src/main/java/microsoft/aspnet/signalr/client/hubs/HubConnection.java:210 | Lower-casing keeps the length, leaves no upper-case letter and keeps every other character. |
| Text.LowerIdempotent | signalr-client-sdk/src/main/java/microsoft/aspnet/signalr/client/hubs/HubResult.java:34-36 | Lower-casing an id that `getId` already lower-cased changes nothing. |
| Text.DecimalString | signalr-client-sdk/src/main/java/microsoft/aspnet/signalr/client/hubs/HubConnection.java:232 | The callback id is a non-empty run of digits whose first digit is '0' only for zero. |
| Text.DecimalRoundTrip | signalr-client-sdk/src/main/java/microsoft/aspnet/signalr/client/hubs/HubConnection.java:232 | Reading back the decimal id gives the counter value. |
| Text.DecimalStringInjective | signalr-client-sdk/src/main/java/microsoft/aspnet/signalr/client/hubs/HubConnection.java:231-237 | Distinct counter values give distinct ids. |
| Text.ReplaceAll | signalr-client-sdk/src/main/java/microsoft/aspnet/signalr/client/DateSerializer.java:29-31 | Replacing a pattern that does not occur changes nothing. |
| Text.ReplaceAppended | signalr-client-sdk/src/main/java/microsoft/aspnet/signalr/client/DateSerializer.java:38-42 | When the pattern's first character occurs only in the appended copy, exactly that copy is replaced. |
| Text.Substring | signalr-client-sdk/src/main/java/microsoft/aspnet/signalr/client/DateSerializer.java:61 | A substring exists exactly when the bounds are in range, and then it is the characters between them. |

## Left out

- JSON text is not modelled. Parsing is the parameter `parse` of the classifier, and the printing that `LoganSquare.parse(message.toString(), …)` and `args.getJSONObject(i).toString()` do is not modelled either. Arguments reach the proxy as objects, not as their text.
- Json.AsString: the text org.json prints for an object, an array or a number beyond the `long` range is the parameter `printed`. Only the texts of strings, null, booleans and `long` numbers are written out.
- Hubs.DecodeResult: a member of the wrong type is read as absent. This holds for the `HubResult` fields and for the `HubInvocation` fields `H`, `M` and `S` that `Hubs.HubConnection.OnReceived` reads, through `StringField` and `StringMapField`. LoganSquare may instead coerce such a value (a number read as a `String`, or a non-string member of `S`) or throw. A throw would make the outer catch drop the whole frame.
- Json.AsInt: of the texts `Double.parseDouble` accepts, only an optional sign followed by decimal digits is read as a number. Other forms it accepts are treated as unreadable: fractions, exponents, surrounding blanks, "NaN", "Infinity" and type suffixes.
- JSON numbers written with a fraction or an exponent are not values of this model. `getInt`'s truncation of such a number is therefore not modelled.
- Transport.MessagesStep: `M` is used as a JSON array value. The re-parse of its text through `JSONTokener` (`TransportHelper.java:82`) is not modelled, so an `M` that is a string holding array text is not delivered.
- `URLEncoder.encode` is the parameter `enc`. Its `UnsupportedEncodingException` path, which returns null, cannot happen for UTF-8 and is left out.
- Hubs.HubConnection.RegisterCallback: the counter is unbounded. In the source, `Integer` wraps to negative values after 2^31 registrations. Those give ids such as "-2147483648", which had not been issued before but are not decimal digits. Ids issued earlier come back only after 2^32 registrations.
- Text.Lower: only the ASCII letters are lower-cased. Locale-specific case mappings of `toLowerCase(Locale.getDefault())` are left out.
- Null arguments that make the source throw a `NullPointerException` are not modelled: a null URL in `getUrl`, a null id in `removeCallback`, and a null `strVal` in `deserialize`. The parameters are non-null strings.
- `HubProxy.java` is not part of this model. A proxy is a value: its hub name, its state bag (`setState`) and the log of `invokeEvent` calls. Updating a proxy through the registry therefore does not reach copies that callers hold, and exceptions thrown by the proxy's own handlers are not modelled.
- The base `Connection` class is not part of this model. Its state machine is reduced to `SetState`, and the calls to `super.onReceived`, `super.onClosed` and `super.onReconnecting` are left out. The protocol version it defines is the parameter `version`, and the transport name is the parameter `transportName`.
- The order in which the callback table and the hub registry are visited is the unspecified `HashMap` order. The model fixes no order: the order is a ghost out-parameter for the callbacks, and the registry order is free for the connection data.
- `SimpleDateFormat.parse` (`DateSerializer.java:70-74`) and `serialize` (`DateSerializer.java:80-87`) are formatting library calls. The model stops at the string handed to the formatter, and `IsFormatterInput` describes the shape its pattern reads.
- Logging, the `synchronized` callback map and concurrency are left out. Each operation is modelled as atomic.
- The outer catch in `onReceived` (`HubConnection.java:141-143`) only logs. A frame that throws before any change is modelled as changing nothing, and one that throws after the state merge keeps that merge.
- The `onError` callbacks of `TransportHelper` and `HubConnection` are recorded as an error log. Exception objects and messages are reduced to a tag that says which read failed.

## Findings

| source | as written | input that shows it | evidently intended | confidence | as-written member | corrected member |
|---|---|---|---|---|---|---|
| signalr-client-sdk/src/main/java/microsoft/aspnet/signalr/client/transport/TransportHelper.java:33-50 | Only the literal text "{}" is treated as empty. Any other object without members reaches `json.names().length()`, and org.json's `names()` is null there. | `"{ }"` | An object without members is neutral, like "{}" | medium, not executed | Transport.EmptyObjectEscapes | Transport.GuardedEmptyObjectIsNeutral |
| signalr-client-sdk/src/main/java/microsoft/aspnet/signalr/client/DateSerializer.java:39-64 | "Z" becomes ".+00:00" even after a fraction, and the padding goes after that second '.'. | `"2014-01-01T12:00:00.5Z"` gives `"2014-01-01T12:00:00.5.0+0000"` | `"2014-01-01T12:00:00.500+0000"` | high, not executed | Dates.ShortFractionMisplacesPadding | Dates.IntendedNormalised |
| signalr-client-sdk/src/main/java/microsoft/aspnet/signalr/client/DateSerializer.java:29-64 | "+00:00" is removed first, so a date with a fraction has no offset left for the last six characters. The padding lands in the seconds. | `"2014-01-01T12:00:00.123+00:00"` gives `"2014-01-01T12:00:00000000.23"` | `"2014-01-01T12:00:00.123+0000"` | high, not executed | Dates.FractionWithOffsetMangled | Dates.IntendedNormalised |

The members `Transport.ProcessReceivedData` and `Dates.Deserialize` model
the code as written. The corrected definitions `Transport.ProcessGuarded`
and `Dates.IntendedNormalise` stand beside them, with their properties
proved. `Dates.WholeSecondsAgree` and `Dates.MillisecondsAgree` show where
the written and the corrected rewriting coincide.
