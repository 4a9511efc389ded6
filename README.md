# WAMP v2 router and peer core, modelled in Dafny

This project models the WAMP v2 (Web Application Messaging Protocol) core of
the `Ratchet\Wamp2` PHP package. It covers both ends of a connection.

- The **router** side:
  - `WampServer` decodes frames.
  - The server `SessionManager` runs the session statechart per connection and binds each connection to a realm.
  - A `Realm` hands routing messages to its `Broker` (publish/subscribe) and its `Dealer` (remote procedure calls).
- The **peer** side:
  - `WampClient` decodes what a router sends.
  - The client `SessionManager` runs the peer half of the statechart and forwards messages to the configured roles.
  - The roles are `Callee`, `Caller`, `Publisher` and `Subscriber`.

Each class whose fields the PHP code updates is a Dafny `class` with the same
fields and `modifies` clauses. PHP arrays used as tables are modelled as
follows:

- `map`s where only membership matters;
- ordered entry sequences (`Tables`) where `foreach` order matters.

The decoders, the switch tables and the argument-tail construction are pure
functions with lemmas.

A handler's effect on the outside world is a returned `seq<Effect>`:

- a message sent on a connection;
- a connection closed;
- an application callable run;
- `Crash`: a PHP error that ends the handler. This covers a `TypeError`, a call on null, an undefined method, or `new` of a class that does not exist.

Identifiers drawn from `uniqid(mt_rand())` are modelled as counters whose
values are never reused, which is the property the code relies on:

- registration, subscription and publication ids come from a counter kept by the dealer or the broker;
- session ids, drawn when the server decorates a new connection, come from a counter kept by `WampServer`, and no two connections share one.

Several defects of the code are modelled **as written**, and each one is
stated by a contract or a lemma:

- A publication id is drawn per delivered EVENT, not per publication (`Broker.DeliveriesCarryDistinctIds`). PUBLISHED carries the last id drawn, or null when nothing was delivered.
- The broker's "no such subscription" ERROR is tagged `UNSUBSCRIBED` (35), not `UNSUBSCRIBE` (34) (`Broker.Broker.OnUnsubscribe`).
- Pending calls in the dealer are keyed by the caller-chosen request id alone, so two callers using the same id collide (`Dealer.CallsCollide`).
- Both decoders call `onErrorjson`, which the session managers do not define. Every ERROR frame therefore ends in `Crash` (`WampServer.WampServer.OnMessage`, `WampClient.WampClient.OnMessage`).
- The peer's decoder has no case for EVENT, so events never reach the subscriber (`WampClient.DecodeClientRefuses`).
- The peer's ABORT handler keeps an established session established (`ClientSession.SessionManager.OnAbort`).
- The client session manager hands ERROR to roles that have no `onErrorMessage` method, which is a fatal error. The keyword arguments go to the publisher in place of the positional ones (`ClientSession.SessionManager.OnErrorMessage`).
- The default case of the client `onErrorMessage` reads `$this->break` and falls through. It does nothing.
- The decoders `throw new Exception(...)` inside a namespace that defines no `Exception` class. The `catch (Exception ...)` names the same missing class. So a malformed frame is a fatal error and the `close(1007)` in the catch block is never reached: the model gives `Crash`.

Three other defects are logged under "## Findings". Each is modelled both as
written and as intended, and the rest of the model uses the intended
behaviour.

## Model

| member | source | states |
|---|---|---|
| Values.FirstMatch | src/Ratchet/Wamp2/Server/WampServer.php:85-167 | the case a `switch` takes is the first label the subject loosely equals, and no case is taken exactly when no label matches |
| Values.WeakIntOfDecimal | src/Ratchet/Wamp2/Client/Subscriber.php:75 | an `int` parameter of a PHP 7 built-in receives n from the integer n and from any string that spells n after optional whitespace and before anything but another digit |
| Values.WeakIntRefuses | src/Ratchet/Wamp2/Client/Subscriber.php:75 | a string that starts with neither whitespace, a sign nor a digit is refused by an `int` parameter |
| Values.SwitchCaseIsFirstMatch | src/Ratchet/Wamp2/Client/SessionManager.php:182-224 | for every subject, the closed form (`true` takes the first label, an integer its own label) is the case PHP's first-match `switch` takes |
| Tables.Get | src/Ratchet/Wamp2/Client/Callee.php:75 | a key is absent exactly when no entry carries it |
| Tables.GetFinds | src/Ratchet/Wamp2/Client/Callee.php:87 | in a table with unique keys every entry is found under its own key |
| Tables.GetIn | src/Ratchet/Wamp2/Client/Subscriber.php:77 | what a lookup finds is an entry of the table |
| Tables.Put | src/Ratchet/Wamp2/Client/Callee.php:49 | after an assignment the key maps to the new value, every other key keeps its value, and keys stay unique |
| Tables.PutEntries | src/Ratchet/Wamp2/Client/Subscriber.php:48 | an assignment adds no entry other than the one assigned |
| Tables.PutAppends | src/Ratchet/Wamp2/Client/Callee.php:23 | assigning a new key appends it at the end, so insertion order is kept |
| Tables.Remove | src/Ratchet/Wamp2/Client/Callee.php:71 | after `unset` the key is absent, every other key keeps its value, and unsetting a missing key changes nothing |
| Tables.RemoveEntries | src/Ratchet/Wamp2/Client/Subscriber.php:69 | `unset` adds no entry |
| Tables.RemoveAfterPut | src/Ratchet/Wamp2/Client/Callee.php:48-72 | adding a new key and unsetting it again gives back the same table, entries and order alike |
| Tables.Keys | src/Ratchet/Wamp2/Client/Callee.php:32 | `array_keys` lists every key once, in table order |
| Messages.Trailing | src/Ratchet/Wamp2/Client/Caller.php:25-30 | the argument tail carries the positional arguments when not null, and the keyword arguments only after them and when not null; nothing null is put on the wire |
| Messages.TrailingOfParts | src/Ratchet/Wamp2/Server/Broker.php:64-69 | every tail a sender can build is rebuilt from the pair of values it carries |
| Messages.TailAt | src/Ratchet/Wamp2/Server/WampServer.php:121-122 | a missing argument position defaults to an empty array and a missing keyword position to null; any non-array positional value is refused by the `array` parameter |
| Messages.TailAtWire | src/Ratchet/Wamp2/Server/WampServer.php:139-140 | a tail put on the wire is read back as sent, with an absent tail read as an empty list |
| Messages.Inbound | src/Ratchet/Wamp2/Client/WampClient.php:89-90 | a message is received with the same type code it was sent with |
| Messages.Encode | src/Ratchet/Wamp2/Server/Broker.php:24-28 | a message's wire form is a list headed by its type code |
| Session.AbortEffects | src/Ratchet/Wamp2/Server/SessionManager.php:36-42 | aborting always ends with the close; ABORT is sent first exactly when the session was not already closed |
| Session.AbortTwiceSendsAtMostOne | src/Ratchet/Wamp2/Client/SessionManager.php:59-65 | aborting the same connection twice sends at most one ABORT and still ends with the close |
| Session.AbortsSentAppend | src/Ratchet/Wamp2/Server/SessionManager.php:36-42 | ABORT counts add up over effect runs |
| Broker.Without | src/Ratchet/Wamp2/Server/Broker.php:43 | `unset` keeps exactly the subscriptions under other ids |
| Broker.WithoutRemovesOne | src/Ratchet/Wamp2/Server/Broker.php:32-43 | with ids drawn fresh, unsubscribing a held id removes exactly one subscription |
| Broker.WithoutKeepsAll | src/Ratchet/Wamp2/Server/Broker.php:32-41 | unsubscribing an id that is not held leaves the table as it is |
| Broker.WithoutOrdered | src/Ratchet/Wamp2/Server/Broker.php:43 | removing subscriptions keeps the table in id order, all ids below the next one |
| Broker.AppendOrdered | src/Ratchet/Wamp2/Server/Broker.php:18-23 | appending a subscription under a new, larger id keeps the table in id order |
| Broker.Recipients | src/Ratchet/Wamp2/Server/Broker.php:51-55 | a publication reaches exactly the subscriptions for exactly that topic that do not belong to the publisher |
| Broker.RecipientsOrdered | src/Ratchet/Wamp2/Server/Broker.php:51 | the recipients are visited in table order, so in increasing id order |
| Broker.RecipientsStep | src/Ratchet/Wamp2/Server/Broker.php:51-55 | one more loop step adds the next subscription to the recipients exactly when it receives |
| Broker.Events | src/Ratchet/Wamp2/Server/Broker.php:57-70 | one EVENT per recipient, in order |
| Broker.EventsSnoc | src/Ratchet/Wamp2/Server/Broker.php:57-70 | a further recipient adds one EVENT at the end, under the next publication id |
| Broker.DeliveredExactlyOnce | src/Ratchet/Wamp2/Server/Broker.php:50-71 | every subscription the publication reaches gets exactly one EVENT, and an id not in the table gets none |
| Broker.PublisherGetsNoEvent | src/Ratchet/Wamp2/Server/Broker.php:52-53 | the publishing connection never receives an EVENT of its own publication; the only thing it can get is PUBLISHED |
| Broker.DeliveriesCarryDistinctIds | src/Ratchet/Wamp2/Server/Broker.php:57 | as written, no two deliveries of one publication carry the same publication id |
| Broker.FanOut | src/Ratchet/Wamp2/Server/Broker.php:51-71 | the delivery loop sends exactly the EVENTs of the recipients, draws one id per delivery and remembers the last (null if none) |
| Broker.Broker.constructor | src/Ratchet/Wamp2/Server/Broker.php:8 | a new broker holds no subscription |
| Broker.Broker.OnSubscribe | src/Ratchet/Wamp2/Server/Broker.php:16-29 | the subscription is appended under an id not yet in use, with no duplicate check, and SUBSCRIBED carries that id |
| Broker.Broker.OnUnsubscribe | src/Ratchet/Wamp2/Server/Broker.php:31-48 | a held id loses exactly its one subscription and gets UNSUBSCRIBED, whoever owns it; otherwise nothing changes and the ERROR is tagged UNSUBSCRIBED as written |
| Broker.Broker.OnPublish | src/Ratchet/Wamp2/Server/Broker.php:50-79 | the table is unchanged, the EVENTs are those of the fan-out, and PUBLISHED follows exactly when the options set `acknowledge` |
| Dealer.OneRegistrationPerProcedure | src/Ratchet/Wamp2/Server/Dealer.php:20-37 | in consistent tables a procedure is held by at most one registration |
| Dealer.RegisterKeepsConsistent | src/Ratchet/Wamp2/Server/Dealer.php:31-37 | registering a free procedure under an unused id keeps the procedure and registration tables inverse to each other |
| Dealer.UnregisterKeepsConsistent | src/Ratchet/Wamp2/Server/Dealer.php:57-58 | unregistering a held id keeps the tables inverse to each other and frees the procedure |
| Dealer.Dealer.constructor | src/Ratchet/Wamp2/Server/Dealer.php:8-10 | a new dealer holds no registration and no call |
| Dealer.Dealer.OnRegister | src/Ratchet/Wamp2/Server/Dealer.php:18-43 | a held procedure is refused with `procedure_already_exists` and nothing changes; otherwise it is filed under a fresh id in both tables and REGISTERED carries that id |
| Dealer.Dealer.OnUnregister | src/Ratchet/Wamp2/Server/Dealer.php:45-63 | a held id is dropped from both tables, whoever owns it; an unknown id is refused with `no_such_registration` |
| Dealer.Dealer.OnCall | src/Ratchet/Wamp2/Server/Dealer.php:65-102 | a registered procedure gets an INVOCATION sent to its owner under the caller's request id, and the caller is remembered; otherwise ERROR `no_such_procedure` carrying the arguments |
| Dealer.Dealer.OnYield | src/Ratchet/Wamp2/Server/Dealer.php:104-136 | a pending call's RESULT goes to the caller waiting under the request id and the call is forgotten; otherwise ERROR `no_such_call_request` to the yielder |
| Dealer.ReRegister | src/Ratchet/Wamp2/Server/Dealer.php:18-63 | after UNREGISTER the same procedure can be registered again, by another connection and under a new id |
| Dealer.SecondYieldFails | src/Ratchet/Wamp2/Server/Dealer.php:65-136 | a call is answered once: the first YIELD delivers RESULT to the caller and a second YIELD is an error |
| Dealer.CallsCollide | src/Ratchet/Wamp2/Server/Dealer.php:65-136 | as written, two callers using the same request id collide: the result goes to the second caller and the first never hears back |
| Realm.ErrorTargetOfCodes | src/Ratchet/Wamp2/Server/Realm.php:84-89 | for every integer request type, in both directions: exactly 16, 32 and 34 go to the broker, exactly 64, 66 and 68 to the dealer, and every other integer to neither; `true` goes to the broker and null to neither |
| Realm.Realm.constructor | src/Ratchet/Wamp2/Server/Realm.php:17-29 | an engine instance is shared, null means no engine, and any other value creates a new empty engine |
| Realm.Realm.Session | src/Ratchet/Wamp2/Server/Realm.php:35-42 | the WELCOME details hold exactly one `roles` entry, with one `{"features": {}}` entry per engine the realm has, and an empty array when it has none |
| Realm.Realm.OnPublish | src/Ratchet/Wamp2/Server/Realm.php:48-50 | the broker publishes; without a broker the call on null is a fatal error |
| Realm.Realm.OnSubscribe | src/Ratchet/Wamp2/Server/Realm.php:51-53 | the broker subscribes; without a broker the call on null is a fatal error |
| Realm.Realm.OnUnsubscribe | src/Ratchet/Wamp2/Server/Realm.php:54-56 | the broker unsubscribes; without a broker the call on null is a fatal error |
| Realm.Realm.OnRegister | src/Ratchet/Wamp2/Server/Realm.php:60-63 | the dealer registers; without a dealer the call on null is a fatal error |
| Realm.Realm.OnUnregister | src/Ratchet/Wamp2/Server/Realm.php:64-67 | the dealer unregisters; without a dealer the call on null is a fatal error |
| Realm.Realm.OnCall | src/Ratchet/Wamp2/Server/Realm.php:68-71 | the dealer routes the call; without a dealer the call on null is a fatal error |
| Realm.Realm.OnYield | src/Ratchet/Wamp2/Server/Realm.php:76-79 | the dealer routes the result; without a dealer the call on null is a fatal error |
| Realm.Realm.OnErrorMessage | src/Ratchet/Wamp2/Server/Realm.php:83-90 | nothing happens exactly when the request type's engine exists; an unclaimed type or a missing engine is a fatal error |
| ServerSession.Filed | src/Ratchet/Wamp2/Server/SessionManager.php:27-33 | the realm table is each realm filed under its name in turn, a later realm replacing an earlier one |
| ServerSession.FiledFrom | src/Ratchet/Wamp2/Server/SessionManager.php:32 | the table's names are exactly the realms' names, and every realm filed is one of them under its own name |
| ServerSession.FiledLast | src/Ratchet/Wamp2/Server/SessionManager.php:32 | a realm no later realm shares its name with is the one filed under that name |
| ServerSession.RealmFor | src/Ratchet/Wamp2/Server/SessionManager.php:28-29 | a name becomes a new realm with a new broker and dealer; a realm instance is taken as it is |
| ServerSession.MakeRealms | src/Ratchet/Wamp2/Server/SessionManager.php:27-31 | every entry is a name or a realm exactly when the loop completes, and the k-th realm comes from the k-th entry |
| ServerSession.BuildRealms | src/Ratchet/Wamp2/Server/SessionManager.php:23-34 | the constructor fails exactly when an entry is neither a name nor a realm; otherwise every name is filed, under itself, and a name keeps the realm of its last entry |
| ServerSession.SessionManager.constructor | src/Ratchet/Wamp2/Server/SessionManager.php:23-34 | the session manager starts with the realm table and no connection state |
| ServerSession.SessionManager.Abort | src/Ratchet/Wamp2/Server/SessionManager.php:36-42 | ABORT unless already closed, then the state is closed and the connection closed |
| ServerSession.SessionManager.CheckProtocolViolation | src/Ratchet/Wamp2/Server/SessionManager.php:44-51 | a violation is reported exactly when the state is not the expected one, and then the connection is aborted with the expected and actual states in the message |
| ServerSession.SessionManager.OnOpen | src/Ratchet/Wamp2/Server/SessionManager.php:53-55 | a new connection starts establishing |
| ServerSession.SessionManager.OnHello | src/Ratchet/Wamp2/Server/SessionManager.php:57-68 | HELLO outside establishing is a protocol violation; an unknown realm name aborts with `no_such_realm`; a known one binds the realm, establishes the session and sends WELCOME with the realm's roles |
| ServerSession.SessionManager.OnAbort | src/Ratchet/Wamp2/Server/SessionManager.php:70-73 | ABORT closes the session from any state and closes the connection |
| ServerSession.SessionManager.OnGoodbye | src/Ratchet/Wamp2/Server/SessionManager.php:75-85 | on an established session GOODBYE is answered with `goodbye_and_out` and the connection closed; otherwise it is a protocol violation; either way the state ends closed |
| ServerSession.SessionManager.OnPublish | src/Ratchet/Wamp2/Server/SessionManager.php:88-91 | outside an established session the message is aborted and no engine changes; otherwise the bound realm's broker publishes |
| ServerSession.SessionManager.OnSubscribe | src/Ratchet/Wamp2/Server/SessionManager.php:92-95 | outside an established session the message is aborted and no engine changes; otherwise the bound realm's broker subscribes |
| ServerSession.SessionManager.OnUnsubscribe | src/Ratchet/Wamp2/Server/SessionManager.php:96-99 | outside an established session the message is aborted and no engine changes; otherwise the bound realm's broker unsubscribes |
| ServerSession.SessionManager.OnRegister | src/Ratchet/Wamp2/Server/SessionManager.php:102-106 | outside an established session the message is aborted and no engine changes; otherwise the bound realm's dealer registers |
| ServerSession.SessionManager.OnUnregister | src/Ratchet/Wamp2/Server/SessionManager.php:107-111 | outside an established session the message is aborted and no engine changes; otherwise the bound realm's dealer unregisters |
| ServerSession.SessionManager.OnCall | src/Ratchet/Wamp2/Server/SessionManager.php:112-116 | outside an established session the message is aborted and no engine changes; otherwise the bound realm's dealer routes the call |
| ServerSession.SessionManager.OnYield | src/Ratchet/Wamp2/Server/SessionManager.php:117-121 | outside an established session the message is aborted and no engine changes; otherwise the bound realm's dealer routes the result |
| ServerSession.SessionManager.OnErrorMessage | src/Ratchet/Wamp2/Server/SessionManager.php:124-126 | in any session state, ERROR goes to the bound realm; it does nothing exactly when the realm has the engine for the request type, and otherwise (or with no realm bound) it is a fatal error |
| ServerSession.SessionManager.OnClose | src/Ratchet/Wamp2/Server/SessionManager.php:128-134 | the connection's realm is unbound and its state unset |
| WampServer.DecodeServer | src/Ratchet/Wamp2/Server/WampServer.php:76-167 | only a sequential list decodes, into a message a peer sends to a router, whose type code the first element loosely equals; any argument tail it carries is an array |
| WampServer.DecodeServerByTag | src/Ratchet/Wamp2/Server/WampServer.php:85-167 | an integer first element selects its own case, and a code with no case decodes to nothing |
| WampServer.DecodeServerEncode | src/Ratchet/Wamp2/Server/WampServer.php:85-164 | every message a peer sends to a router decodes back to itself, with an absent argument tail read as an empty list |
| WampServer.DecodeServerEncodeTail | src/Ratchet/Wamp2/Server/WampServer.php:117-151 | the same round trip for the messages with an argument tail |
| WampServer.DecodeServerRefuses | src/Ratchet/Wamp2/Server/WampServer.php:166-167 | every message only a router sends is refused |
| WampServer.ServerDefaultsCallPublish | src/Ratchet/Wamp2/Server/WampServer.php:117-151 | CALL and PUBLISH without argument positions carry an empty list and no keyword arguments |
| WampServer.ServerDefaultsYieldError | src/Ratchet/Wamp2/Server/WampServer.php:126-142 | YIELD and ERROR without argument positions carry an empty list and no keyword arguments |
| WampServer.WampServer.constructor | src/Ratchet/Wamp2/Server/WampServer.php:36-44 | an empty or absent protocol table falls back to the internal and `wamp.2.json` formatters; no connection is attached |
| WampServer.WampServer.OnOpen | src/Ratchet/Wamp2/Server/WampServer.php:64-69 | the connection is attached and its session starts establishing, under a newly drawn session id that no other connection holds |
| WampServer.WampServer.OnClose | src/Ratchet/Wamp2/Server/WampServer.php:177-182 | an attached connection is detached and its session state and realm binding dropped; looking up one that is not attached throws, a fatal error with nothing changed |
| WampServer.WampServer.OnMessage | src/Ratchet/Wamp2/Server/WampServer.php:76-172 | an unattached connection, an undecodable frame and, as written, every ERROR are fatal and change nothing; HELLO while establishing binds a known realm and answers WELCOME with the session id and the realm's roles, an unknown realm or any other state aborts; ABORT closes the session and the connection; on an established session GOODBYE is answered and closes, and each routing message reaches its engine in the bound realm (`SessionManager.Dispatched`), fatal when the realm has no such engine; outside it a routing message is aborted and reaches no engine; the engines of other realms never change |
| WampServer.WampServer.Route | src/Ratchet/Wamp2/Server/WampServer.php:98-164 | GOODBYE and the routing messages are aborted outside an established session and reach no engine; on an established session each has the effect `SessionManager.Dispatched` states |
| WampServer.WampServer.RouteBroker | src/Ratchet/Wamp2/Server/WampServer.php:144-164 | PUBLISH, SUBSCRIBE and UNSUBSCRIBE reach the bound realm's broker only on an established session, with the broker's own contract, and leave the dealer alone |
| WampServer.WampServer.RouteDealer | src/Ratchet/Wamp2/Server/WampServer.php:104-133 | REGISTER, UNREGISTER, CALL and YIELD reach the bound realm's dealer only on an established session, with the dealer's own contract, and leave the broker alone |
| Bindings.Bound | src/Ratchet/Wamp2/Client/Callee.php:19-25 | an accepted binding array becomes a table with the same names and callables in the same order |
| Bindings.StoreNew | src/Ratchet/Wamp2/Client/Callee.php:23 | filing a binding whose name is new appends it |
| Bindings.Bind | src/Ratchet/Wamp2/Client/Subscriber.php:18-24 | the constructor succeeds exactly when every key is a string and every value callable, and then the table is the bindings in order with unique names |
| Requests.PendingAt | src/Ratchet/Wamp2/Client/Callee.php:37-46 | after n requests, each request id is pending for its item, no other new id is pending, and earlier pending requests keep their item |
| Requests.PendingBelow | src/Ratchet/Wamp2/Client/Subscriber.php:36-45 | every pending request id stays below the counter, and each names an item or what it named before |
| Callee.RegisterRequests | src/Ratchet/Wamp2/Client/Callee.php:31-46 | registering n procedures sends n REGISTERs |
| Callee.RegisterRequestsAt | src/Ratchet/Wamp2/Client/Callee.php:31-46 | the i-th procedure is registered by the i-th REGISTER, under request id first + i |
| Callee.UnregisterRequests | src/Ratchet/Wamp2/Client/Callee.php:53-67 | unregistering n registrations sends n UNREGISTERs |
| Callee.UnregisterRequestsAt | src/Ratchet/Wamp2/Client/Callee.php:53-67 | the i-th registration is released by the i-th UNREGISTER, under request id first + i |
| Callee.InvocationReply | src/Ratchet/Wamp2/Client/Callee.php:103-141 | the answer is YIELD exactly when the callable returned, carrying its results; a thrown exception is answered with ERROR tagged INVOCATION; both carry the request id |
| Callee.Callee.constructor | src/Ratchet/Wamp2/Client/Callee.php:19-25 | a callee starts with its bound procedures and no request, registration or pending id |
| Callee.Callee.Target | src/Ratchet/Wamp2/Client/Callee.php:75-101 | an INVOCATION has a callable exactly when the registration is held and set, and the callable is the one bound to its procedure |
| Callee.Callee.Register | src/Ratchet/Wamp2/Client/Callee.php:37-46 | REGISTER under a fresh request id, filed as pending for the procedure |
| Callee.Callee.RegisterProcedures | src/Ratchet/Wamp2/Client/Callee.php:31-35 | every bound procedure is registered in binding order under consecutive fresh ids, each pending for its procedure |
| Callee.Callee.OnRegistered | src/Ratchet/Wamp2/Client/Callee.php:48-51 | the registration id now names the pending request's procedure (null if none was pending) and the request is no longer pending |
| Callee.Callee.Unregister | src/Ratchet/Wamp2/Client/Callee.php:59-67 | UNREGISTER under a fresh request id, filed as pending for the registration |
| Callee.Callee.UnregisterProcedures | src/Ratchet/Wamp2/Client/Callee.php:53-57 | every registration held is unregistered, in the order granted, under consecutive fresh ids |
| Callee.Callee.OnUnregistered | src/Ratchet/Wamp2/Client/Callee.php:69-72 | as intended: the registration the pending request named is dropped and the request is no longer pending |
| Callee.Callee.OnInvocation | src/Ratchet/Wamp2/Client/Callee.php:74-142 | an unheld registration is answered with ERROR `no_such_registration`; otherwise the bound callable runs with the arguments and its outcome is answered; the callee does not change |
| Subscriber.SubscribeRequests | src/Ratchet/Wamp2/Client/Subscriber.php:30-45 | subscribing n topics sends n SUBSCRIBEs |
| Subscriber.SubscribeRequestsAt | src/Ratchet/Wamp2/Client/Subscriber.php:30-45 | the i-th topic is subscribed by the i-th SUBSCRIBE, under request id first + i |
| Subscriber.UnsubscribeRequests | src/Ratchet/Wamp2/Client/Subscriber.php:52-66 | unsubscribing n subscriptions sends n UNSUBSCRIBEs |
| Subscriber.UnsubscribeRequestsAt | src/Ratchet/Wamp2/Client/Subscriber.php:52-66 | the i-th subscription is released by the i-th UNSUBSCRIBE, under request id first + i |
| Subscriber.Subscriber.constructor | src/Ratchet/Wamp2/Client/Subscriber.php:18-24 | a subscriber starts with its bound topics and no request, subscription or pending id |
| Subscriber.Subscriber.Target | src/Ratchet/Wamp2/Client/Subscriber.php:74-84 | an EVENT has a callable exactly when the subscription is held and set, and it is the one bound to its topic |
| Subscriber.Subscriber.Subscribe | src/Ratchet/Wamp2/Client/Subscriber.php:36-45 | SUBSCRIBE under a fresh request id, filed as pending for the topic |
| Subscriber.Subscriber.SubscribeToTopics | src/Ratchet/Wamp2/Client/Subscriber.php:30-34 | as intended: every bound topic is subscribed in binding order under consecutive fresh ids, each pending for its topic |
| Subscriber.Subscriber.OnSubscribed | src/Ratchet/Wamp2/Client/Subscriber.php:47-50 | the subscription id now names the pending request's topic (null if none was pending) and the request is no longer pending |
| Subscriber.Subscriber.Unsubscribe | src/Ratchet/Wamp2/Client/Subscriber.php:58-66 | UNSUBSCRIBE under a fresh request id, filed as pending for the subscription |
| Subscriber.Subscriber.UnsubscribeFromTopics | src/Ratchet/Wamp2/Client/Subscriber.php:52-56 | every subscription held is unsubscribed, in the order granted, under consecutive fresh ids |
| Subscriber.Subscriber.OnUnsubscribed | src/Ratchet/Wamp2/Client/Subscriber.php:68-71 | the subscription the pending request named is dropped and the request is no longer pending |
| Subscriber.Subscriber.OnEvent | src/Ratchet/Wamp2/Client/Subscriber.php:73-92 | an unknown subscription raises a user error whose level is the subscription id, so the handler ends in a fatal error exactly when that id, taken as an integer the PHP 7 way (`Values.WeakInt`), is 256 (`E_USER_ERROR`), and otherwise does nothing; a known one runs the bound callable with the event's arguments; nothing changes |
| Subscriber.FatalLevelStrings | src/Ratchet/Wamp2/Client/Subscriber.php:75 | the subscription id 256 is fatal as an integer and also as the string "256", with leading whitespace or with trailing non-digits; a string with no leading number is not |
| Caller.Caller.constructor | src/Ratchet/Wamp2/Client/Caller.php:8-10 | a caller starts with request id 0 and no pending call |
| Caller.Caller.Call | src/Ratchet/Wamp2/Client/Caller.php:16-32 | CALL under a fresh request id no pending call uses, the callback filed under it, and the arguments appended (keyword arguments only when not null) |
| Caller.Caller.OnResult | src/Ratchet/Wamp2/Client/Caller.php:34-38 | the filed callback runs with the result's arguments and the call stops pending; an unknown id or null callback is a fatal error that leaves the call pending |
| Publisher.Publisher.constructor | src/Ratchet/Wamp2/Client/Publisher.php:9 | a publisher starts with request id 0 |
| Publisher.Publisher.Publish | src/Ratchet/Wamp2/Client/Publisher.php:15-30 | PUBLISH under a fresh request id, with the arguments appended (keyword arguments only when not null) |
| Publisher.Publisher.OnPublished | src/Ratchet/Wamp2/Client/Publisher.php:32 | PUBLISHED is ignored |
| Publisher.Publisher.OnErrorMessage | src/Ratchet/Wamp2/Client/Publisher.php:34 | an ERROR answering a PUBLISH is ignored |
| ClientSession.ErrorRoleOf | src/Ratchet/Wamp2/Client/SessionManager.php:182-224 | the role an ERROR goes to is the group of the first case label its request type loosely equals |
| ClientSession.ErrorRoleOfCodes | src/Ratchet/Wamp2/Client/SessionManager.php:182-224 | per request code, in both directions: 1, 2, 3 and 6 to the session, 16-17 to the publisher, 32-36 to the subscriber, 48 and 50 to the caller, 64-68 and 70 to the callee; `true` counts as HELLO and null takes the default |
| ClientSession.SessionManager.constructor | src/Ratchet/Wamp2/Client/SessionManager.php:30-57 | the session manager holds the roles it is given and no connection state |
| ClientSession.SessionManager.Roles | src/Ratchet/Wamp2/Client/SessionManager.php:82-86 | the HELLO roles have an entry exactly for each configured role, each an empty feature object |
| ClientSession.SessionManager.Abort | src/Ratchet/Wamp2/Client/SessionManager.php:59-65 | ABORT unless already closed, then the state is closed and the connection closed |
| ClientSession.SessionManager.CheckProtocolViolation | src/Ratchet/Wamp2/Client/SessionManager.php:67-74 | a violation is reported exactly when the state is not the expected one, and then the connection is aborted |
| ClientSession.SessionManager.OnOpen | src/Ratchet/Wamp2/Client/SessionManager.php:77-79 | a new connection starts closed |
| ClientSession.SessionManager.Hello | src/Ratchet/Wamp2/Client/SessionManager.php:81-94 | HELLO names the realm and the configured roles, and the session starts establishing |
| ClientSession.SessionManager.OnWelcome | src/Ratchet/Wamp2/Client/SessionManager.php:96-105 | outside establishing WELCOME is a protocol violation and no role changes; otherwise the session is established under the session id, and the callee's REGISTERs are sent, then the subscriber's SUBSCRIBEs |
| ClientSession.SessionManager.OnAbort | src/Ratchet/Wamp2/Client/SessionManager.php:107-111 | as written, ABORT keeps an established session established and sends nothing; outside it, it is a protocol violation |
| ClientSession.SessionManager.OnGoodbye | src/Ratchet/Wamp2/Client/SessionManager.php:113-117 | GOODBYE on an established session makes it closing and sends nothing; otherwise it is a protocol violation |
| ClientSession.SessionManager.OnClose | src/Ratchet/Wamp2/Client/SessionManager.php:119-121 | the connection's state is unset |
| ClientSession.SessionManager.OnRegistered | src/Ratchet/Wamp2/Client/SessionManager.php:125-128 | REGISTERED goes to the callee, if one is configured |
| ClientSession.SessionManager.OnUnregistered | src/Ratchet/Wamp2/Client/SessionManager.php:130-133 | UNREGISTERED goes to the callee, if one is configured |
| ClientSession.SessionManager.OnInvocation | src/Ratchet/Wamp2/Client/SessionManager.php:135-138 | INVOCATION goes to the callee, if one is configured, and is ignored otherwise |
| ClientSession.SessionManager.Call | src/Ratchet/Wamp2/Client/SessionManager.php:142-145 | a non-array argument list or a missing callback is refused by the parameter types; otherwise the caller, if configured, sends the CALL |
| ClientSession.SessionManager.OnResult | src/Ratchet/Wamp2/Client/SessionManager.php:147-150 | RESULT goes to the caller, if one is configured |
| ClientSession.SessionManager.Publish | src/Ratchet/Wamp2/Client/SessionManager.php:154-157 | a non-array argument list is refused; otherwise the publisher, if configured, sends the PUBLISH |
| ClientSession.SessionManager.OnPublished | src/Ratchet/Wamp2/Client/SessionManager.php:159-162 | PUBLISHED does nothing |
| ClientSession.SessionManager.OnSubscribed | src/Ratchet/Wamp2/Client/SessionManager.php:166-169 | SUBSCRIBED goes to the subscriber, if one is configured |
| ClientSession.SessionManager.OnUnsubscribed | src/Ratchet/Wamp2/Client/SessionManager.php:170-173 | UNSUBSCRIBED goes to the subscriber, if one is configured |
| ClientSession.SessionManager.OnEvent | src/Ratchet/Wamp2/Client/SessionManager.php:174-177 | EVENT goes to the subscriber, if one is configured; for an unknown subscription it is fatal exactly when the id converts to 256 |
| ClientSession.SessionManager.OnErrorMessage | src/Ratchet/Wamp2/Client/SessionManager.php:181-225 | ERROR is fatal exactly when it goes to a configured subscriber, caller or callee (none has the handler), or to a configured publisher with non-array keyword arguments; otherwise nothing happens |
| ClientSession.CalleeOf | src/Ratchet/Wamp2/Client/SessionManager.php:38-41 | the callee entry is refused exactly when it is not an array or has a bad binding; absent or null gives no callee, an instance is kept, an array builds a new callee |
| ClientSession.SubscriberOf | src/Ratchet/Wamp2/Client/SessionManager.php:53-56 | the subscriber entry is refused exactly when it is not an array or has a bad binding; absent or null gives no subscriber, an instance is kept, an array builds a new subscriber |
| ClientSession.CallerOf | src/Ratchet/Wamp2/Client/SessionManager.php:43-46 | only a null caller entry gives no caller; an instance is kept and anything else, absent included, builds a new caller |
| ClientSession.PublisherOf | src/Ratchet/Wamp2/Client/SessionManager.php:48-51 | only a null publisher entry gives no publisher; an instance is kept and anything else, absent included, builds a new publisher |
| ClientSession.Configure | src/Ratchet/Wamp2/Client/SessionManager.php:30-57 | construction fails exactly when the callee or subscriber entry is refused; otherwise each role is present as its entry says |
| WampClient.DecodeClient | src/Ratchet/Wamp2/Client/WampClient.php:47-131 | only a sequential list decodes, into a message the peer has a case for, whose type code the first element loosely equals; any argument tail is an array |
| WampClient.DecodeClientByTag | src/Ratchet/Wamp2/Client/WampClient.php:56-131 | an integer first element selects its own case, and a code with no case decodes to nothing |
| WampClient.DecodeClientEncode | src/Ratchet/Wamp2/Client/WampClient.php:56-128 | every message the peer has a case for decodes back to itself, with an absent argument tail read as an empty list |
| WampClient.DecodeClientEncodeTail | src/Ratchet/Wamp2/Client/WampClient.php:86-111 | the same round trip for RESULT, INVOCATION and ERROR |
| WampClient.DecodeClientRefuses | src/Ratchet/Wamp2/Client/WampClient.php:130-131 | what a peer sends, and EVENT, are refused |
| WampClient.ClientDefaults | src/Ratchet/Wamp2/Client/WampClient.php:86-101 | RESULT and INVOCATION without argument positions carry an empty list and no keyword arguments |
| WampClient.WampClient.constructor | src/Ratchet/Wamp2/Client/WampClient.php:23-31 | the client keeps its realm and session manager, holds no connection, and falls back to the two default formatters |
| WampClient.WampClient.OnOpen | src/Ratchet/Wamp2/Client/WampClient.php:42-45 | the connection is held and its session starts closed |
| WampClient.WampClient.OnMessage | src/Ratchet/Wamp2/Client/WampClient.php:47-136 | no connection held, an undecodable frame and, as written, every ERROR are fatal and change nothing; WELCOME while establishing establishes the session and sends the callee's REGISTERs then the subscriber's SUBSCRIBEs (`SessionManager.Welcomed`); ABORT and GOODBYE on an established session send nothing and, elsewhere, abort; every role message is forwarded to its configured role with that role's contract and changes no other role (`SessionManager.Delivered`) |
| WampClient.WampClient.Deliver | src/Ratchet/Wamp2/Client/WampClient.php:75-128 | each role message is forwarded to the role that owns it when configured, and does nothing otherwise; the session state and the other roles stay as they were |
| WampClient.WampClient.OnClose | src/Ratchet/Wamp2/Client/WampClient.php:138-141 | the held connection's session state is unset and the connection let go; with none held it is a fatal error |
| WampClient.WampClient.Hello | src/Ratchet/Wamp2/Client/WampClient.php:148-150 | HELLO for the configured realm on the held connection, and the session starts establishing |
| WampClient.WampClient.Call | src/Ratchet/Wamp2/Client/WampClient.php:152-154 | CALL under the caller's next request id on the held connection, the callback filed under that id and the counter advanced; nothing is sent with no caller configured; no connection, omitted arguments or a missing callback are fatal |
| WampClient.WampClient.Publish | src/Ratchet/Wamp2/Client/WampClient.php:156-158 | PUBLISH under the publisher's next request id on the held connection, the counter advanced; nothing is sent with no publisher configured; no connection or omitted arguments are fatal |
| Findings.OnUnregisteredAsWritten | src/Ratchet/Wamp2/Client/Callee.php:70 | as written, UNREGISTERED is a fatal error before any table changes |
| Findings.UnregisteredScenario | src/Ratchet/Wamp2/Client/Callee.php:48-72 | one procedure registered then unregistered: as written the registration is still held, as intended it is released |
| Findings.SubscribeToTopicsAsWritten | src/Ratchet/Wamp2/Client/Subscriber.php:30-34 | as written, subscribing the bound topics sends nothing |
| Findings.SubscribeScenario | src/Ratchet/Wamp2/Client/Subscriber.php:30-45 | with one bound topic, as written no SUBSCRIBE is sent, as intended one is sent under request id 0 |
| Findings.ResolveImported | src/Ratchet/Wamp2/Client/Callee.php:4 | an imported name resolves to the name its `use` clause gives |
| Findings.ResolveUnimported | src/Ratchet/Wamp2/Client/Caller.php:2-4 | a name no `use` clause covers resolves inside the current namespace |
| Findings.CallerHintAsWritten | src/Ratchet/Wamp2/Client/Caller.php:16 | as written, `ConnectionInterface` in Caller.php names a class no connection is an instance of |
| Findings.CallerHintCorrected | src/Ratchet/Wamp2/Client/Callee.php:4 | with the `use Ratchet\ConnectionInterface;` clause the other client files have, the same parameter accepts a decorated connection |

## Left out

- Formatters and frame encoding. `JsonFormatter`, `InternalFormatter`, `onSubProtocolAgreed` and `WampConnection::receive`/`send` are not part of this model. Frames arrive as already decoded values (`Values.Value`) and leave as typed messages.
- JSON ambiguity. A JSON object and a JSON list are kept apart (`Dict` and `List`), while PHP decodes both to arrays. Only a sequential `List` counts as a WAMP message.
- PHP array keys. Integer-like string keys and float or bool keys are not coerced, and arrays used as keys are not refused. Table keys are compared as decoded values.
- Topic identity. `Broker::onPublish` skips a subscription whose topic is not identical (`!==`) to the published one. The model compares topics as decoded values, so two JSON-object topics whose keys differ only in order match here but not in PHP. WAMP topics are strings, for which the two comparisons agree.
- Loose equality. `LooseEquals` covers only the integer itself and `true`. Loose comparison of numeric strings and floats with the message codes is not modelled.
- `uniqid(mt_rand())` is replaced by counters: one per broker and dealer, and one per `WampServer` for session ids (drawn in `WampConnection`'s constructor, which is otherwise not part of this model). The model keeps that ids are never reused. It drops that they are strings.
- `onError` of both endpoints calls an `onError` the session managers do not define. It is not modelled, and neither is the `var_dump` in it and in `Callee::onInvocation`.
- `Realm::onCancel` is not reachable from the decoder, and `Realm::cleanup` does nothing. Neither is modelled.
- `Realm::name` is modelled as the `name` field.
- The roles' `features()` are modelled only as the empty feature objects they return.
- Notices and warnings (undefined index, undefined property, `array_keys(null)`) are not effects. The model follows PHP 7, where these are not errors.
- `user_error` is modelled only by whether it ends the handler (level 256). Reporting is left out.
- `Values.WeakInt`: a level string in float form (such as "2.56e2" or "256.0e0") converts through a float in PHP; the model reads only its leading integer digits, so "2.56e2" counts as 2, not 256. Integers and integer strings convert as in PHP 7.
- Application callables are opaque. A callee's callable is a function parameter `run` that returns its results or a thrown exception. A subscriber's or caller's callable only shows up as an `Invoke` effect.
- Transport. Sending, closing and the `close(1007)` in the decoders' catch block are effects, not I/O. That catch is unreachable, since `Exception` resolves to a class the namespace does not define, so a malformed frame is `Crash`.
- The server constructor wraps a single non-array argument into a list. The model takes the list of entries (`ServerSession.BuildRealms`).
- `WampClient`'s constructor builds its session manager from the configuration array. Here the constructor takes a session manager built by `ClientSession.Configure`; a null result from `Configure` stands for the constructor throwing.
- The second `isset` in `Callee::onInvocation` repeats the first, so its `no_such_procedure` branch is unreachable and not modelled.

## Findings

| source | as written | input that shows it | evidently intended | confidence | as-written member | corrected member |
|---|---|---|---|---|---|---|
| src/Ratchet/Wamp2/Client/Callee.php:69-72 | `unset($this->_registrations[$$this->_unregisterings[$requestId]])` reads a variable named by converting `$this` to a string, which throws | register procedure `p`, get REGISTERED with id 7, unregister, then receive UNREGISTERED for request 1 | drop registration 7 and forget request 1 | not executed | Findings.UnregisteredScenario | Callee.Callee.OnUnregistered |
| src/Ratchet/Wamp2/Client/Subscriber.php:30-34 | `foreach (array_keys($this->_topic) as $topics)` iterates over an undefined property, so no topic is subscribed | a subscriber bound to topic `t` receives WELCOME | send SUBSCRIBE for `t` under request id 0 | not executed | Findings.SubscribeScenario | Subscriber.Subscriber.SubscribeToTopics |
| src/Ratchet/Wamp2/Client/Caller.php:1-16 | no `use Ratchet\ConnectionInterface;`, so the parameter type names `Ratchet\Wamp2\Client\ConnectionInterface` (Subscriber.php:1-4 likewise) | any `call` with a decorated connection | accept the decorated connection, as Callee.php and Publisher.php do | not executed | Findings.CallerHintAsWritten | Findings.CallerHintCorrected |

Each as-written member isolates its own defect, with the other two corrected.
The classes in `Callee`, `Subscriber` and `Caller` model the intended
behaviour, and the rest of the model uses them.
