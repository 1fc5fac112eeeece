# Courier multi-agent system, modelled in Dafny

The system is a SPADE/XMPP simulation of parcel delivery with these agents:

- a **customer** orders parcels and asks about their status;
- a **warehouse** queues parcel requests and asks the **supervisor** which courier should take the next one;
- the supervisor keeps the couriers' status, picks the least-loaded eligible courier, relays delivery reports to a **database** agent and proxies status queries to it;
- each **courier** runs a three-state FSM: wait for an assignment, ask for a route, deliver and report;
- the **GIS** and **traffic** agents answer route requests.

This project models each agent's message handling step by step:

- One `receive(timeout)` is an `Option<Message>`.
- A polling loop that keeps receiving until a deadline is given its *wait window*: the finite list of what those receives returned.
- Values from `uuid`, `random` and `datetime.now()` are parameters.
- A Python exception is the outcome `Raised(ValueError)` or `Raised(IntegrityError)`. The handler's work so far is not applied. SPADE then kills the behaviour that raised: a class agent keeps one `running` flag per cyclic behaviour, the flag goes false, and a killed behaviour does nothing on later steps.

Files:

- `py.dfy`: the Python built-ins the agents use (`split` with and without maxsplit, `"|".join`, `strip`, `int`, `float`), with their round trips.
- `spade.dfy`: messages, wait windows and the thread-correlation loop.
- One file per agent: `warehouse.dfy`, `supervisor.dfy`, `courier.dfy`, `database.dfy`, `customer.dfy`, `gis.dfy`, `traffic.dfy`. An agent whose fields change is a class with those fields, and its handlers are methods with `modifies` clauses.
- `wiring.dfy`: what each receiver does with what the other agents actually send.

The message-type strings are modelled exactly as written. Several disagree between sender and receiver, and `wiring.dfy` states the consequences:

- The warehouse asks for a courier with type `load_balance`. The supervisor's load balancer takes only `best_courier_request`, and its monitor ignores `load_balance`, so the request is never answered and the warehouse re-queues the parcel every time.
- The customer orders with type `parcel_creation`. The warehouse queues only type `parcel`.
- The customer asks with type `parcel_status`. The supervisor answers only `parcel_status_query`.
- The courier's delivery report has eight `|`-separated fields. The supervisor unpacks exactly three, so every report raises and nothing reaches the database.
- The courier sends its route request to `traffic@localhost`, the address in `config.py`. `main.py` starts no traffic agent. It starts the GIS agent, which runs under `gis@localhost`, the address in `settings.py`. The request therefore reaches no agent, and the courier always delivers with the route "Route unavailable 🚫". The GIS template (`route_request`) would also reject the courier's type (`route`).
- No agent sends `courier_status` or `parcel_log`. The supervisor's courier map and the database's parcel table therefore stay empty in a run of `main.py`.

## Model

| member | source | states |
|---|---|---|
| Py.Split | agents/supervisor_agent.py:43 | `str.split(sep)` gives one more piece than there are separators, and no piece holds the separator |
| Py.SplitMax | agents/database_agent.py:51 | `str.split(sep, n)` gives between 1 and n+1 pieces, and only the last may hold the separator |
| Py.CountJoin | agents/courier_agent.py:95 | joining k pieces puts at least k-1 separators in the text |
| Py.SplitJoinLength | agents/courier_agent.py:95 | splitting a join of k pieces gives at least k pieces, whatever the pieces hold |
| Py.SplitWithoutSeparator | agents/courier_agent.py:41 | a text without the separator splits into itself |
| Py.SplitAfterPiece | agents/supervisor_agent.py:104 | splitting `a + sep + rest`, where `a` has no separator, gives `a` followed by the pieces of `rest` |
| Py.SplitJoin | agents/courier_agent.py:95 | pieces without the separator are recovered by splitting their `Join` (`str.join`) |
| Py.JoinSplit | agents/supervisor_agent.py:57-62 | joining the pieces of a split gives back the text |
| Py.SplitMaxWithoutSeparator | agents/customer_agent.py:68 | a text without the separator is one piece under any maxsplit |
| Py.SplitMaxAfterPiece | agents/customer_agent.py:68 | `split(sep, n+1)` of `a + sep + rest` is `a` followed by `split(sep, n)` of `rest` |
| Py.SplitMaxJoin | agents/customer_agent.py:68 | n+1 pieces whose first n hold no separator are recovered by `split(sep, n)` of their join, even when the last piece holds separators |
| Py.LeadingSpaces | agents/warehouse_agent.py:85 | the length of the leading whitespace: everything before it is whitespace and the next character is not |
| Py.TrailingStart | agents/warehouse_agent.py:85 | where the trailing whitespace starts: everything from it on is whitespace and the character before it is not |
| Py.StripEmpty | agents/warehouse_agent.py:85 | `Strip` (`strip()`, the text between LeadingSpaces and TrailingStart) gives the empty text exactly when the text is all whitespace |
| Py.StripEnds | agents/warehouse_agent.py:85 | a stripped text that is not empty begins and ends with a non-space |
| Py.StripPadded | agents/warehouse_agent.py:85-86 | a word padded with whitespace strips to the word |
| Py.Decimal | agents/gis_agent.py:47 | the decimal text of a natural number is a non-empty run of digits |
| Py.DecimalValue | agents/supervisor_agent.py:104 | the digits of the decimal text of n have value n |
| Py.ParseIntDecimal | agents/supervisor_agent.py:104 | `ParseInt` (`int()`) of the decimal text of n is n |
| Py.ParseFloatInt | agents/supervisor_agent.py:45 | on the text of an integer, `ParseFloat` (`float()`) gives the value `int()` gives |
| Py.ParseFloatDecimal | agents/supervisor_agent.py:45 | `float()` of the decimal text of n is n |
| Py.ParseFloatPoint | agents/supervisor_agent.py:45 | `float()` of `n.frac` is n plus the digits of frac over ten to their number (exact, not rounded to a double) |
| Py.Fraction | agents/supervisor_agent.py:45 | the digits after a decimal point denote a non-negative value |
| Spade.FirstWhere | agents/warehouse_agent.py:43-53 | the position of the first entry a filter accepts, or none when no entry is accepted |
| Spade.FirstOnThread | agents/warehouse_agent.py:74-82 | the first received message on the awaited thread; every earlier entry is off the thread |
| Spade.AwaitOnThread | agents/courier_agent.py:64-74 | the polling loop returns the first message on the thread and consumes the window up to it, or returns nothing after consuming the whole window |
| Spade.ReplyAfterNoise | agents/warehouse_agent.py:74-82 | any number of messages on other threads in front of a reply do not stop the requester from getting that reply |
| Warehouse.AcceptedNone | agents/warehouse_agent.py:45 | a window without a `request`/`parcel` message queues nothing |
| Warehouse.ForwardedRequestOnly | agents/warehouse_agent.py:62-65 | the load request forwards no parcel; the request plus an assignment forwards exactly the assigned parcel |
| Warehouse.ChosenCourier | agents/warehouse_agent.py:84-86 | no courier exactly when there is no reply or the stripped reply is `NONE`; otherwise the stripped reply body |
| Warehouse.ChosenPadded | agents/warehouse_agent.py:84-86 | a courier name padded with whitespace is chosen as the bare name, unless the name is `NONE` |
| Warehouse.AssignConserves | agents/warehouse_agent.py:84-100 | re-queueing the parcel or forwarding it to a courier keeps every parcel: queue plus forwarded equals the old queue plus the parcel |
| Warehouse.AcceptedUpToFirst | agents/warehouse_agent.py:43-53 | the window read up to the first parcel request accepts exactly that request's body |
| Warehouse.NoRequest | agents/warehouse_agent.py:43-53 | a window without a parcel request accepts nothing and has no first request |
| Warehouse.WarehouseAgent.constructor | agents/warehouse_agent.py:20-23 | an empty queue, nothing in flight, state WAIT_PARCEL |
| Warehouse.WarehouseAgent.RunWaitParcel | agents/warehouse_agent.py:36-54 | a queued head goes in flight without receiving; otherwise the first parcel request goes in flight and everything before it is dropped, or the state stays WAIT_PARCEL when the window has none; the parcels held grow by exactly the accepted requests |
| Warehouse.WarehouseAgent.RunAssignCourier | agents/warehouse_agent.py:58-103 | sends the load request; on `NONE` or no reply on the thread the parcel goes back to the front of the queue, otherwise exactly one assignment with the parcel as body goes to the named courier; the slot is emptied, and no parcel is lost |
| Warehouse.WarehouseAgent.Dispatch | agents/warehouse_agent.py:84-100 | on no reply or `NONE` the parcel goes back to the front of the queue and nothing is forwarded; otherwise one assignment of the parcel goes to the chosen courier and the queue is unchanged |
| Warehouse.WarehouseAgent.Step | agents/warehouse_agent.py:105-113 | every step follows a registered transition and keeps at most one parcel in flight; waiting conserves parcels, and assigning conserves what is held or forwarded |
| Supervisor.StatusRoundTrip | agents/supervisor_agent.py:43-48 | a well-formed `courier_status` body reads back field by field, and the courier is busy exactly when the last field is `True` |
| Supervisor.StatusAccepted | agents/supervisor_agent.py:43-48 | `ParseStatus` accepts a body exactly when it has five fields and the battery reads as a number; the entry is keyed by the first field, holds that number and the time of receipt |
| Supervisor.StatusNeedsFiveFields | agents/supervisor_agent.py:43 | a status body with any other number of fields raises |
| Supervisor.MinScan | agents/supervisor_agent.py:95-104 | the filtered `min` scan: it names an eligible entry or none, and fails when an eligible key fails to parse |
| Supervisor.MinScanCharacterised | agents/supervisor_agent.py:95-104 | the scan fails exactly when some eligible load does not parse; finds none exactly when nothing is eligible; otherwise names the first eligible entry with the least key |
| Supervisor.EligibleFlags | agents/supervisor_agent.py:97 | one flag per courier, its `Eligible` value: not busy and battery above 25 |
| Supervisor.LoadKeys | agents/supervisor_agent.py:104 | one key per courier, its `LoadKey`: `int` of the text before the first `/` of its load |
| Supervisor.SelectIndex | agents/supervisor_agent.py:95-104 | the chosen position is a position of the snapshot |
| Supervisor.SelectionCharacterised | agents/supervisor_agent.py:95-104 | over the snapshot in insertion order: the chosen courier is eligible, its load is at most every eligible courier's, ties go to the first inserted; no eligible courier gives no choice |
| Supervisor.ResponseBody | agents/supervisor_agent.py:110 | the body is `NONE` exactly when there is no choice or the chosen jid is empty (falsy) or `NONE` |
| Supervisor.ReportRelay | agents/supervisor_agent.py:56-63 | a report is relayed exactly when it splits into three fields; it goes to the database as `update`/`delivery_log` with the body unchanged |
| Supervisor.QueryProxy | agents/supervisor_agent.py:65-83 | the database query always goes out; the reply is forwarded to the asker as `inform`/`status_update`, with the database's body, exactly when the next message is on the query's thread |
| Supervisor.ItemsOf | agents/supervisor_agent.py:96 | the map's items, in insertion order |
| Supervisor.SupervisorAgent.constructor | agents/supervisor_agent.py:20-22 | an empty courier map |
| Supervisor.SupervisorAgent.UpdateStatus | agents/supervisor_agent.py:42-48 | last write wins for the jid in the body, every other entry is unchanged, and a new jid goes last in insertion order; a malformed body raises and changes nothing |
| Supervisor.SupervisorAgent.RunMonitor | agents/supervisor_agent.py:35-83 | dispatch on the type: a well-formed status updates the map and its insertion order as `UpdateStatus` does, a malformed one raises and changes nothing; report relay or query proxy; any other type and a timeout do nothing; a raise kills the monitor, and a killed monitor does nothing |
| Supervisor.SupervisorAgent.RunLoadBalancer | agents/supervisor_agent.py:91-111 | a `best_courier_request` is answered to its sender, on its thread, with the selected courier or `NONE`; a load that does not parse raises before anything is sent and kills the balancer; other messages are ignored; the map is never changed |
| Supervisor.LoadKeyOf | agents/supervisor_agent.py:104 | a load written `n/capacity` has key n |
| Supervisor.LeastKeyChosen | agents/supervisor_agent.py:95-110 | three eligible couriers with loads 2, 0 and 4: the second is chosen and named in the reply |
| Supervisor.AllBusyNone | agents/supervisor_agent.py:100-110 | when every courier is busy there is no choice and the reply is `NONE` |
| Courier.ParseAssignment | agents/courier_agent.py:41-46 | id, version, latitude and longitude never hold `|`; info is the third field, or the whole body when there are fewer than three |
| Courier.AssignmentWithoutSeparator | agents/courier_agent.py:41-46 | a body without `|` is both id and info; version and position are empty |
| Courier.AssignmentRoundTrip | agents/courier_agent.py:41-46 | any number of `|`-free fields reads back as id, version, info, latitude and longitude: a missing version or position is empty, fewer than three fields make the whole body the info, and the fourth field is skipped |
| Courier.AssignmentThreeFields | agents/courier_agent.py:41-46 | three `|`-free fields read back as id, version and info, with no position |
| Courier.RouteFrom | agents/courier_agent.py:76-81 | the route is the body of the reply on the thread, or the sentinel when there is none |
| Courier.ReportFields | agents/courier_agent.py:95 | eight fields, ending with the delivery end time |
| Courier.ReportRoundTrip | agents/courier_agent.py:95 | a report splits back into its eight fields when none holds `|` |
| Courier.ReportAtLeastEight | agents/courier_agent.py:95 | a report never splits into fewer than eight pieces |
| Courier.CourierAgent.constructor | agents/courier_agent.py:22-31 | every `current_*` attribute starts unset |
| Courier.CourierAgent.RunWaitAssignment | agents/courier_agent.py:36-51 | any message becomes the current parcel, its five fields are set as `ParseAssignment` reads them, its start time recorded and the state moves to REQUEST_ROUTE; a timeout changes nothing |
| Courier.CourierAgent.RunRequestRoute | agents/courier_agent.py:56-83 | sends the route request on the thread, records the reply's body or the sentinel, and always moves to DELIVER_PARCEL |
| Courier.CourierAgent.RunDeliverParcel | agents/courier_agent.py:91-100 | sends to the supervisor the eight-field report built from the attributes as they were and the end time, and returns to WAIT_ASSIGNMENT; every parcel attribute, the start time included, stays as it is |
| Courier.CourierAgent.Step | agents/courier_agent.py:102-112 | every step follows a registered transition and keeps the parcel attributes consistent with the current parcel; it sends nothing while waiting, the route request while routing, and the report while delivering |
| Database.RowBodyRoundTrip | agents/database_agent.py:75 | `id|status|info` read back with `split('|', 2)` gives the three fields, even when info holds `|` |
| Database.NotFoundRoundTrip | agents/database_agent.py:75 | the not-found line reads back as id, `NOT_FOUND`, `-` |
| Database.DatabaseAgent.constructor | agents/database_agent.py:14-37 | both tables start empty |
| Database.DatabaseAgent.QueryBody | agents/database_agent.py:72-75 | the answer reads back as the row's id, status and info, or as the not-found triple |
| Database.DatabaseAgent.LogParcel | agents/database_agent.py:49-56 | fewer than four fields raise ValueError and a duplicate id raises IntegrityError, both changing nothing; otherwise exactly one row is added; the log is untouched |
| Database.DatabaseAgent.LogDelivery | agents/database_agent.py:57-68 | anything but three fields raises and changes nothing; otherwise only the named row, if any, takes the status and time, every other row is unchanged, no row is added, and exactly one log row is appended |
| Database.DatabaseAgent.QueryReply | agents/database_agent.py:70-81 | the answer goes to the sender, echoes the thread, is `inform` with no type, and carries the query body's answer |
| Database.DatabaseAgent.Handle | agents/database_agent.py:41-81 | a `query`/`parcel_info` gets the `QueryReply` answer; a `parcel_log` or `delivery_log` update acts exactly as `LogParcel` or `LogDelivery` states; any other message changes nothing; a raise kills the handler, and a killed handler does nothing |
| Customer.UrgencyName | agents/customer_agent.py:35 | the urgency words hold no `|` |
| Customer.DestinationName | agents/customer_agent.py:36 | the destination names hold no `|` |
| Customer.Info | agents/customer_agent.py:37 | the description holds no `|` |
| Customer.OrderBodyFields | agents/customer_agent.py:42 | an order body splits back into id, urgency and description |
| Customer.Trackable | agents/customer_agent.py:50 | the filter keeps at most the ordered ids |
| Customer.TrackableExactly | agents/customer_agent.py:50 | an id is trackable exactly when it was ordered and its status is neither DELIVERED nor FAILED |
| Customer.CustomerAgent.constructor | agents/customer_agent.py:23-25 | no parcels |
| Customer.CustomerAgent.Tracked | agents/customer_agent.py:50 | the trackable ids of the current map |
| Customer.CustomerAgent.OrderAndTrack | agents/customer_agent.py:31-59 | an order is sent and recorded as PENDING; a query goes out only when something is trackable and names a trackable id; a new order is always followed by a query |
| Customer.CustomerAgent.OnStatusUpdate | agents/customer_agent.py:65-72 | only `status_update` messages act; fewer than three pieces raise and kill the listener; only a known id takes the new status; no id is ever added |
| Gis.QuoteFor | agents/gis_agent.py:56 | `repr` quotes with `'` or `"` |
| Gis.UnescapeEscape | agents/gis_agent.py:56 | reading an escaped string up to its closing quote undoes the escapes |
| Gis.ReadRepr | agents/gis_agent.py:56 | reading `repr(s)` gives back `s` and what follows it |
| Gis.ListTextThree | agents/gis_agent.py:56 | the text of a three-string list |
| Gis.ReadTripleText | agents/gis_agent.py:47-56 | the text of a three-string list (`ListText` of each string's `Repr`) reads back as the list |
| Gis.HandleRequest | agents/gis_agent.py:38-57 | only `route_request` messages act; anything but two `|` fields raises; otherwise one reply goes to the sender on its thread as `inform`/`route_response`, and its body reads back as start, waypoint k, end |
| Traffic.HandleRequest | agents/traffic_agent.py:14-31 | every received message, and only one, is answered to its sender on its thread as `inform`/`route`, with one of the three routes |
| Wiring.LoadRequestUnanswered | agents/warehouse_agent.py:62-65 | the warehouse's `load_balance` request matches neither the load-balancer template nor any monitored type |
| Wiring.UnansweredRequeues | agents/warehouse_agent.py:98-100 | with no reply on its thread, the warehouse chooses no courier |
| Wiring.OrdersNeverQueued | agents/customer_agent.py:39-42 | a window of customer orders queues nothing at the warehouse |
| Wiring.TrackQueryIgnored | agents/customer_agent.py:54-57 | the customer's `parcel_status` query is not a monitored type |
| Wiring.ReportNeverRelayed | agents/courier_agent.py:92-95 | every courier report fails the supervisor's three-field unpacking |
| Wiring.TrafficAnswersCourier | agents/traffic_agent.py:27-31 | the courier's request fits the traffic template, and the traffic reply, after any unrelated messages, is the route the courier records |
| Wiring.CourierAsksTrafficAddress | config.py:14 | the courier's route request is addressed to the traffic address, which is not the GIS agent's address |
| Wiring.GisIgnoresCourier | agents/gis_agent.py:62-65 | were the request delivered to the GIS agent, its template would reject it and the handler would ignore it |
| Wiring.NoRouteSentinel | agents/courier_agent.py:79-81 | with no reply on the thread, the courier records the sentinel route |
| Wiring.OrderAsAssignment | agents/courier_agent.py:41-46 | read as an assignment, a customer order puts the urgency in the version slot |
| Wiring.NotFoundForwarded | agents/supervisor_agent.py:69-83 | the supervisor's query fits the database dispatch; a not-found answer on the query's thread reaches the customer as id, `NOT_FOUND`, `-`, and `NOT_FOUND` keeps the parcel trackable |
| Wiring.RelayedReportLogged | agents/database_agent.py:57-59 | a relayed report is a `delivery_log` update with exactly the three fields the database unpacks |

## Left out

- Transport and timing: SPADE, XMPP, templates and `asyncio` clocks are not modelled. A template is a predicate. A wait window is an input list, so how many receives fit in a deadline is not modelled.
- Concurrency: the supervisor's two behaviours run concurrently over `courier_stats`. The model runs one handler step at a time.
- Message bodies: a body that was never set is `None` in SPADE, where `split` and `strip` would raise AttributeError. The model treats it as the empty string.
- Randomness, `uuid4` and `datetime.now()`: these are caller-supplied parameters.
- Logging: all `log_agent_comm` calls, the CSV files and every `print` are file or console output and are not modelled.
- SQLite: the two tables are a map and a list, and the model starts from a new database file. Rows left in `courier_system.db` by an earlier run are not modelled, and foreign keys are not enforced, as in SQLite's default.
- `haversine` and the GIS `traffic_factor`: floating point, and neither is used in a reply.
- `dasboard.py`, `updater.py`, `simulate_couriers.py` and `main.py`: user interface, file polling and start-up are not part of this model. `settings.py` and `config.py` are used only for the agents' addresses.
- Supervisor.ParseStatus: `float()` is modelled only for optionally signed decimal numbers with at most one point. Exponents, `inf`/`nan`, underscores and non-ASCII digits are left out.
- Supervisor.ParseStatus: the battery is the exact decimal value, not the nearest double. For example, Python reads `25.000000000000001` as `25.0`, so that courier is not eligible, while the model reads a value above 25 and counts it eligible. Py.ParseFloatPoint states the exact value.
- Supervisor.LoadKeys: `int()` is modelled only for optionally signed ASCII digits surrounded by whitespace. Underscores and non-ASCII digits are left out.
- Gis.HandleRequest: a malformed request raises, and SPADE kills the GIS behaviour. This pure function returns `Raised(ValueError)` but keeps no flag, so that later requests are still answered in the model.
- Traffic.HandleRequest: the traffic agent is modelled as written, although `main.py` never starts it.
- Gis.Repr: `repr` escapes backslash, the chosen quote, newline, carriage return and tab. Other non-printable characters, which Python writes as `\x..` or `\u....` escapes, are left out.
- Supervisor.CourierStats: `last_updated` is the caller-supplied time as text, not a `datetime`.
- Warehouse.WarehouseAgent.Step: parcel requests that arrive while the warehouse waits for the supervisor's reply are discarded with the other unrelated messages, as warehouse_agent.py does. The contract states this rather than claiming that every request is queued.
