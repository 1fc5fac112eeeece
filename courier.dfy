/** The courier (agents/courier_agent.py): a three-state FSM that takes any
    message as a parcel assignment, asks the traffic agent for a route on a
    fresh thread, then reports the delivery to the supervisor as one
    `|`-separated line of eight fields. */
module Courier {
  import opened Py
  import opened Spade

  datatype FsmState = WaitAssignment | RequestRoute | DeliverParcel

  /** The transitions `setup` registers. */
  predicate Registered(source: FsmState, dest: FsmState)
  {
    || (source == WaitAssignment && dest == WaitAssignment)
    || (source == WaitAssignment && dest == RequestRoute)
    || (source == RequestRoute && dest == DeliverParcel)
    || (source == DeliverParcel && dest == WaitAssignment)
  }

  /** The route recorded when the traffic agent does not answer in time. */
  const RouteUnavailable := "Route unavailable \U{1F6AB}"

  /** What the courier reads out of an assignment body. */
  datatype ParcelFields = ParcelFields(id: string, version: string, info: string, lat: string, lon: string)

  /** Split the body on `|`: the id is the first field, the version the
      second, the info the third (or the whole body when there are fewer
      than three), latitude and longitude the fifth and sixth; a field that
      is missing reads as the empty string. */
  function ParseAssignment(body: string): (f: ParcelFields)
    ensures '|' !in f.id && '|' !in f.version && '|' !in f.lat && '|' !in f.lon
    ensures |Split(body, '|')| >= 3 ==> '|' !in f.info
    ensures |Split(body, '|')| < 3 ==> f.info == body
  {
    var parts := Split(body, '|');
    ParcelFields(
      parts[0],
      if |parts| > 1 then parts[1] else "",
      if |parts| > 2 then parts[2] else body,
      if |parts| > 4 then parts[4] else "",
      if |parts| > 5 then parts[5] else "")
  }

  /** A body without `|` is the id and the info at once; nothing else is set. */
  lemma AssignmentWithoutSeparator(body: string)
    requires '|' !in body
    ensures ParseAssignment(body) == ParcelFields(body, "", body, "", "")
  {
    SplitWithoutSeparator(body, '|');
  }

  /** A body of `|`-free fields is read back by position: the id is the
      first field, the version the second, the info the third (the whole
      body when there are fewer than three), latitude and longitude the
      fifth and sixth (the fourth is skipped), and a missing field is empty. */
  lemma AssignmentRoundTrip(parts: seq<string>)
    requires |parts| >= 1 && NoSeparator(parts, '|')
    ensures ParseAssignment(Join(parts, '|')) == ParcelFields(
      parts[0],
      if |parts| > 1 then parts[1] else "",
      if |parts| > 2 then parts[2] else Join(parts, '|'),
      if |parts| > 4 then parts[4] else "",
      if |parts| > 5 then parts[5] else "")
  {
    SplitJoin(parts, '|');
  }

  /** A body of exactly three `|`-free fields: id, version and info, and no position. */
  lemma AssignmentThreeFields(id: string, version: string, info: string)
    requires '|' !in id && '|' !in version && '|' !in info
    ensures ParseAssignment(Join([id, version, info], '|')) == ParcelFields(id, version, info, "", "")
  {
    AssignmentRoundTrip([id, version, info]);
  }

  /** The request for a route: to the traffic agent, on `thread`, type `route`, no body. */
  function RouteRequest(courier: string, thread: string): Message
  {
    Message(TrafficJid, courier, Some(thread), Some("request"), Some("route"), "")
  }

  /** The route the courier records for a wait window: the body of the reply
      on its thread, or the sentinel when none arrives. */
  function RouteFrom(window: Window, thread: string): (route: string)
    ensures ReplyOnThread(window, thread).Some? ==> route == ReplyOnThread(window, thread).value.body
    ensures ReplyOnThread(window, thread).None? ==> route == RouteUnavailable
  {
    match ReplyOnThread(window, thread)
    case None => RouteUnavailable
    case Some(m) => m.body
  }

  /** How an f-string renders an attribute that may still be `None`. */
  function Show(v: Option<string>): string
  {
    if v.None? then "None" else v.value
  }

  /** The eight fields of a delivery report, in order. */
  function ReportFields(id: Option<string>, version: Option<string>, info: Option<string>, route: Option<string>,
                        lat: Option<string>, lon: Option<string>, start: Option<string>, end: string): (r: seq<string>)
    ensures |r| == 8 && r[7] == end
  {
    [Show(id), Show(version), Show(info), Show(route), Show(lat), Show(lon), Show(start), end]
  }

  /** The delivery report: type `delivery_report`, to the supervisor, its
      body the eight fields joined by `|`. */
  function Report(courier: string, fields: seq<string>): Message
  {
    Message(SupervisorJid, courier, None, Some("inform"), Some("delivery_report"), Join(fields, '|'))
  }

  /** Splitting a report body gives back its eight fields when none holds a `|`. */
  lemma ReportRoundTrip(fields: seq<string>)
    requires |fields| == 8 && NoSeparator(fields, '|')
    ensures Split(Report("", fields).body, '|') == fields
  {
    SplitJoin(fields, '|');
  }

  /** However the fields read, a report body never splits into fewer than eight pieces. */
  lemma ReportAtLeastEight(courier: string, fields: seq<string>)
    requires |fields| == 8
    ensures |Split(Report(courier, fields).body, '|')| >= 8
  {
    SplitJoinLength(fields, '|');
  }

  class CourierAgent {
    const jid: string
    var state: FsmState
    var currentParcel: Option<string>
    var currentRoute: Option<string>
    var parcelId: Option<string>
    var parcelVersion: Option<string>
    var parcelInfo: Option<string>
    var parcelLat: Option<string>
    var parcelLon: Option<string>
    var parcelStart: Option<string>

    /** The parcel attributes are all unset, or all read from the current parcel. */
    ghost predicate Consistent()
      reads this
    {
      if currentParcel.None? then
        parcelId.None? && parcelVersion.None? && parcelInfo.None? && parcelLat.None? && parcelLon.None? && parcelStart.None?
      else
        var f := ParseAssignment(currentParcel.value);
        && parcelId == Some(f.id) && parcelVersion == Some(f.version) && parcelInfo == Some(f.info)
        && parcelLat == Some(f.lat) && parcelLon == Some(f.lon) && parcelStart.Some?
    }

    /** Past the wait there is a parcel; at delivery there is also a route. */
    ghost predicate Valid()
      reads this
    {
      && Consistent()
      && (state != WaitAssignment ==> currentParcel.Some?)
      && (state == DeliverParcel ==> currentRoute.Some?)
    }

    /** The agent's `setup` and the FSM's `on_start`: every attribute unset. */
    constructor (jid: string)
      ensures Valid() && this.jid == jid && state == WaitAssignment
      ensures currentParcel == None && currentRoute == None && parcelStart == None
    {
      this.jid := jid;
      state := WaitAssignment;
      currentParcel, currentRoute := None, None;
      parcelId, parcelVersion, parcelInfo := None, None, None;
      parcelLat, parcelLon, parcelStart := None, None, None;
    }

    /** WaitAssignmentState.run: whatever message arrives is the new parcel;
        its fields are parsed and `now` is its start time. No message: stay. */
    method RunWaitAssignment(msg: Option<Message>, now: string)
      requires Valid() && state == WaitAssignment
      modifies this
      ensures Valid() && Registered(old(state), state)
      ensures currentRoute == old(currentRoute)
      ensures msg.None? ==>
        && state == WaitAssignment && currentParcel == old(currentParcel) && parcelStart == old(parcelStart)
        && parcelId == old(parcelId) && parcelVersion == old(parcelVersion) && parcelInfo == old(parcelInfo)
        && parcelLat == old(parcelLat) && parcelLon == old(parcelLon)
      ensures msg.Some? ==>
        var f := ParseAssignment(msg.value.body);
        && state == RequestRoute && currentParcel == Some(msg.value.body) && parcelStart == Some(now)
        && parcelId == Some(f.id) && parcelVersion == Some(f.version) && parcelInfo == Some(f.info)
        && parcelLat == Some(f.lat) && parcelLon == Some(f.lon)
    {
      if msg.Some? {
        var parts := Split(msg.value.body, '|');
        parcelId := Some(parts[0]);
        parcelVersion := Some(if |parts| > 1 then parts[1] else "");
        parcelInfo := Some(if |parts| > 2 then parts[2] else msg.value.body);
        parcelLat := Some(if |parts| > 4 then parts[4] else "");
        parcelLon := Some(if |parts| > 5 then parts[5] else "");
        currentParcel := Some(msg.value.body);
        parcelStart := Some(now);
        state := RequestRoute;
      } else {
        state := WaitAssignment;
      }
    }

    /** RequestRouteState.run: ask the traffic agent on `thread`, keep the
        first reply on that thread (others are discarded), and record its
        body, or the sentinel when the window runs out. */
    method RunRequestRoute(thread: string, window: Window) returns (sent: Message, consumed: nat)
      requires Valid() && state == RequestRoute
      modifies this
      ensures Valid() && Registered(old(state), state) && state == DeliverParcel
      ensures sent == RouteRequest(jid, thread)
      ensures currentRoute == Some(RouteFrom(window, thread))
      ensures currentParcel == old(currentParcel) && parcelStart == old(parcelStart)
      ensures parcelId == old(parcelId) && parcelVersion == old(parcelVersion) && parcelInfo == old(parcelInfo)
      ensures parcelLat == old(parcelLat) && parcelLon == old(parcelLon)
      ensures consumed <= |window|
      ensures match FirstOnThread(window, thread)
        case None => consumed == |window|
        case Some(k) => consumed == k + 1
    {
      sent := RouteRequest(jid, thread);
      var response;
      response, consumed := AwaitOnThread(window, thread);
      if response.Some? {
        currentRoute := Some(response.value.body);
      } else {
        currentRoute := Some(RouteUnavailable);
      }
      state := DeliverParcel;
    }

    /** DeliverParcelState.run: report the delivery, ending at `end`, and
        go back to waiting. The parcel attributes are left as they are. */
    method RunDeliverParcel(end: string) returns (report: Message)
      requires Valid() && state == DeliverParcel
      modifies this
      ensures Valid() && Registered(old(state), state) && state == WaitAssignment
      ensures currentParcel == old(currentParcel) && currentRoute == old(currentRoute)
      ensures parcelId == old(parcelId) && parcelVersion == old(parcelVersion) && parcelInfo == old(parcelInfo)
      ensures parcelLat == old(parcelLat) && parcelLon == old(parcelLon) && parcelStart == old(parcelStart)
      ensures report == Report(jid, ReportFields(old(parcelId), old(parcelVersion), old(parcelInfo), old(currentRoute),
                                                 old(parcelLat), old(parcelLon), old(parcelStart), end))
      ensures |Split(report.body, '|')| >= 8
    {
      var fields := ReportFields(parcelId, parcelVersion, parcelInfo, currentRoute, parcelLat, parcelLon, parcelStart, end);
      report := Report(jid, fields);
      ReportAtLeastEight(jid, fields);
      state := WaitAssignment;
    }

    /** One step of the FSM driver. The messages it sends: the route request
        from RequestRoute, the report from DeliverParcel, nothing otherwise. */
    method Step(msg: Option<Message>, now: string, thread: string, window: Window)
      returns (sent: seq<Message>, consumed: nat)
      requires Valid()
      modifies this
      ensures Valid() && Registered(old(state), state)
      ensures consumed <= |window|
      ensures old(state) == WaitAssignment ==> sent == []
      ensures old(state) == RequestRoute ==> sent == [RouteRequest(jid, thread)]
      ensures old(state) == DeliverParcel ==>
        |sent| == 1 && Matches(sent[0], "inform", "delivery_report") && |Split(sent[0].body, '|')| >= 8
    {
      sent, consumed := [], 0;
      if state == WaitAssignment {
        RunWaitAssignment(msg, now);
      } else if state == RequestRoute {
        var request;
        request, consumed := RunRequestRoute(thread, window);
        sent := [request];
      } else {
        var report := RunDeliverParcel(now);
        sent := [report];
      }
    }
  }
}
