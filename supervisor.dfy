/** The supervisor (agents/supervisor_agent.py): a last-write-wins map of
    courier status, a load balancer that picks the least-loaded eligible
    courier, a relay of delivery reports to the database, and a proxy for
    parcel-status queries. Each handler step is modelled on its own; the
    interleaving of the two behaviours is not. */
module Supervisor {
  import opened Py
  import opened Spade

  /** One value of `courier_stats`. */
  datatype CourierStats = CourierStats(
    location: string,
    battery: real,
    load: string,       // "count/capacity", kept as text
    isBusy: bool,
    lastUpdated: string)

  // ---------------------------------------------------------------------------
  // courier_status
  // ---------------------------------------------------------------------------

  /** A `courier_status` body `jid|loc|bat|load|busy`, unpacked; `None` where
      Python raises (not exactly five fields, or a battery that is not a number). */
  function ParseStatus(body: string, now: string): Option<(string, CourierStats)>
  {
    var f := Split(body, '|');
    if |f| != 5 then None
    else match ParseFloat(f[2])
      case None => None
      case Some(b) => Some((f[0], CourierStats(f[1], b, f[3], f[4] == "True", now)))
  }

  /** The body format the handler expects (no agent here emits it). */
  function StatusBody(jid: string, location: string, battery: string, load: string, busy: string): string
  {
    Join([jid, location, battery, load, busy], '|')
  }

  /** A well-formed status body reads back field for field, and the courier
      counts as busy exactly when the last field is the text `True`. */
  lemma StatusRoundTrip(jid: string, location: string, battery: string, load: string, busy: string, now: string)
    requires NoSeparator([jid, location, battery, load, busy], '|')
    requires ParseFloat(battery).Some?
    ensures ParseStatus(StatusBody(jid, location, battery, load, busy), now)
         == Some((jid, CourierStats(location, ParseFloat(battery).value, load, busy == "True", now)))
  {
    SplitJoin([jid, location, battery, load, busy], '|');
  }

  /** A status body is accepted exactly when it has five fields and the third
      reads as a number; the entry is keyed by the first field and stamped
      with the time of receipt. */
  lemma StatusAccepted(body: string, now: string)
    ensures var f := Split(body, '|');
      && (ParseStatus(body, now).Some? <==> |f| == 5 && ParseFloat(f[2]).Some?)
      && (ParseStatus(body, now).Some? ==>
            ParseStatus(body, now).value.0 == f[0]
            && ParseStatus(body, now).value.1.battery == ParseFloat(f[2]).value
            && ParseStatus(body, now).value.1.lastUpdated == now)
  {
  }

  /** A status body with any other number of fields is refused. */
  lemma StatusNeedsFiveFields(body: string, now: string)
    requires |Split(body, '|')| != 5
    ensures ParseStatus(body, now).None?
  {
  }

  // ---------------------------------------------------------------------------
  // Load balancing
  // ---------------------------------------------------------------------------

  /** A courier may take a parcel: not busy and battery strictly above 25. */
  predicate Eligible(s: CourierStats)
  {
    !s.isBusy && s.battery > 25.0
  }

  /** The selection key, `int(load.split('/')[0])`; `None` where `int` raises. */
  function LoadKey(s: CourierStats): Option<int>
  {
    ParseInt(Split(s.load, '/')[0])
  }

  /** How `min` over the eligible couriers ends. */
  datatype Selection =
    | Best(index: nat, key: int)  // position in insertion order of the chosen courier, and its load
    | NoCandidate        // the eligible list is empty
    | KeyFailed          // `int` raised on some eligible courier's load

  /** `min(..., key=...)` over the entries whose flag is set, as one
      left-to-right scan: an entry replaces the current best only with a
      strictly smaller key, so the first of equal keys wins; a key that is
      `None` (its computation raised) makes the whole `min` raise. */
  function MinScan(eligible: seq<bool>, keys: seq<Option<int>>): (r: Selection)
    requires |eligible| == |keys|
    ensures r.Best? ==> r.index < |keys|
    decreases |keys|
  {
    if keys == [] then NoCandidate
    else
      var n := |keys| - 1;
      var prev := MinScan(eligible[..n], keys[..n]);
      if !eligible[n] then prev
      else if prev.KeyFailed? || keys[n].None? then KeyFailed
      else if prev.NoCandidate? || keys[n].value < prev.key then Best(n, keys[n].value)
      else prev
  }

  /** Is `i` the first flagged entry of least key among the flagged entries? */
  ghost predicate FirstLeastAt(eligible: seq<bool>, keys: seq<Option<int>>, i: nat, key: int)
    requires |eligible| == |keys|
  {
    && i < |keys| && eligible[i] && keys[i] == Some(key)
    && (forall j :: 0 <= j < |keys| && eligible[j] ==> keys[j].Some? && key <= keys[j].value)
    && (forall j :: 0 <= j < i && eligible[j] ==> key < keys[j].value)
  }

  lemma {:induction false} MinScanCharacterised(eligible: seq<bool>, keys: seq<Option<int>>)
    requires |eligible| == |keys|
    ensures MinScan(eligible, keys).KeyFailed? <==> exists j :: 0 <= j < |keys| && eligible[j] && keys[j].None?
    ensures MinScan(eligible, keys).NoCandidate? <==> forall j :: 0 <= j < |keys| ==> !eligible[j]
    ensures MinScan(eligible, keys).Best? ==>
      FirstLeastAt(eligible, keys, MinScan(eligible, keys).index, MinScan(eligible, keys).key)
    decreases |keys|
  {
    if keys != [] {
      var n := |keys| - 1;
      var e, k := eligible[..n], keys[..n];
      MinScanCharacterised(e, k);
      assert forall j :: 0 <= j < n ==> e[j] == eligible[j] && k[j] == keys[j];
      var prev := MinScan(e, k);
      if !eligible[n] {
        if prev.Best? {
          assert FirstLeastAt(e, k, prev.index, prev.key);
        }
      } else if prev.KeyFailed? {
        var j :| 0 <= j < n && e[j] && k[j].None?;
        assert eligible[j] && keys[j].None?;
      } else if keys[n].None? {
      } else if prev.NoCandidate? {
        assert FirstLeastAt(eligible, keys, n, keys[n].value);
      } else {
        assert FirstLeastAt(e, k, prev.index, prev.key);
        if keys[n].value < prev.key {
          assert FirstLeastAt(eligible, keys, n, keys[n].value);
        } else {
          assert FirstLeastAt(eligible, keys, prev.index, prev.key);
        }
      }
    }
  }

  /** The eligibility flags of the items. */
  function EligibleFlags(items: seq<(string, CourierStats)>): (r: seq<bool>)
    ensures |r| == |items| && forall i :: 0 <= i < |items| ==> r[i] == Eligible(items[i].1)
  {
    if items == [] then [] else [Eligible(items[0].1)] + EligibleFlags(items[1..])
  }

  /** The load keys of the items. */
  function LoadKeys(items: seq<(string, CourierStats)>): (r: seq<Option<int>>)
    ensures |r| == |items| && forall i :: 0 <= i < |items| ==> r[i] == LoadKey(items[i].1)
  {
    if items == [] then [] else [LoadKey(items[0].1)] + LoadKeys(items[1..])
  }

  /** The list comprehension of eligible couriers followed by
      `min(..., key=load)`, over the map's items in insertion order. */
  function SelectIndex(items: seq<(string, CourierStats)>): (r: Selection)
    ensures r.Best? ==> r.index < |items|
  {
    MinScan(EligibleFlags(items), LoadKeys(items))
  }

  /** What the selection means: it raises exactly when some eligible
      courier's load does not parse; it finds nobody exactly when nobody is
      eligible; otherwise it names an eligible courier whose load is no
      greater than any eligible courier's and strictly smaller than that of
      every eligible courier inserted before it. */
  lemma SelectionCharacterised(items: seq<(string, CourierStats)>)
    ensures SelectIndex(items).KeyFailed? <==>
      exists j :: 0 <= j < |items| && Eligible(items[j].1) && LoadKey(items[j].1).None?
    ensures SelectIndex(items).NoCandidate? <==> forall j :: 0 <= j < |items| ==> !Eligible(items[j].1)
    ensures SelectIndex(items).Best? ==>
      var i, key := SelectIndex(items).index, SelectIndex(items).key;
      && Eligible(items[i].1) && LoadKey(items[i].1) == Some(key)
      && (forall j :: 0 <= j < |items| && Eligible(items[j].1) ==> LoadKey(items[j].1).Some? && key <= LoadKey(items[j].1).value)
      && (forall j :: 0 <= j < i && Eligible(items[j].1) ==> key < LoadKey(items[j].1).value)
  {
    var e, k := EligibleFlags(items), LoadKeys(items);
    MinScanCharacterised(e, k);
    var r := SelectIndex(items);
    if r.KeyFailed? {
      var j :| 0 <= j < |k| && e[j] && k[j].None?;
      assert Eligible(items[j].1) && LoadKey(items[j].1).None?;
    }
    if r.Best? {
      assert FirstLeastAt(e, k, r.index, r.key);
    }
  }

  /** The reply body: the chosen jid, or `NONE` when there is none. A chosen
      jid that is the empty string is falsy in Python and also becomes `NONE`. */
  function ResponseBody(items: seq<(string, CourierStats)>, sel: Selection): (body: string)
    requires sel.Best? ==> sel.index < |items|
    ensures body == "NONE" <==> !sel.Best? || items[sel.index].0 in {"", "NONE"}
  {
    if sel.Best? && items[sel.index].0 != "" then items[sel.index].0 else "NONE"
  }

  /** The reply to a best-courier request: to its sender, on its thread. */
  function BestCourierResponse(request: Message, body: string): Message
  {
    Message(request.sender, SupervisorJid, request.thread, Some("inform"), Some("best_courier_response"), body)
  }

  /** The template the load balancer is registered with in `setup`. */
  predicate LoadBalancerTemplate(m: Message)
  {
    Matches(m, "request", "best_courier_request")
  }

  // ---------------------------------------------------------------------------
  // delivery_report and parcel_status_query
  // ---------------------------------------------------------------------------

  /** The database update relayed for a `delivery_report` body
      `parcel_id|status|timestamp`; `None` where the unpacking raises. The
      relayed body is the report body itself. */
  function ReportRelay(body: string): (r: Option<Message>)
    ensures r.Some? <==> |Split(body, '|')| == 3
    ensures r.Some? ==> r.value.to == DatabaseJid && Matches(r.value, "update", "delivery_log")
    ensures r.Some? ==> r.value.body == body
  {
    var f := Split(body, '|');
    if |f| != 3 then None
    else
      JoinSplit(body, '|');
      assert f == [f[0], f[1], f[2]];
      Some(Message(DatabaseJid, SupervisorJid, None, Some("update"), Some("delivery_log"), Join([f[0], f[1], f[2]], '|')))
  }

  /** The point query put to the database for a parcel id, on a fresh thread. */
  function DbQuery(parcelId: string, thread: string): Message
  {
    Message(DatabaseJid, SupervisorJid, Some(thread), Some("query"), Some("parcel_info"), parcelId)
  }

  /** What a `parcel_status_query` makes the supervisor send: the database
      query, then, only if the one message received next is on the query's
      thread, that message's body to the customer as a `status_update`. */
  function QueryProxy(query: Message, thread: string, next: Option<Message>): (sent: seq<Message>)
    ensures 1 <= |sent| <= 2 && sent[0] == DbQuery(query.body, thread)
    ensures |sent| == 2 <==> OnThread(next, thread)
    ensures |sent| == 2 ==> sent[1].to == query.sender && Matches(sent[1], "inform", "status_update")
    ensures |sent| == 2 ==> sent[1].body == next.value.body
  {
    var q := DbQuery(query.body, thread);
    if next.Some? && next.value.thread == q.thread then
      [q, Message(query.sender, SupervisorJid, None, Some("inform"), Some("status_update"), next.value.body)]
    else [q]
  }

  // ---------------------------------------------------------------------------
  // The agent
  // ---------------------------------------------------------------------------

  /** The items of `stats` in the order the keys were first inserted. */
  function ItemsOf(order: seq<string>, stats: map<string, CourierStats>): (r: seq<(string, CourierStats)>)
    requires forall j :: j in order ==> j in stats
    ensures |r| == |order|
    ensures forall i :: 0 <= i < |r| ==> r[i] == (order[i], stats[order[i]])
  {
    if order == [] then []
    else ItemsOf(order[..|order| - 1], stats) + [(order[|order| - 1], stats[order[|order| - 1]])]
  }

  class SupervisorAgent {
    var courierStats: map<string, CourierStats>
    /** The keys of `courierStats` in insertion order (a dict keeps it; an
        overwrite keeps the key's place). */
    var courierOrder: seq<string>
    /** Whether each cyclic behaviour is still alive: SPADE kills a
        behaviour whose `run` raises, and never runs it again. */
    var monitorRunning: bool
    var balancerRunning: bool

    ghost predicate Valid()
      reads this
    {
      && (forall j :: j in courierStats <==> j in courierOrder)
      && Distinct(courierOrder)
    }

    function Items(): seq<(string, CourierStats)>
      reads this
      requires Valid()
    {
      ItemsOf(courierOrder, courierStats)
    }

    constructor ()
      ensures Valid() && courierStats == map[] && courierOrder == []
      ensures monitorRunning && balancerRunning
    {
      courierStats := map[];
      courierOrder := [];
      monitorRunning, balancerRunning := true, true;
    }

    /** The `courier_status` branch: overwrite the entry for the jid in the
        body, leave every other entry alone; on a malformed body, raise and
        change nothing. */
    method UpdateStatus(body: string, now: string) returns (outcome: Outcome)
      requires Valid()
      modifies this
      ensures Valid()
      ensures monitorRunning == old(monitorRunning) && balancerRunning == old(balancerRunning)
      ensures ParseStatus(body, now).None? ==>
        outcome == Raised(ValueError) && courierStats == old(courierStats) && courierOrder == old(courierOrder)
      ensures ParseStatus(body, now).Some? ==>
        var (jid, stats) := ParseStatus(body, now).value;
        && outcome == Completed
        && courierStats == old(courierStats)[jid := stats]
        && courierOrder == (if jid in old(courierStats) then old(courierOrder) else old(courierOrder) + [jid])
    {
      match ParseStatus(body, now)
      case None =>
        outcome := Raised(ValueError);
      case Some((jid, stats)) =>
        if jid !in courierStats {
          courierOrder := courierOrder + [jid];
        }
        courierStats := courierStats[jid := stats];
        outcome := Completed;
    }

    /** MonitorAndQueryHandler.run for one received message `msg` (or a
        timeout). `thread` is the fresh id of a database query and `next` what
        the handler's single follow-up `receive` returns. A raise kills the
        behaviour: from then on it handles nothing. */
    method RunMonitor(msg: Option<Message>, now: string, thread: string, next: Option<Message>)
      returns (sent: seq<Message>, outcome: Outcome)
      requires Valid()
      modifies this
      ensures Valid() && balancerRunning == old(balancerRunning)
      ensures monitorRunning == (old(monitorRunning) && outcome == Completed)
      ensures !old(monitorRunning) ==>
        sent == [] && outcome == Completed && courierStats == old(courierStats) && courierOrder == old(courierOrder)
      ensures msg.None? || msg.value.msgType != Some("courier_status") ==>
        courierStats == old(courierStats) && courierOrder == old(courierOrder)
      ensures old(monitorRunning) && msg.Some? && msg.value.msgType == Some("courier_status") ==>
        && sent == []
        && (ParseStatus(msg.value.body, now).None? ==>
              outcome == Raised(ValueError) && courierStats == old(courierStats) && courierOrder == old(courierOrder))
        && (ParseStatus(msg.value.body, now).Some? ==>
              var (jid, stats) := ParseStatus(msg.value.body, now).value;
              && outcome == Completed
              && courierStats == old(courierStats)[jid := stats]
              && courierOrder == (if jid in old(courierStats) then old(courierOrder) else old(courierOrder) + [jid]))
      ensures old(monitorRunning) && msg.Some? && msg.value.msgType == Some("delivery_report") ==>
        match ReportRelay(msg.value.body)
        case None => sent == [] && outcome == Raised(ValueError)
        case Some(m) => sent == [m] && outcome == Completed
      ensures old(monitorRunning) && msg.Some? && msg.value.msgType == Some("parcel_status_query") ==>
        sent == QueryProxy(msg.value, thread, next) && outcome == Completed
      ensures msg.None? || msg.value.msgType !in {Some("courier_status"), Some("delivery_report"), Some("parcel_status_query")} ==>
        sent == [] && outcome == Completed
    {
      sent, outcome := [], Completed;
      if !monitorRunning || msg.None? {
        return;
      }
      var m := msg.value;
      if m.msgType == Some("courier_status") {
        outcome := UpdateStatus(m.body, now);
      } else if m.msgType == Some("delivery_report") {
        match ReportRelay(m.body)
        case None =>
          outcome := Raised(ValueError);
        case Some(dbMsg) =>
          sent := [dbMsg];
      } else if m.msgType == Some("parcel_status_query") {
        sent := QueryProxy(m, thread, next);
      }
      monitorRunning := outcome == Completed;
    }

    /** LoadBalancer.run for one received message: on a best-courier request,
        answer its sender on its thread with the least-loaded eligible
        courier or `NONE`; raise, sending nothing, if a load does not parse,
        which kills the behaviour. */
    method RunLoadBalancer(msg: Option<Message>) returns (sent: seq<Message>, outcome: Outcome)
      requires Valid()
      modifies this
      ensures courierStats == old(courierStats) && courierOrder == old(courierOrder)
      ensures monitorRunning == old(monitorRunning)
      ensures balancerRunning == (old(balancerRunning) && outcome == Completed)
      ensures !old(balancerRunning) || msg.None? || msg.value.msgType != Some("best_courier_request") ==>
        sent == [] && outcome == Completed
      ensures old(balancerRunning) && msg.Some? && msg.value.msgType == Some("best_courier_request") ==>
        var sel := SelectIndex(Items());
        && (sel.KeyFailed? ==> sent == [] && outcome == Raised(ValueError))
        && (!sel.KeyFailed? ==>
              outcome == Completed && |sent| == 1
              && sent[0].to == msg.value.sender && sent[0].thread == msg.value.thread
              && sent[0].body == ResponseBody(Items(), sel))
    {
      sent, outcome := [], Completed;
      if balancerRunning && msg.Some? && msg.value.msgType == Some("best_courier_request") {
        var items := Items();
        var sel := SelectIndex(items);
        if sel.KeyFailed? {
          outcome := Raised(ValueError);
          balancerRunning := false;
        } else {
          sent := [BestCourierResponse(msg.value, ResponseBody(items, sel))];
        }
      }
    }
  }

  // ---------------------------------------------------------------------------
  // Load keys and selections in particular cases
  // ---------------------------------------------------------------------------

  /** The key of a load written `n/capacity` is `n`. */
  lemma LoadKeyOf(s: CourierStats, n: nat, capacity: string)
    requires s.load == Decimal(n) + "/" + capacity
    ensures LoadKey(s) == Some(n)
  {
    assert '/' !in Decimal(n);
    SplitAfterPiece(Decimal(n), capacity, '/');
    ParseIntDecimal(n);
  }

  /** Three eligible couriers with load keys 2, 0 and 4: the second is
      chosen, and the reply names it. */
  lemma LeastKeyChosen(c1: string, c2: string, c3: string, s1: CourierStats, s2: CourierStats, s3: CourierStats)
    requires c2 != ""
    requires LoadKey(s1) == Some(2) && LoadKey(s2) == Some(0) && LoadKey(s3) == Some(4)
    requires Eligible(s1) && Eligible(s2) && Eligible(s3)
    ensures SelectIndex([(c1, s1), (c2, s2), (c3, s3)]) == Best(1, 0)
    ensures ResponseBody([(c1, s1), (c2, s2), (c3, s3)], Best(1, 0)) == c2
  {
    var items := [(c1, s1), (c2, s2), (c3, s3)];
    SelectionCharacterised(items);
    var r := SelectIndex(items);
    assert !r.KeyFailed? && !r.NoCandidate? by {
      assert Eligible(items[0].1);
    }
    assert r.key <= 0 by {
      assert Eligible(items[1].1) && LoadKey(items[1].1) == Some(0);
    }
    assert r.index == 1;
  }

  /** All couriers busy: no candidate, and the reply body is `NONE`. */
  lemma AllBusyNone(items: seq<(string, CourierStats)>)
    requires forall j :: 0 <= j < |items| ==> items[j].1.isBusy
    ensures SelectIndex(items) == NoCandidate && ResponseBody(items, NoCandidate) == "NONE"
  {
    SelectionCharacterised(items);
  }
}
