/** How the agents' messages meet: what each receiver does with what the
    others actually send. Several type strings disagree between sender and
    receiver, and these lemmas state the consequences. */
module Wiring {
  import opened Py
  import opened Spade
  import Warehouse
  import Supervisor
  import Courier
  import Database
  import Customer
  import Gis
  import Traffic

  /** The monitor's three handled types. */
  predicate MonitorHandles(m: Message)
  {
    m.msgType in {Some("courier_status"), Some("delivery_report"), Some("parcel_status_query")}
  }

  /** The warehouse asks for a courier with type `load_balance`: the load
      balancer's template rejects it and the monitor ignores its type, so the
      supervisor never answers it. */
  lemma LoadRequestUnanswered(thread: string)
    ensures !Supervisor.LoadBalancerTemplate(Warehouse.LoadRequest(thread))
    ensures !MonitorHandles(Warehouse.LoadRequest(thread))
  {
  }

  /** With no answer on its thread, the warehouse puts the parcel back: the
      chosen courier for a window without a reply on the thread is none. */
  lemma UnansweredRequeues(window: Window, thread: string)
    requires forall j :: 0 <= j < |window| ==> !OnThread(window[j], thread)
    ensures Warehouse.ChosenCourier(ReplyOnThread(window, thread)) == None
  {
  }

  /** The customer orders with type `parcel_creation`; the warehouse queues
      only type `parcel`. A wait window holding nothing but customer orders
      (and timeouts) queues nothing. */
  lemma {:induction false} OrdersNeverQueued(window: Window)
    requires forall j :: 0 <= j < |window| ==>
      window[j].None? || exists id, u, d :: window[j].value == Customer.OrderMessage(id, u, d)
    ensures Warehouse.Accepted(window) == []
  {
    forall j | 0 <= j < |window|
      ensures !Warehouse.IsParcelRequest(window[j])
    {
      if window[j].Some? {
        var id, u, d :| window[j].value == Customer.OrderMessage(id, u, d);
        assert window[j].value.msgType == Some("parcel_creation");
      }
    }
    Warehouse.AcceptedNone(window);
  }

  /** The customer asks about a parcel with type `parcel_status`; the
      monitor only answers `parcel_status_query`, so the query is ignored. */
  lemma TrackQueryIgnored(id: string)
    ensures !MonitorHandles(Customer.TrackMessage(id))
  {
  }

  /** The courier reports eight `|`-separated fields; the supervisor unpacks
      exactly three, so every report raises and nothing reaches the database. */
  lemma ReportNeverRelayed(courier: string, fields: seq<string>)
    requires |fields| == 8
    ensures Supervisor.ReportRelay(Courier.Report(courier, fields).body) == None
  {
    Courier.ReportAtLeastEight(courier, fields);
  }

  /** The courier's route request fits the traffic agent's template, and the
      traffic agent's answer, arriving after any unrelated messages, is the
      route the courier records. */
  lemma {:induction false} TrafficAnswersCourier(courier: string, thread: string, choice: nat, noise: Window, later: Window)
    requires choice < |Traffic.Routes|
    requires forall j :: 0 <= j < |noise| ==> !OnThread(noise[j], thread)
    ensures Traffic.Template(Courier.RouteRequest(courier, thread))
    ensures var reply := Traffic.HandleRequest(Some(Courier.RouteRequest(courier, thread)), choice);
      && |reply| == 1 && reply[0].to == courier
      && Courier.RouteFrom(noise + [Some(reply[0])] + later, thread) == reply[0].body
      && reply[0].body in Traffic.Routes
  {
    var reply := Traffic.HandleRequest(Some(Courier.RouteRequest(courier, thread)), choice);
    ReplyAfterNoise(noise, reply[0], later, thread);
  }

  /** The courier addresses its route request to the traffic agent's
      address, which is not the address the GIS agent runs under, so the GIS
      agent never receives it. */
  lemma CourierAsksTrafficAddress(courier: string, thread: string)
    ensures Courier.RouteRequest(courier, thread).to == TrafficJid
    ensures TrafficJid != GisJid
  {
    assert TrafficJid[0] != GisJid[0];
  }

  /** Were the courier's request delivered to the GIS agent, its template
      would refuse it (type `route`, not `route_request`), and its handler
      would ignore it as well. */
  lemma GisIgnoresCourier(courier: string, thread: string, k: nat)
    requires 1 <= k <= 3
    ensures !Gis.Template(Courier.RouteRequest(courier, thread))
    ensures Gis.HandleRequest(Some(Courier.RouteRequest(courier, thread)), k) == ([], Completed)
  {
  }

  /** With nobody answering on its thread, the courier delivers with the sentinel route. */
  lemma NoRouteSentinel(window: Window, thread: string)
    requires forall j :: 0 <= j < |window| ==> !OnThread(window[j], thread)
    ensures Courier.RouteFrom(window, thread) == Courier.RouteUnavailable
  {
  }

  /** Read as a courier assignment, a customer order yields its id, its
      urgency in the version slot, its description as info, and no position. */
  lemma OrderAsAssignment(id: string, u: Customer.Urgency, d: Customer.Destination)
    requires '|' !in id
    ensures Courier.ParseAssignment(Customer.OrderBody(id, u, d))
         == Courier.ParcelFields(id, Customer.UrgencyName(u), Customer.Info(d), "", "")
  {
    Courier.AssignmentThreeFields(id, Customer.UrgencyName(u), Customer.Info(d));
  }

  /** The supervisor's database query is what the database answers, and the
      database's reply, sent on the query's thread, is forwarded to the
      customer; for a parcel without a row the customer reads the status
      `NOT_FOUND`, which keeps the parcel trackable. */
  lemma {:induction false} NotFoundForwarded(query: Message, thread: string, dbReply: Message)
    requires '|' !in query.body
    requires dbReply.thread == Some(thread) && dbReply.body == Database.NotFound(query.body)
    ensures Matches(Supervisor.DbQuery(query.body, thread), "query", "parcel_info")
    ensures var sent := Supervisor.QueryProxy(query, thread, Some(dbReply));
      && |sent| == 2 && sent[1].to == query.sender
      && SplitMax(sent[1].body, '|', 2) == [query.body, "NOT_FOUND", "-"]
    ensures !Customer.Terminal("NOT_FOUND")
  {
    Database.NotFoundRoundTrip(query.body);
  }

  /** A well-formed relayed report is a `delivery_log` update the database
      accepts: its body has exactly the three fields the database unpacks. */
  lemma RelayedReportLogged(body: string)
    requires Supervisor.ReportRelay(body).Some?
    ensures Matches(Supervisor.ReportRelay(body).value, "update", "delivery_log")
    ensures |Split(Supervisor.ReportRelay(body).value.body, '|')| == 3
  {
  }
}
