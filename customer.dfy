/** The customer (agents/customer_agent.py): on each period it may order a
    parcel from the warehouse, then asks the supervisor about one parcel it
    is still waiting for; a second behaviour records the status updates it
    receives. The coin, the uuid and both `random.choice` calls are
    parameters: `create`, `id`, `urgency`, `destination` and `pick`. */
module Customer {
  import opened Py
  import opened Spade

  datatype Urgency = Low | Medium | High

  function UrgencyName(u: Urgency): (name: string)
    ensures '|' !in name
  {
    match u
    case Low => "low"
    case Medium => "medium"
    case High => "high"
  }

  datatype Destination = PiataUnirii | PiataVictoriei | IuliusTown

  function DestinationName(d: Destination): (name: string)
    ensures '|' !in name
  {
    match d
    case PiataUnirii => "Piata Unirii"
    case PiataVictoriei => "Piata Victoriei"
    case IuliusTown => "Iulius Town"
  }

  /** The parcel description an order carries. */
  function Info(d: Destination): (info: string)
    ensures '|' !in info
  {
    "Books and electronics, deliver to " + DestinationName(d)
  }

  /** The order body: id, urgency and description separated by `|`. */
  function OrderBody(id: string, u: Urgency, d: Destination): string
  {
    Join([id, UrgencyName(u), Info(d)], '|')
  }

  /** An order body reads back as its three fields, given an id without `|`
      (a uuid has none). */
  lemma OrderBodyFields(id: string, u: Urgency, d: Destination)
    requires '|' !in id
    ensures Split(OrderBody(id, u, d), '|') == [id, UrgencyName(u), Info(d)]
  {
    SplitJoin([id, UrgencyName(u), Info(d)], '|');
  }

  /** The order sent to the warehouse: performative `request`, type `parcel_creation`. */
  function OrderMessage(id: string, u: Urgency, d: Destination): Message
  {
    Message(WarehouseJid, CustomerJid, None, Some("request"), Some("parcel_creation"), OrderBody(id, u, d))
  }

  /** The status query sent to the supervisor: performative `query`, type
      `parcel_status`, the parcel id as body. */
  function TrackMessage(id: string): Message
  {
    Message(SupervisorJid, CustomerJid, None, Some("query"), Some("parcel_status"), id)
  }

  /** A parcel the customer no longer tracks. */
  predicate Terminal(status: string)
  {
    status == "DELIVERED" || status == "FAILED"
  }

  /** The ids of `order` whose status is not terminal, in order. */
  function Trackable(order: seq<string>, parcels: map<string, string>): (r: seq<string>)
    requires forall j :: j in order ==> j in parcels
    ensures |r| <= |order|
  {
    if order == [] then []
    else
      var last := order[|order| - 1];
      Trackable(order[..|order| - 1], parcels) + (if Terminal(parcels[last]) then [] else [last])
  }

  /** An id is trackable exactly when it has been ordered and its status is not terminal. */
  lemma {:induction false} TrackableExactly(order: seq<string>, parcels: map<string, string>, x: string)
    requires forall j :: j in order ==> j in parcels
    ensures x in Trackable(order, parcels) <==> x in order && !Terminal(parcels[x])
  {
    if order != [] {
      var init := order[..|order| - 1];
      TrackableExactly(init, parcels, x);
      assert order == init + [order[|order| - 1]];
    }
  }

  class CustomerAgent {
    /** `sent_parcels`: the status the customer last heard for each parcel it ordered. */
    var sentParcels: map<string, string>
    /** The keys of `sentParcels` in insertion order. */
    var order: seq<string>
    /** Whether StatusUpdateListener is still alive: SPADE kills a behaviour
        whose `run` raises, and never runs it again. */
    var listenerRunning: bool

    ghost predicate Valid()
      reads this
    {
      && (forall j :: j in sentParcels <==> j in order)
      && Distinct(order)
    }

    constructor ()
      ensures Valid() && sentParcels == map[] && order == [] && listenerRunning
    {
      sentParcels := map[];
      order := [];
      listenerRunning := true;
    }

    /** The ids the customer may ask about now. */
    function Tracked(): (r: seq<string>)
      reads this
      requires Valid()
      ensures forall x :: x in r <==> x in sentParcels && !Terminal(sentParcels[x])
    {
      var r := Trackable(order, sentParcels);
      assert forall x :: x in r <==> x in sentParcels && !Terminal(sentParcels[x]) by {
        forall x {
          TrackableExactly(order, sentParcels, x);
        }
      }
      r
    }

    /** OrderAndTrackBehaviour.run. With `create`, the order goes to the
        warehouse and the parcel is recorded as PENDING; then, if any parcel
        is still open, a query for the `pick`-th of them (cyclically) goes to
        the supervisor. A new order is always followed by a query. */
    method OrderAndTrack(create: bool, id: string, u: Urgency, d: Destination, pick: nat) returns (sent: seq<Message>)
      requires Valid()
      modifies this
      ensures Valid() && listenerRunning == old(listenerRunning)
      ensures create ==>
        && sentParcels == old(sentParcels)[id := "PENDING"]
        && order == (if id in old(sentParcels) then old(order) else old(order) + [id])
      ensures !create ==> sentParcels == old(sentParcels) && order == old(order)
      ensures var t := Tracked();
        sent == (if create then [OrderMessage(id, u, d)] else [])
              + (if t == [] then [] else [TrackMessage(t[pick % |t|])])
      ensures create ==> |sent| == 2
      ensures forall k | 0 <= k < |sent| && sent[k].msgType == Some("parcel_status") ::
        sent[k].body in sentParcels && !Terminal(sentParcels[sent[k].body])
    {
      sent := [];
      if create {
        sent := [OrderMessage(id, u, d)];
        if id !in sentParcels {
          order := order + [id];
        }
        sentParcels := sentParcels[id := "PENDING"];
      }
      var trackable := Tracked();
      if create {
        assert id in trackable;
      }
      if trackable != [] {
        var chosen := trackable[pick % |trackable|];
        sent := sent + [TrackMessage(chosen)];
      }
    }

    /** StatusUpdateListener.run: a message of type `status_update` is split
        into id, status and info on its first two `|` (fewer than three
        pieces raise ValueError, which kills the behaviour for good); a known
        id takes the status, an unknown one is ignored. Nothing is ever added. */
    method OnStatusUpdate(msg: Option<Message>) returns (outcome: Outcome)
      requires Valid()
      modifies this
      ensures Valid() && order == old(order) && sentParcels.Keys == old(sentParcels).Keys
      ensures listenerRunning == (old(listenerRunning) && outcome == Completed)
      ensures !old(listenerRunning) || !(msg.Some? && msg.value.msgType == Some("status_update")) ==>
        outcome == Completed && sentParcels == old(sentParcels)
      ensures old(listenerRunning) && msg.Some? && msg.value.msgType == Some("status_update") ==>
        var parts := SplitMax(msg.value.body, '|', 2);
        && (|parts| != 3 ==> outcome == Raised(ValueError) && sentParcels == old(sentParcels))
        && (|parts| == 3 ==>
              && outcome == Completed
              && sentParcels == if parts[0] in old(sentParcels) then old(sentParcels)[parts[0] := parts[1]] else old(sentParcels))
    {
      outcome := Completed;
      if listenerRunning && msg.Some? && msg.value.msgType == Some("status_update") {
        var parts := SplitMax(msg.value.body, '|', 2);
        if |parts| != 3 {
          listenerRunning := false;
          return Raised(ValueError);
        }
        if parts[0] in sentParcels {
          sentParcels := sentParcels[parts[0] := parts[1]];
        }
      }
    }
  }
}
