/** The database agent (agents/database_agent.py): two SQLite tables, kept
    here as a map from parcel id to its row and a list of delivery-log rows,
    written by `update` messages and read by `query` messages. */
module Database {
  import opened Py
  import opened Spade

  /** A row of `parcels`, keyed by its id. `updatedAt` is NULL until a
      delivery log names the parcel. */
  datatype ParcelRow = ParcelRow(urgency: string, status: string, info: string, createdAt: string, updatedAt: Option<string>)

  /** A row of `delivery_log` (the autoincrement key is the row's position). */
  datatype LogRow = LogRow(parcelId: string, status: string, timestamp: string)

  /** The body of the answer for a parcel that has no row. */
  function NotFound(parcelId: string): string
  {
    parcelId + "|NOT_FOUND|-"
  }

  /** `"|".join` of the selected id, status and info. */
  function RowBody(parcelId: string, row: ParcelRow): string
  {
    Join([parcelId, row.status, row.info], '|')
  }

  /** The answer to a parcel query, as the customer reads it back with
      `split('|', 2)`: three fields, whatever the info holds. */
  lemma RowBodyRoundTrip(parcelId: string, row: ParcelRow)
    ensures '|' !in parcelId && '|' !in row.status ==>
      SplitMax(RowBody(parcelId, row), '|', 2) == [parcelId, row.status, row.info]
  {
    if '|' !in parcelId && '|' !in row.status {
      SplitMaxJoin([parcelId, row.status, row.info], '|', 2);
    }
  }

  lemma NotFoundRoundTrip(parcelId: string)
    ensures '|' !in parcelId ==> SplitMax(NotFound(parcelId), '|', 2) == [parcelId, "NOT_FOUND", "-"]
  {
    if '|' !in parcelId {
      var parts := [parcelId, "NOT_FOUND", "-"];
      assert parts[1..] == ["NOT_FOUND", "-"] && parts[1..][1..] == ["-"];
      assert Join(parts[1..], '|') == "NOT_FOUND" + ['|'] + "-";
      assert NotFound(parcelId) == Join(parts, '|');
      SplitMaxJoin([parcelId, "NOT_FOUND", "-"], '|', 2);
    }
  }

  class DatabaseAgent {
    var parcels: map<string, ParcelRow>
    var deliveryLog: seq<LogRow>
    /** Whether DatabaseHandler is still alive: SPADE kills a behaviour
        whose `run` raises, and never runs it again. */
    var handlerRunning: bool

    /** Every id and status the agent writes is a `|`-free field of a message body. */
    ghost predicate Valid()
      reads this
    {
      forall id | id in parcels :: '|' !in id && '|' !in parcels[id].status
    }

    /** `setup_db` on a new database file: both tables empty. */
    constructor ()
      ensures Valid() && parcels == map[] && deliveryLog == [] && handlerRunning
    {
      parcels := map[];
      deliveryLog := [];
      handlerRunning := true;
    }

    /** The body of the answer to a query for `parcelId`: the row's id,
        status and info, or the not-found line. */
    function QueryBody(parcelId: string): (body: string)
      reads this
      ensures Valid() && parcelId in parcels ==>
        SplitMax(body, '|', 2) == [parcelId, parcels[parcelId].status, parcels[parcelId].info]
      ensures parcelId !in parcels && '|' !in parcelId ==>
        SplitMax(body, '|', 2) == [parcelId, "NOT_FOUND", "-"]
    {
      if parcelId in parcels then
        RowBodyRoundTrip(parcelId, parcels[parcelId]); RowBody(parcelId, parcels[parcelId])
      else
        NotFoundRoundTrip(parcelId); NotFound(parcelId)
    }

    /** `parcel_log`: the body must split on its first three `|` into id,
        urgency, status and info, else ValueError; an id already present is
        an IntegrityError; otherwise the row is inserted, created at `now`. */
    method LogParcel(body: string, now: string) returns (outcome: Outcome)
      requires Valid()
      modifies this
      ensures Valid() && deliveryLog == old(deliveryLog) && handlerRunning == old(handlerRunning)
      ensures var parts := SplitMax(body, '|', 3);
        && (|parts| != 4 ==> outcome == Raised(ValueError) && parcels == old(parcels))
        && (|parts| == 4 && parts[0] in old(parcels) ==> outcome == Raised(IntegrityError) && parcels == old(parcels))
        && (|parts| == 4 && parts[0] !in old(parcels) ==>
              outcome == Completed && parcels == old(parcels)[parts[0] := ParcelRow(parts[1], parts[2], parts[3], now, None)])
    {
      var parts := SplitMax(body, '|', 3);
      if |parts| != 4 {
        return Raised(ValueError);
      }
      if parts[0] in parcels {
        return Raised(IntegrityError);
      }
      parcels := parcels[parts[0] := ParcelRow(parts[1], parts[2], parts[3], now, None)];
      outcome := Completed;
    }

    /** `delivery_log`: the body must split into exactly id, status and
        timestamp, else ValueError. The parcel's row, if there is one, takes
        the status and the timestamp; a log row is appended in every case
        (foreign keys are not enforced). */
    method LogDelivery(body: string) returns (outcome: Outcome)
      requires Valid()
      modifies this
      ensures Valid() && handlerRunning == old(handlerRunning)
      ensures var parts := Split(body, '|');
        && (|parts| != 3 ==> outcome == Raised(ValueError) && parcels == old(parcels) && deliveryLog == old(deliveryLog))
        && (|parts| == 3 ==>
              && outcome == Completed
              && deliveryLog == old(deliveryLog) + [LogRow(parts[0], parts[1], parts[2])]
              && parcels.Keys == old(parcels).Keys
              && (parts[0] in old(parcels) ==>
                    parcels[parts[0]] == old(parcels)[parts[0]].(status := parts[1], updatedAt := Some(parts[2])))
              && (forall id | id in parcels && id != parts[0] :: parcels[id] == old(parcels)[id]))
    {
      var parts := Split(body, '|');
      if |parts| != 3 {
        return Raised(ValueError);
      }
      if parts[0] in parcels {
        parcels := parcels[parts[0] := parcels[parts[0]].(status := parts[1], updatedAt := Some(parts[2]))];
      }
      deliveryLog := deliveryLog + [LogRow(parts[0], parts[1], parts[2])];
      outcome := Completed;
    }

    /** The answer to a `parcel_info` query: back to the sender, on the
        query's thread, performative `inform` and no type. */
    function QueryReply(query: Message): (reply: Message)
      reads this
      ensures reply.to == query.sender && reply.thread == query.thread
      ensures reply.performative == Some("inform") && reply.msgType == None
      ensures reply.body == QueryBody(query.body)
    {
      Message(query.sender, DatabaseJid, query.thread, Some("inform"), None, QueryBody(query.body))
    }

    /** DatabaseHandler.run: dispatch on performative and type; anything
        else, and no message at all, is ignored. Only a query answers, only
        `parcel_log` can add a parcel row, and only `delivery_log` can touch
        the log. A raise kills the behaviour: from then on it handles nothing. */
    method Handle(msg: Option<Message>, now: string) returns (sent: seq<Message>, outcome: Outcome)
      requires Valid()
      modifies this
      ensures Valid()
      ensures handlerRunning == (old(handlerRunning) && outcome == Completed)
      ensures !old(handlerRunning) || msg.None? ==>
        sent == [] && outcome == Completed && parcels == old(parcels) && deliveryLog == old(deliveryLog)
      ensures sent != [] ==> msg.Some? && Matches(msg.value, "query", "parcel_info") && sent == [QueryReply(msg.value)]
      ensures old(handlerRunning) && msg.Some? && Matches(msg.value, "query", "parcel_info") ==> sent != []
      ensures old(handlerRunning) && msg.Some? && Matches(msg.value, "update", "parcel_log") ==>
        var parts := SplitMax(msg.value.body, '|', 3);
        && sent == [] && deliveryLog == old(deliveryLog)
        && (|parts| != 4 ==> outcome == Raised(ValueError) && parcels == old(parcels))
        && (|parts| == 4 && parts[0] in old(parcels) ==> outcome == Raised(IntegrityError) && parcels == old(parcels))
        && (|parts| == 4 && parts[0] !in old(parcels) ==>
              outcome == Completed && parcels == old(parcels)[parts[0] := ParcelRow(parts[1], parts[2], parts[3], now, None)])
      ensures old(handlerRunning) && msg.Some? && Matches(msg.value, "update", "delivery_log") ==>
        var parts := Split(msg.value.body, '|');
        && sent == []
        && (|parts| != 3 ==> outcome == Raised(ValueError) && parcels == old(parcels) && deliveryLog == old(deliveryLog))
        && (|parts| == 3 ==>
              && outcome == Completed
              && deliveryLog == old(deliveryLog) + [LogRow(parts[0], parts[1], parts[2])]
              && parcels.Keys == old(parcels).Keys
              && (parts[0] in old(parcels) ==>
                    parcels[parts[0]] == old(parcels)[parts[0]].(status := parts[1], updatedAt := Some(parts[2])))
              && (forall id | id in parcels && id != parts[0] :: parcels[id] == old(parcels)[id]))
      ensures msg.Some? && !Matches(msg.value, "update", "parcel_log") && !Matches(msg.value, "update", "delivery_log") ==>
        parcels == old(parcels) && deliveryLog == old(deliveryLog) && outcome == Completed
    {
      sent, outcome := [], Completed;
      if !handlerRunning || msg.None? {
        return;
      }
      var m := msg.value;
      if m.performative == Some("update") {
        if m.msgType == Some("parcel_log") {
          outcome := LogParcel(m.body, now);
        } else if m.msgType == Some("delivery_log") {
          outcome := LogDelivery(m.body);
        }
      } else if m.performative == Some("query") {
        if m.msgType == Some("parcel_info") {
          sent := [QueryReply(m)];
        }
      }
      handlerRunning := outcome == Completed;
    }
  }
}
