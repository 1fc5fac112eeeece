/** The warehouse (agents/warehouse_agent.py): a FIFO of parcel bodies, a
    single in-flight slot, and a two-state FSM that takes parcel requests in
    and asks the supervisor which courier gets the parcel in flight. */
module Warehouse {
  import opened Py
  import opened Spade

  datatype FsmState = WaitParcel | AssignCourier

  /** The transitions `setup` registers. */
  predicate Registered(source: FsmState, dest: FsmState)
  {
    || (source == WaitParcel && dest == AssignCourier)
    || (source == WaitParcel && dest == WaitParcel)
    || (source == AssignCourier && dest == WaitParcel)
  }

  /** The only messages the wait loop queues: performative `request`, type `parcel`. */
  predicate IsParcelRequest(m: Option<Message>)
  {
    m.Some? && Matches(m.value, "request", "parcel")
  }

  /** The bodies of the parcel requests in `window`, in arrival order. */
  function Accepted(window: Window): seq<string>
  {
    if window == [] then []
    else
      var last := window[|window| - 1];
      Accepted(window[..|window| - 1]) + (if IsParcelRequest(last) then [last.value.body] else [])
  }

  /** The request for a courier: type `load_balance`, on a fresh thread, no body. */
  function LoadRequest(thread: string): Message
  {
    Message(SupervisorJid, WarehouseJid, Some(thread), Some("request"), Some("load_balance"), "")
  }

  /** The assignment forwarded to the chosen courier; its body is the parcel itself. */
  function Assignment(courier: string, parcel: string): Message
  {
    Message(courier, WarehouseJid, None, Some("inform"), Some("parcel_assignment"), parcel)
  }

  /** The courier a supervisor reply names: its stripped body, unless that
      is `NONE`. No reply, or a reply reading `NONE`, names nobody. */
  function ChosenCourier(reply: Option<Message>): (c: Option<string>)
    ensures c.None? <==> reply.None? || Strip(reply.value.body) == "NONE"
    ensures c.Some? ==> c.value != "NONE" && c.value == Strip(reply.value.body)
  {
    if reply.None? then None
    else
      var c := Strip(reply.value.body);
      if c == "NONE" then None else Some(c)
  }

  /** The parcels handed to couriers by the messages in `sent`. */
  function Forwarded(sent: seq<Message>): seq<string>
  {
    if sent == [] then []
    else
      var last := sent[|sent| - 1];
      Forwarded(sent[..|sent| - 1]) + (if last.msgType == Some("parcel_assignment") then [last.body] else [])
  }

  lemma ForwardedRequestOnly(thread: string, courier: string, parcel: string)
    ensures Forwarded([LoadRequest(thread)]) == []
    ensures Forwarded([LoadRequest(thread), Assignment(courier, parcel)]) == [parcel]
  {
    assert [LoadRequest(thread), Assignment(courier, parcel)][..1] == [LoadRequest(thread)];
  }

  /** A reply whose body is a courier name padded with whitespace names
      that courier, unless the name is `NONE`. */
  lemma ChosenPadded(reply: Message, pre: string, name: string, post: string)
    requires forall k :: 0 <= k < |pre| ==> IsSpace(pre[k])
    requires forall k :: 0 <= k < |post| ==> IsSpace(post[k])
    requires name != [] && !IsSpace(name[0]) && !IsSpace(name[|name| - 1])
    requires reply.body == pre + name + post
    ensures ChosenCourier(Some(reply)) == if name == "NONE" then None else Some(name)
  {
    StripPadded(pre, name, post);
  }

  /** Assigning the parcel in flight loses nothing: re-queued at the front
      with nothing forwarded, or forwarded once with the queue untouched,
      the queue plus what was forwarded is the queue plus that parcel. */
  lemma AssignConserves(queue: seq<string>, parcel: string, thread: string, chosen: Option<string>,
                        queue': seq<string>, sent: seq<Message>)
    requires chosen.None? ==> queue' == [parcel] + queue && sent == [LoadRequest(thread)]
    requires chosen.Some? ==> queue' == queue && sent == [LoadRequest(thread), Assignment(chosen.value, parcel)]
    ensures multiset(queue') + multiset(Forwarded(sent)) == multiset(queue) + multiset{parcel}
  {
    if chosen.None? {
      ForwardedRequestOnly(thread, "", parcel);
      assert multiset([parcel] + queue) == multiset{parcel} + multiset(queue);
    } else {
      ForwardedRequestOnly(thread, chosen.value, parcel);
    }
  }

  lemma {:induction false} AcceptedNone(window: Window)
    requires forall j :: 0 <= j < |window| ==> !IsParcelRequest(window[j])
    ensures Accepted(window) == []
  {
    if window != [] {
      AcceptedNone(window[..|window| - 1]);
    }
  }

  /** Up to and including the first parcel request, a window holds exactly
      that request. */
  lemma AcceptedUpToFirst(window: Window, k: nat)
    requires k < |window| && IsParcelRequest(window[k])
    requires forall j :: 0 <= j < k ==> !IsParcelRequest(window[j])
    ensures Accepted(window[..k + 1]) == [window[k].value.body]
    ensures FirstWhere(window, IsParcelRequest) == Some(k)
  {
    AcceptedNone(window[..k]);
    assert window[..k + 1][..k] == window[..k];
    FirstWhereIs(window, IsParcelRequest, k);
  }

  /** A window without a parcel request accepts nothing and has no first request. */
  lemma NoRequest(window: Window)
    requires forall j :: 0 <= j < |window| ==> !IsParcelRequest(window[j])
    ensures Accepted(window[..|window|]) == [] && FirstWhere(window, IsParcelRequest).None?
  {
    assert window[..|window|] == window;
    AcceptedNone(window);
  }

  /** Every parcel the warehouse answers for: the queue and the one in flight. */
  function HeldOf(queue: seq<string>, slot: Option<string>): multiset<string>
  {
    multiset(queue) + (if slot.Some? then multiset{slot.value} else multiset{})
  }

  class WarehouseAgent {
    var parcelQueue: seq<string>
    var parcelToAssign: Option<string>
    var state: FsmState

    /** At most one parcel is in flight, and only while assigning. */
    ghost predicate Valid()
      reads this
    {
      (state == WaitParcel) == parcelToAssign.None?
    }

    constructor ()
      ensures Valid()
      ensures parcelQueue == [] && parcelToAssign == None && state == WaitParcel
    {
      parcelQueue := [];
      parcelToAssign := None;
      state := WaitParcel;
    }

    /** WaitParcelState.run. A queued parcel goes in flight at once.
        Otherwise the wait loop queues parcel requests at the back, ignores
        everything else, and as soon as one request has made the queue one
        long with nothing in flight, puts it in flight and stops. */
    method RunWaitParcel(window: Window) returns (consumed: nat)
      requires Valid() && state == WaitParcel
      modifies this
      ensures Valid() && Registered(old(state), state)
      ensures consumed <= |window|
      ensures HeldOf(parcelQueue, parcelToAssign) == HeldOf(old(parcelQueue), old(parcelToAssign)) + multiset(Accepted(window[..consumed]))
      ensures old(parcelQueue) != [] ==>
        && parcelToAssign == Some(old(parcelQueue)[0])
        && parcelQueue == old(parcelQueue)[1..]
        && state == AssignCourier && consumed == 0
      ensures old(parcelQueue) == [] ==> parcelQueue == []
      ensures old(parcelQueue) == [] ==>
        var first := FirstWhere(window, IsParcelRequest);
        && (first.None? ==> parcelToAssign == None && state == WaitParcel && consumed == |window|)
        && (first.Some? ==> parcelToAssign == Some(window[first.value].value.body) && state == AssignCourier && consumed == first.value + 1)
    {
      if parcelQueue != [] {
        parcelToAssign := Some(parcelQueue[0]);
        assert parcelQueue == [parcelQueue[0]] + parcelQueue[1..];
        parcelQueue := parcelQueue[1..];
        state := AssignCourier;
        return 0;
      }
      consumed := 0;
      while consumed < |window|
        invariant consumed <= |window|
        invariant parcelQueue == [] && parcelToAssign == None && state == WaitParcel
        invariant forall j :: 0 <= j < consumed ==> !IsParcelRequest(window[j])
      {
        var msg := window[consumed];
        consumed := consumed + 1;
        if IsParcelRequest(msg) {
          parcelQueue := parcelQueue + [msg.value.body];
          if |parcelQueue| == 1 && parcelToAssign.None? {
            parcelToAssign := Some(parcelQueue[0]);
            parcelQueue := parcelQueue[1..];
            state := AssignCourier;
            AcceptedUpToFirst(window, consumed - 1);
            return;
          }
        }
      }
      state := WaitParcel;
      NoRequest(window);
    }

    /** The end of AssignCourierState.run, once the wait is over: a reply
        naming a courier gets the parcel forwarded to it; `NONE` or no reply
        puts the parcel back at the FRONT of the queue. */
    method Dispatch(parcel: string, response: Option<Message>) returns (forward: seq<Message>)
      modifies this
      ensures parcelToAssign == old(parcelToAssign) && state == old(state)
      ensures ChosenCourier(response).None? ==> parcelQueue == [parcel] + old(parcelQueue) && forward == []
      ensures ChosenCourier(response).Some? ==>
        parcelQueue == old(parcelQueue) && forward == [Assignment(ChosenCourier(response).value, parcel)]
    {
      forward := [];
      if response.Some? {
        var chosen := Strip(response.value.body);
        if chosen == "NONE" {
          parcelQueue := [parcel] + parcelQueue;
        } else {
          forward := [Assignment(chosen, parcel)];
        }
      } else {
        parcelQueue := [parcel] + parcelQueue;
      }
    }

    /** AssignCourierState.run. Ask the supervisor on `thread`, wait for the
        reply on that thread, then forward the parcel to the named courier or,
        on `NONE` or no reply, put it back at the FRONT of the queue. Either
        way the slot is emptied and the FSM returns to WaitParcel, and no
        parcel is lost: what is held plus what was forwarded is what was held. */
    method RunAssignCourier(thread: string, window: Window) returns (sent: seq<Message>, consumed: nat)
      requires Valid() && state == AssignCourier
      modifies this
      ensures Valid() && Registered(old(state), state)
      ensures state == WaitParcel && parcelToAssign == None
      ensures consumed <= |window|
      ensures HeldOf(parcelQueue, parcelToAssign) + multiset(Forwarded(sent)) == HeldOf(old(parcelQueue), old(parcelToAssign))
      ensures ChosenCourier(ReplyOnThread(window, thread)).None? ==>
        parcelQueue == [old(parcelToAssign).value] + old(parcelQueue) && sent == [LoadRequest(thread)]
      ensures ChosenCourier(ReplyOnThread(window, thread)).Some? ==>
        && parcelQueue == old(parcelQueue)
        && sent == [LoadRequest(thread), Assignment(ChosenCourier(ReplyOnThread(window, thread)).value, old(parcelToAssign).value)]
      ensures match FirstOnThread(window, thread)
        case None => consumed == |window|
        case Some(k) => consumed == k + 1
    {
      var parcel := parcelToAssign.value;
      ghost var queue := parcelQueue;
      var response;
      response, consumed := AwaitOnThread(window, thread);
      var forward := Dispatch(parcel, response);
      sent := [LoadRequest(thread)] + forward;
      parcelToAssign := None;
      state := WaitParcel;
      AssignConserves(queue, parcel, thread, ChosenCourier(response), parcelQueue, sent);
    }

    /** One step of the FSM driver: run the current state. Waiting for
        parcels conserves every parcel and adds the accepted requests;
        assigning conserves every parcel held, while any parcel request that
        reaches its reply wait is discarded with the other unrelated messages. */
    method Step(thread: string, window: Window) returns (sent: seq<Message>, consumed: nat)
      requires Valid()
      modifies this
      ensures Valid() && Registered(old(state), state)
      ensures consumed <= |window|
      ensures old(state) == WaitParcel ==>
        sent == [] && HeldOf(parcelQueue, parcelToAssign) == HeldOf(old(parcelQueue), old(parcelToAssign)) + multiset(Accepted(window[..consumed]))
      ensures old(state) == AssignCourier ==>
        HeldOf(parcelQueue, parcelToAssign) + multiset(Forwarded(sent)) == HeldOf(old(parcelQueue), old(parcelToAssign))
    {
      if state == WaitParcel {
        consumed := RunWaitParcel(window);
        sent := [];
      } else {
        sent, consumed := RunAssignCourier(thread, window);
      }
    }
  }
}
