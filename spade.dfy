/** What the agents see of the SPADE/XMPP transport: messages with metadata
    and a correlation thread, and bounded waits. A single `receive(timeout)`
    yields `Some(message)` or `None`; a polling loop that calls `receive`
    until a deadline is given the finite list of what those calls returned
    (its *wait window*). */
module Spade {
  import opened Py

  /** A message as the agents build and read it. `performative` and
      `msgType` are the `metadata` entries of those names (`None` when the
      sender did not set them); a body the sender never set is `""`. */
  datatype Message = Message(
    to: string,
    sender: string,
    thread: Option<string>,
    performative: Option<string>,
    msgType: Option<string>,
    body: string)

  // The agents' addresses, from the repository's configuration.
  const CustomerJid := "customer@localhost"
  const WarehouseJid := "warehouse@localhost"
  const SupervisorJid := "supervisor@localhost"
  const TrafficJid := "traffic@localhost"
  const GisJid := "gis@localhost"
  const DatabaseJid := "database@localhost"

  /** What a polling loop receives, one entry per `receive` call. */
  type Window = seq<Option<Message>>

  /** Does `m` pass a behaviour's template (performative and type)? */
  predicate Matches(m: Message, performative: string, msgType: string)
  {
    m.performative == Some(performative) && m.msgType == Some(msgType)
  }

  /** Was a message received, and does it carry the awaited thread? */
  predicate OnThread(m: Option<Message>, thread: string)
  {
    m.Some? && m.value.thread == Some(thread)
  }

  /** The position of the first entry of `window` that `accept` takes, if any. */
  function FirstWhere(window: Window, accept: Option<Message> -> bool): (r: Option<nat>)
    ensures r.Some? ==> r.value < |window| && accept(window[r.value])
    ensures r.Some? ==> forall j :: 0 <= j < r.value ==> !accept(window[j])
    ensures r.None? ==> forall j :: 0 <= j < |window| ==> !accept(window[j])
  {
    if window == [] then None
    else if accept(window[0]) then Some(0)
    else match FirstWhere(window[1..], accept)
      case None => None
      case Some(k) => Some(k + 1)
  }

  /** `FirstWhere` is pinned down by its contract: the first accepted entry, or none. */
  lemma FirstWhereIs(window: Window, accept: Option<Message> -> bool, k: nat)
    requires k < |window| && accept(window[k])
    requires forall j :: 0 <= j < k ==> !accept(window[j])
    ensures FirstWhere(window, accept) == Some(k)
  {
  }

  /** The position of the first received message of `window` on `thread`,
      if there is one: everything before it is discarded by the waiter. */
  function FirstOnThread(window: Window, thread: string): (r: Option<nat>)
    ensures r.Some? ==> r.value < |window| && OnThread(window[r.value], thread)
    ensures r.Some? ==> forall j :: 0 <= j < r.value ==> !OnThread(window[j], thread)
    ensures r.None? ==> forall j :: 0 <= j < |window| ==> !OnThread(window[j], thread)
  {
    FirstWhere(window, m => OnThread(m, thread))
  }

  /** The reply a requester gets from its wait window, if any. */
  function ReplyOnThread(window: Window, thread: string): Option<Message>
  {
    match FirstOnThread(window, thread)
    case None => None
    case Some(k) => window[k]
  }

  /** The correlation loop shared by the warehouse and the courier: poll
      until a message on `thread` arrives (take it and stop) or the window
      runs out; every other message received meanwhile is discarded.
      `consumed` is how many receives the loop made. */
  method AwaitOnThread(window: Window, thread: string) returns (reply: Option<Message>, consumed: nat)
    ensures consumed <= |window|
    ensures reply.Some? ==> reply.value.thread == Some(thread)
    ensures match FirstOnThread(window, thread)
      case None => reply.None? && consumed == |window|
      case Some(k) => reply == window[k] && consumed == k + 1
  {
    reply, consumed := None, 0;
    while consumed < |window|
      invariant consumed <= |window|
      invariant forall j :: 0 <= j < consumed ==> !OnThread(window[j], thread)
    {
      var msg := window[consumed];
      consumed := consumed + 1;
      if OnThread(msg, thread) {
        reply := msg;
        return;
      }
    }
  }

  /** A requester on `thread` ignores every unrelated message in front of
      the reply: whatever arrives first on other threads, it gets the reply. */
  lemma {:induction false} ReplyAfterNoise(noise: Window, reply: Message, later: Window, thread: string)
    requires forall j :: 0 <= j < |noise| ==> !OnThread(noise[j], thread)
    requires reply.thread == Some(thread)
    ensures FirstOnThread(noise + [Some(reply)] + later, thread) == Some(|noise|)
    ensures ReplyOnThread(noise + [Some(reply)] + later, thread) == Some(reply)
    decreases |noise|
  {
    var w := noise + [Some(reply)] + later;
    if noise == [] {
      assert w[0] == Some(reply);
    } else {
      assert w[1..] == noise[1..] + [Some(reply)] + later;
      ReplyAfterNoise(noise[1..], reply, later, thread);
    }
  }
}
