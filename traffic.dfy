/** The traffic agent (agents/traffic_agent.py): answers every route
    request it receives with one of three fixed routes. The route drawn by
    `random.choice` is the parameter `choice`. */
module Traffic {
  import opened Py
  import opened Spade

  /** The template of the route handler: performative `request`, type `route`. */
  predicate Template(m: Message)
  {
    Matches(m, "request", "route")
  }

  /** The routes the agent chooses from. */
  const Routes: seq<string> := [
    "Route A → B → C",
    "Route A → D → C (faster)",
    "Route A → E → F → C"
  ]

  /** RouteRequestHandler.run for one received message (or a timeout): a
      message, whatever it holds, is answered to its sender on its own
      thread with route number `choice`; a timeout sends nothing. */
  function HandleRequest(msg: Option<Message>, choice: nat): (sent: seq<Message>)
    requires choice < |Routes|
    ensures msg.None? <==> sent == []
    ensures msg.Some? ==>
      && |sent| == 1
      && sent[0].to == msg.value.sender && sent[0].thread == msg.value.thread
      && Matches(sent[0], "inform", "route")
      && sent[0].body in Routes
  {
    if msg.None? then []
    else [Message(msg.value.sender, TrafficJid, msg.value.thread, Some("inform"), Some("route"), Routes[choice])]
  }
}
