/** The GIS agent (agents/gis_agent.py): answers a route request
    `start|end` with a three-stop route, sent as the text of a Python list
    of strings. The waypoint number drawn by `random.randint(1, 3)` is the
    parameter `k`. */
module Gis {
  import opened Py
  import opened Spade

  /** The template of the route handler: performative `request`, type `route_request`. */
  predicate Template(m: Message)
  {
    Matches(m, "request", "route_request")
  }

  // ---------------------------------------------------------------------------
  // `str(list)` of a list of strings, and a reader for it
  // ---------------------------------------------------------------------------

  /** The quote `repr` puts around `s`: double quotes only when `s` holds a
      single quote and no double quote. */
  function QuoteFor(s: string): (q: char)
    ensures q == '\'' || q == '"'
  {
    if '\'' in s && '"' !in s then '"' else '\''
  }

  /** How `repr` writes one character inside quotes `q`. */
  function EscapeChar(c: char, q: char): string
  {
    if c == '\\' then ['\\', '\\']
    else if c == q then ['\\', q]
    else if c == '\n' then ['\\', 'n']
    else if c == '\r' then ['\\', 'r']
    else if c == '\t' then ['\\', 't']
    else [c]
  }

  function Escape(s: string, q: char): string
  {
    if s == [] then [] else EscapeChar(s[0], q) + Escape(s[1..], q)
  }

  /** `repr(s)` for a string. */
  function Repr(s: string): string
  {
    var q := QuoteFor(s);
    [q] + Escape(s, q) + [q]
  }

  /** `str` of a list of strings: the items' reprs, `, `-separated, in brackets. */
  function ListText(items: seq<string>): string
  {
    "[" + ItemsText(items) + "]"
  }

  function ItemsText(items: seq<string>): string
  {
    if items == [] then ""
    else if |items| == 1 then Repr(items[0])
    else Repr(items[0]) + ", " + ItemsText(items[1..])
  }

  /** Read the rest of a quoted string up to its closing quote `q`, undoing
      the escapes; also return what follows the closing quote. */
  function Unescape(t: string, q: char): Option<(string, string)>
  {
    if t == [] then None
    else if t[0] == q then Some(([], t[1..]))
    else if t[0] == '\\' then
      if |t| < 2 then None
      else
        var c := if t[1] == 'n' then '\n' else if t[1] == 'r' then '\r' else if t[1] == 't' then '\t' else t[1];
        match Unescape(t[2..], q)
        case None => None
        case Some((s, rest)) => Some(([c] + s, rest))
    else
      match Unescape(t[1..], q)
      case None => None
      case Some((s, rest)) => Some(([t[0]] + s, rest))
  }

  /** Read one quoted string at the front of `t`. */
  function ReadString(t: string): Option<(string, string)>
  {
    if t != [] && (t[0] == '\'' || t[0] == '"') then Unescape(t[1..], t[0]) else None
  }

  /** Read the text of a list of exactly three strings. */
  function ReadTriple(t: string): Option<seq<string>>
  {
    if t == [] || t[0] != '[' then None
    else match ReadString(t[1..])
      case None => None
      case Some((a, r1)) =>
        if |r1| < 2 || r1[..2] != ", " then None
        else match ReadString(r1[2..])
          case None => None
          case Some((b, r2)) =>
            if |r2| < 2 || r2[..2] != ", " then None
            else match ReadString(r2[2..])
              case None => None
              case Some((c, r3)) => if r3 == "]" then Some([a, b, c]) else None
  }

  lemma {:induction false} UnescapeEscape(s: string, q: char, rest: string)
    requires q == '\'' || q == '"'
    ensures Unescape(Escape(s, q) + [q] + rest, q) == Some((s, rest))
    decreases |s|
  {
    var t := Escape(s, q) + [q] + rest;
    if s == [] {
      assert t == [q] + rest;
    } else {
      var c := s[0];
      UnescapeEscape(s[1..], q, rest);
      var tail := Escape(s[1..], q) + [q] + rest;
      assert t == EscapeChar(c, q) + tail;
      if |EscapeChar(c, q)| == 2 {
        assert t[2..] == tail;
      } else {
        assert t[1..] == tail;
      }
      assert [c] + s[1..] == s;
    }
  }

  /** Reading back `repr(s)` gives `s` and leaves what follows. */
  lemma ReadRepr(s: string, rest: string)
    ensures ReadString(Repr(s) + rest) == Some((s, rest))
  {
    var q := QuoteFor(s);
    UnescapeEscape(s, q, rest);
    assert (Repr(s) + rest)[1..] == Escape(s, q) + [q] + rest;
  }

  lemma ListTextThree(a: string, b: string, c: string)
    ensures ListText([a, b, c]) == "[" + (Repr(a) + (", " + (Repr(b) + (", " + (Repr(c) + "]")))))
  {
    var items := [a, b, c];
    assert items[1..] == [b, c] && items[1..][1..] == [c];
    assert ItemsText([b, c]) == Repr(b) + ", " + Repr(c);
    assert ItemsText(items) == Repr(a) + ", " + (Repr(b) + ", " + Repr(c));
  }

  lemma ReadTripleSteps(t: string, a: string, r1: string, b: string, r2: string, c: string)
    requires t != [] && t[0] == '[' && ReadString(t[1..]) == Some((a, r1))
    requires |r1| >= 2 && r1[..2] == ", " && ReadString(r1[2..]) == Some((b, r2))
    requires |r2| >= 2 && r2[..2] == ", " && ReadString(r2[2..]) == Some((c, "]"))
    ensures ReadTriple(t) == Some([a, b, c])
  {
  }

  /** The text of a three-string list reads back as that list. */
  lemma ReadTripleText(a: string, b: string, c: string)
    ensures ReadTriple(ListText([a, b, c])) == Some([a, b, c])
  {
    var r2 := ", " + (Repr(c) + "]");
    var r1 := ", " + (Repr(b) + r2);
    var t := "[" + (Repr(a) + r1);
    ListTextThree(a, b, c);
    assert t[1..] == Repr(a) + r1;
    ReadRepr(a, r1);
    assert r1[2..] == Repr(b) + r2;
    ReadRepr(b, r2);
    assert r2[2..] == Repr(c) + "]";
    ReadRepr(c, "]");
    ReadTripleSteps(t, a, r1, b, r2, c);
  }

  // ---------------------------------------------------------------------------
  // The handler
  // ---------------------------------------------------------------------------

  /** The middle stop of a route. */
  function Waypoint(k: nat): string
  {
    "waypoint_" + Decimal(k)
  }

  /** The reply: back to the sender, on the request's thread, performative
      `inform`, type `route_response`, the route list as its body. */
  function RouteResponse(request: Message, route: seq<string>): Message
  {
    Message(request.sender, GisJid, request.thread, Some("inform"), Some("route_response"), ListText(route))
  }

  /** RouteRequestHandler.run for one received message (or a timeout):
      a `route_request` whose body splits into exactly start and end is
      answered with the route start, waypoint `k`, end; a body with any
      other number of `|`-fields raises ValueError; anything else is
      ignored. */
  function HandleRequest(msg: Option<Message>, k: nat): (r: (seq<Message>, Outcome))
    requires 1 <= k <= 3
    ensures |r.0| <= 1
    ensures !(msg.Some? && msg.value.msgType == Some("route_request")) ==> r == ([], Completed)
    ensures msg.Some? && msg.value.msgType == Some("route_request") ==>
      var parts := Split(msg.value.body, '|');
      && (|parts| != 2 ==> r == ([], Raised(ValueError)))
      && (|parts| == 2 ==>
            && r.1 == Completed && |r.0| == 1
            && r.0[0].to == msg.value.sender && r.0[0].thread == msg.value.thread
            && Matches(r.0[0], "inform", "route_response")
            && ReadTriple(r.0[0].body) == Some([parts[0], Waypoint(k), parts[1]]))
  {
    if msg.Some? && msg.value.msgType == Some("route_request") then
      var parts := Split(msg.value.body, '|');
      if |parts| != 2 then ([], Raised(ValueError))
      else
        var route := [parts[0], Waypoint(k), parts[1]];
        ReadTripleText(parts[0], Waypoint(k), parts[1]);
        ([RouteResponse(msg.value, route)], Completed)
    else ([], Completed)
  }
}
