/**
 * The server's chat endpoint: the registry of open connections and the loop
 * that answers each "query" frame with one "response" or "error" frame.
 * The question-answering pipeline is an input (`answer`): it either produces
 * the output text or raises.
 */
module Server {
  import opened Wrappers
  import opened Json
  import Seqs

  /** A client connection, by identity. */
  type Socket = nat

  /** The position of the first occurrence of `x`. */
  function IndexOf(s: seq<Socket>, x: Socket): (i: nat)
    requires x in s
    ensures i < |s| && s[i] == x && x !in s[..i]
  {
    if s[0] == x then 0 else 1 + IndexOf(s[1..], x)
  }

  /** Python's `list.remove(x)` on a list that holds `x`: drops its first occurrence. */
  function RemoveFirst(s: seq<Socket>, x: Socket): (r: seq<Socket>)
    requires x in s
    ensures |r| == |s| - 1
  {
    if s[0] == x then s[1..] else [s[0]] + RemoveFirst(s[1..], x)
  }

  /** What `list.remove` leaves: everything before the first occurrence, then everything after it. */
  lemma {:induction false} RemoveFirstAt(s: seq<Socket>, x: Socket)
    requires x in s
    ensures RemoveFirst(s, x) == s[..IndexOf(s, x)] + s[IndexOf(s, x) + 1..]
  {
    if s[0] == x {
      assert s[..0] + s[1..] == s[1..];
    } else {
      var t := s[1..];
      assert x in t;
      var i := IndexOf(t, x);
      assert IndexOf(s, x) == i + 1;
      assert RemoveFirst(s, x) == [s[0]] + RemoveFirst(t, x);
      RemoveFirstAt(t, x);
      ConsSlices(s, i);
    }
  }

  /** Putting the head back in front of a split tail gives the same split of the whole sequence. */
  lemma ConsSlices(s: seq<Socket>, i: nat)
    requires i + 1 < |s|
    ensures [s[0]] + (s[1..][..i] + s[1..][i + 1..]) == s[..i + 1] + s[i + 2..]
  {
    assert [s[0]] + s[1..][..i] == s[..i + 1];
  }

  /** `list.remove` takes away exactly one copy of the socket and keeps every other one. */
  lemma {:induction false} RemoveFirstTakesOne(s: seq<Socket>, x: Socket)
    requires x in s
    ensures multiset(RemoveFirst(s, x)) == multiset(s) - multiset{x}
  {
    assert s == [s[0]] + s[1..];
    if s[0] != x {
      RemoveFirstTakesOne(s[1..], x);
    }
  }

  /** Connecting a socket and then disconnecting it restores the registry. */
  lemma {:induction false} ConnectThenDisconnect(s: seq<Socket>, x: Socket)
    requires x !in s
    ensures RemoveFirst(s + [x], x) == s
  {
    if s != [] {
      assert (s + [x])[1..] == s[1..] + [x];
      ConnectThenDisconnect(s[1..], x);
    }
  }

  /** The registry: `ConnectionManager.active_connections`. */
  class ConnectionManager {
    var activeConnections: seq<Socket>

    constructor ()
      ensures activeConnections == []
    {
      activeConnections := [];
    }

    /** `connect`: accepts the socket (not modelled) and appends it. */
    method Connect(ws: Socket)
      modifies this
      ensures activeConnections == old(activeConnections) + [ws]
    {
      activeConnections := activeConnections + [ws];
    }

    /**
     * `disconnect`: removes the first occurrence of the socket. `raised` is
     * Python's ValueError for a socket that is not registered, in which case
     * the registry is untouched.
     */
    method Disconnect(ws: Socket) returns (raised: bool)
      modifies this
      ensures raised <==> ws !in old(activeConnections)
      ensures !raised ==> activeConnections == RemoveFirst(old(activeConnections), ws)
      ensures raised ==> activeConnections == old(activeConnections)
    {
      if ws in activeConnections {
        activeConnections := RemoveFirst(activeConnections, ws);
        raised := false;
      } else {
        raised := true;
      }
    }
  }

  /** One result of `websocket.receive_text()`: a text frame, parsed by `json.loads` or not, or the client gone. */
  datatype Inbound = Text(parsed: Option<Value>) | ClientGone

  /** What the question-answering pipeline does with a query. */
  datatype Answer = Answered(outputText: string) | Raised(description: string)

  /** How the loop stops: still waiting for a frame, the client disconnected, or an exception escaped. */
  datatype LoopEnd = Waiting | Disconnected | Crashed

  /** The frames sent back, in order, and how the loop stopped. */
  datatype Transcript = Transcript(replies: seq<Record>, end: LoopEnd)

  /**
   * `message["type"]`: present only for an object with a `type` key; any
   * other value raises (TypeError for a non-object, KeyError for a missing key).
   */
  function TypeField(v: Value): (t: Option<Value>)
    ensures t.Some? <==> v.JObj? && "type" in v.fields
    ensures t.Some? ==> t.value == v.fields["type"]
  {
    if v.JObj? && "type" in v.fields then Some(v.fields["type"]) else None
  }

  /** A frame the loop gets through without an exception escaping. */
  predicate Handled(f: Inbound) {
    f.Text? && f.parsed.Some? && TypeField(f.parsed.value).Some?
  }

  /** A frame the loop answers. */
  predicate IsQueryFrame(f: Inbound) {
    Handled(f) && TypeField(f.parsed.value) == Some(JStr("query"))
  }

  /** The one frame sent back for a query. */
  function ReplyTo(message: Record, answer: Record -> Answer): (r: Record)
    ensures r.Keys == {"type", "content"}
    ensures answer(message).Answered? <==> r["type"] == JStr("response")
    ensures answer(message).Raised? <==> r["type"] == JStr("error")
    ensures answer(message).Answered? ==> r["content"] == JStr(answer(message).outputText)
    ensures answer(message).Raised? ==> r["content"] == JStr(answer(message).description)
  {
    match answer(message)
    case Answered(text) => map["type" := JStr("response"), "content" := JStr(text)]
    case Raised(e) => map["type" := JStr("error"), "content" := JStr(e)]
  }

  /** The receive loop over a sequence of inbound frames. */
  function Dispatch(inbound: seq<Inbound>, answer: Record -> Answer): Transcript {
    if inbound == [] then Transcript([], Waiting)
    else
      var f := inbound[0];
      if f.ClientGone? then Transcript([], Disconnected)
      else if !Handled(f) then Transcript([], Crashed)
      else
        var rest := Dispatch(inbound[1..], answer);
        if IsQueryFrame(f) then Transcript([ReplyTo(MessageOf(f), answer)] + rest.replies, rest.end)
        else rest
  }

  /** The object a handled frame was parsed into. */
  function MessageOf(f: Inbound): (m: Record)
    requires Handled(f)
    ensures "type" in m
  {
    f.parsed.value.fields
  }

  /** The objects of the query frames, in the order they arrived. */
  function QueryMessages(inbound: seq<Inbound>): (ms: seq<Record>)
    ensures |ms| == |Seqs.Filter(IsQueryFrame, inbound)|
  {
    if inbound == [] then []
    else if IsQueryFrame(inbound[0]) then [MessageOf(inbound[0])] + QueryMessages(inbound[1..])
    else QueryMessages(inbound[1..])
  }

  /** The reply to each of a sequence of queries, in the same order. */
  function RepliesFor(messages: seq<Record>, answer: Record -> Answer): (r: seq<Record>)
    ensures |r| == |messages|
    ensures forall i :: 0 <= i < |r| ==> r[i] == ReplyTo(messages[i], answer)
  {
    seq(|messages|, i requires 0 <= i < |messages| => ReplyTo(messages[i], answer))
  }

  /**
   * Every reply is a "response" or an "error" frame with string content,
   * whatever the frames and the pipeline do.
   */
  lemma {:induction false} RepliesAreWellFormed(inbound: seq<Inbound>, answer: Record -> Answer)
    ensures forall i :: 0 <= i < |Dispatch(inbound, answer).replies| ==>
              var r := Dispatch(inbound, answer).replies[i];
              && r.Keys == {"type", "content"}
              && r["type"] in {JStr("response"), JStr("error")}
              && r["content"].JStr?
  {
    if inbound != [] && Handled(inbound[0]) {
      RepliesAreWellFormed(inbound[1..], answer);
    }
  }

  /**
   * While every frame is handled, the loop keeps waiting and sends exactly one
   * reply per query frame, in the order of the queries; other frames get none.
   */
  lemma {:induction false} OneReplyPerQuery(inbound: seq<Inbound>, answer: Record -> Answer)
    requires forall i :: 0 <= i < |inbound| ==> Handled(inbound[i])
    ensures Dispatch(inbound, answer).end == Waiting
    ensures Dispatch(inbound, answer).replies == RepliesFor(QueryMessages(inbound), answer)
  {
    if inbound != [] {
      OneReplyPerQuery(inbound[1..], answer);
    }
  }

  /**
   * The frames after a handled prefix are processed as if the loop had
   * started there: a query whose answer raised does not end the loop.
   */
  lemma {:induction false} DispatchContinues(handled: seq<Inbound>, later: seq<Inbound>, answer: Record -> Answer)
    requires forall i :: 0 <= i < |handled| ==> Handled(handled[i])
    ensures Dispatch(handled + later, answer).replies ==
              Dispatch(handled, answer).replies + Dispatch(later, answer).replies
    ensures Dispatch(handled + later, answer).end == Dispatch(later, answer).end
  {
    if handled == [] {
      assert handled + later == later;
    } else {
      assert (handled + later)[0] == handled[0];
      assert (handled + later)[1..] == handled[1..] + later;
      DispatchContinues(handled[1..], later, answer);
    }
  }

  /**
   * A frame that is not JSON, not an object or has no `type` ends the loop
   * with an exception: no reply to it, and nothing after it is read.
   */
  lemma UnhandledFrameEndsLoop(f: Inbound, later: seq<Inbound>, answer: Record -> Answer)
    requires f.Text? && !Handled(f)
    ensures Dispatch([f] + later, answer) == Transcript([], Crashed)
  {
  }

  /**
   * `websocket_endpoint`: registers the socket, then answers frames until the
   * client goes away (the socket is deregistered) or an exception escapes
   * (the socket stays registered). `answer` is the pipeline.
   */
  method WebsocketEndpoint(manager: ConnectionManager, ws: Socket, inbound: seq<Inbound>, answer: Record -> Answer)
    returns (replies: seq<Record>, end: LoopEnd)
    modifies manager
    ensures Transcript(replies, end) == Dispatch(inbound, answer)
    ensures end == Disconnected ==>
              && ws in old(manager.activeConnections) + [ws]
              && manager.activeConnections == RemoveFirst(old(manager.activeConnections) + [ws], ws)
    ensures end != Disconnected ==>
              manager.activeConnections == old(manager.activeConnections) + [ws]
  {
    manager.Connect(ws);
    replies := [];
    var i := 0;
    while i < |inbound|
      invariant 0 <= i <= |inbound|
      invariant manager.activeConnections == old(manager.activeConnections) + [ws]
      invariant Dispatch(inbound, answer) ==
                  Transcript(replies + Dispatch(inbound[i..], answer).replies, Dispatch(inbound[i..], answer).end)
    {
      var frame := inbound[i];
      if frame.ClientGone? {
        var raised := manager.Disconnect(ws);
        end := Disconnected;
        return;
      }
      if !Handled(frame) {
        end := Crashed;
        return;
      }
      var message := MessageOf(frame);
      if message["type"] == JStr("query") {
        replies := replies + [ReplyTo(message, answer)];
      }
      assert inbound[i..][1..] == inbound[i + 1..];
      i := i + 1;
    }
    end := Waiting;
  }
}
