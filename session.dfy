/**
 * The chat hook of the client (`useWebSocket`): four pieces of state --
 * the message log, the connected flag, the last error and the loading flag --
 * changed by the socket's four events and by `sendMessage`.
 *
 * The pure part (State, Event, Step, Run) is the specification; the class
 * WebSocketHook holds the same state in fields and its methods are proved to
 * perform exactly one Step each.
 */
module Session {
  import opened Wrappers
  import opened Json
  import Seqs

  /** The error text the hook records for any socket error. */
  const ErrorText: string := "WebSocket error occurred"

  const QueryType: Value := JStr("query")
  const ResponseType: Value := JStr("response")

  /** A frame as delivered to `onmessage`: parsed into an object, or not parseable. */
  datatype Incoming = Parsed(data: Record) | Malformed

  /** A log entry is a user query iff its `type` field is the string "query". */
  predicate IsQuery(m: Record) {
    "type" in m && m["type"] == QueryType
  }

  /** The object `sendMessage` transmits and records. */
  function QueryMessage(content: Value): (m: Record)
    ensures IsQuery(m) && m.Keys == {"type", "content"} && m["content"] == content
  {
    map["type" := QueryType, "content" := content]
  }

  /** `{ ...data, type: 'response' }`: every field of the frame, with `type` overwritten. */
  function Relabel(data: Record): (m: Record)
    ensures m.Keys == data.Keys + {"type"}
    ensures m["type"] == ResponseType && !IsQuery(m)
    ensures forall k :: k in data && k != "type" ==> m[k] == data[k]
  {
    data["type" := ResponseType]
  }

  /** The hook's state; `hasSocket` is whether `socket` is set, `sent` the frames handed to the socket. */
  datatype State = State(
    messages: seq<Record>,
    isConnected: bool,
    error: Option<string>,
    isLoading: bool,
    hasSocket: bool,
    sent: seq<Record>)

  /** Everything that can change the hook's state. */
  datatype Event =
    | SocketCreated
    | Open
    | Close
    | SocketError
    | Message(frame: Incoming)
    | Send(content: Value)

  /** The state on first render: empty log, not connected, no error, not loading, no socket. */
  function Initial(): State {
    State([], false, None, false, false, [])
  }

  /** `sendMessage` acts only when there is a socket and the hook believes it is connected. */
  predicate CanSend(s: State) {
    s.hasSocket && s.isConnected
  }

  /** One event handled to completion. */
  function Step(s: State, e: Event): State {
    match e
    case SocketCreated => s.(hasSocket := true)
    case Open => s.(isConnected := true, error := None)
    case Close => s.(isConnected := false)
    case SocketError => s.(error := Some(ErrorText), isLoading := false)
    case Message(Malformed) => s
    case Message(Parsed(data)) => s.(messages := s.messages + [Relabel(data)], isLoading := false)
    case Send(content) =>
      if CanSend(s) then
        var m := QueryMessage(content);
        s.(sent := s.sent + [m], messages := s.messages + [m], isLoading := true)
      else s
  }

  /** Events handled one after another, in arrival order. */
  function Run(s: State, es: seq<Event>): State
    decreases |es|
  {
    if es == [] then s else Run(Step(s, es[0]), es[1..])
  }

  /** The entries of a log that the user sent. */
  function Queries(log: seq<Record>): seq<Record> {
    Seqs.Filter(IsQuery, log)
  }

  /** An entry the hook can have logged: a query or a response. */
  predicate IsLogEntry(m: Record) {
    "type" in m && (m["type"] == QueryType || m["type"] == ResponseType)
  }

  /**
   * What holds of every state the hook can reach: every entry is a query or a
   * response; the queries in the log are exactly the frames sent, in order;
   * and while loading, the last entry is a query still without an answer.
   */
  ghost predicate Inv(s: State) {
    && (forall i :: 0 <= i < |s.messages| ==> IsLogEntry(s.messages[i]))
    && Queries(s.messages) == s.sent
    && (s.isLoading ==> |s.messages| > 0 && IsQuery(s.messages[|s.messages| - 1]))
  }

  /** Each event keeps the earlier log as a prefix and adds at most one entry. */
  lemma StepAppendOnly(s: State, e: Event)
    ensures s.messages <= Step(s, e).messages
    ensures |Step(s, e).messages| <= |s.messages| + 1
    ensures |Step(s, e).messages| == |s.messages| + 1 <==>
              (e.Message? && e.frame.Parsed?) || (e.Send? && CanSend(s))
  {
  }

  /** The log is append-only over any run: no earlier entry ever changes. */
  lemma {:induction false} RunAppendOnly(s: State, es: seq<Event>)
    ensures s.messages <= Run(s, es).messages
    ensures |Run(s, es).messages| <= |s.messages| + |es|
    decreases |es|
  {
    if es != [] {
      StepAppendOnly(s, es[0]);
      RunAppendOnly(Step(s, es[0]), es[1..]);
    }
  }

  lemma InitialInv()
    ensures Inv(Initial())
  {
  }

  /** Every event keeps the invariant. */
  lemma StepInv(s: State, e: Event)
    requires Inv(s)
    ensures Inv(Step(s, e))
  {
    match e
    case Message(Parsed(data)) => AppendResponseInv(s, data);
    case Send(content) => if CanSend(s) { AppendQueryInv(s, content); }
    case _ =>
  }

  lemma AppendResponseInv(s: State, data: Record)
    requires Inv(s)
    ensures Inv(s.(messages := s.messages + [Relabel(data)], isLoading := false))
  {
    Seqs.FilterAppend(IsQuery, s.messages, [Relabel(data)]);
  }

  lemma AppendQueryInv(s: State, content: Value)
    requires Inv(s)
    ensures
      var m := QueryMessage(content);
      Inv(s.(sent := s.sent + [m], messages := s.messages + [m], isLoading := true))
  {
    Seqs.FilterAppend(IsQuery, s.messages, [QueryMessage(content)]);
  }

  /** Every state reachable from the first render satisfies the invariant. */
  lemma {:induction false} RunInv(s: State, es: seq<Event>)
    requires Inv(s)
    ensures Inv(Run(s, es))
    decreases |es|
  {
    if es != [] {
      StepInv(s, es[0]);
      RunInv(Step(s, es[0]), es[1..]);
    }
  }

  /** Only `Open` and `Close` change the connected flag. */
  lemma StepConnection(s: State, e: Event)
    ensures Step(s, e).isConnected ==
              if e.Open? then true else if e.Close? then false else s.isConnected
  {
  }

  /**
   * While not connected, `sendMessage` calls, errors and close events leave
   * the log, the sent frames and the connected flag untouched: nothing is
   * queued for later.
   */
  lemma {:induction false} DisconnectedSendsAreDropped(s: State, es: seq<Event>)
    requires !s.isConnected
    requires forall i :: 0 <= i < |es| ==> es[i].Send? || es[i].Close? || es[i].SocketError?
    ensures Run(s, es).messages == s.messages
    ensures Run(s, es).sent == s.sent
    ensures !Run(s, es).isConnected
    decreases |es|
  {
    if es != [] {
      DisconnectedSendsAreDropped(Step(s, es[0]), es[1..]);
    }
  }

  /**
   * A response never clears an error and an error never drops history: after
   * `onerror` the log is the same and loading is off, whatever came before.
   */
  lemma ErrorKeepsHistory(s: State, frame: Incoming)
    ensures Step(s, Message(frame)).error == s.error
    ensures Step(s, SocketError).messages == s.messages
    ensures Step(s, SocketError).error == Some(ErrorText)
    ensures !Step(s, SocketError).isLoading
    ensures Step(s, SocketError).isConnected == s.isConnected
  {
  }

  /** The hook itself: the same state, held in fields and changed by its handlers. */
  class WebSocketHook {
    var messages: seq<Record>
    var isConnected: bool
    var error: Option<string>
    var isLoading: bool
    var hasSocket: bool
    var sent: seq<Record>

    function Snapshot(): State
      reads this
    {
      State(messages, isConnected, error, isLoading, hasSocket, sent)
    }

    /** The hook's `useState` initial values. */
    constructor ()
      ensures Snapshot() == Initial()
      ensures Inv(Snapshot())
    {
      messages := [];
      isConnected := false;
      error := None;
      isLoading := false;
      hasSocket := false;
      sent := [];
    }

    /** The effect creates the socket and stores it with `setSocket`. */
    method CreateSocket()
      requires Inv(Snapshot())
      modifies this
      ensures Inv(Snapshot())
      ensures Snapshot() == Step(old(Snapshot()), SocketCreated)
      ensures hasSocket
      ensures messages == old(messages) && isConnected == old(isConnected)
      ensures error == old(error) && isLoading == old(isLoading) && sent == old(sent)
    {
      hasSocket := true;
    }

    /** `ws.onopen`: connected, error cleared; log and loading untouched. */
    method OnOpen()
      requires Inv(Snapshot())
      modifies this
      ensures Inv(Snapshot())
      ensures Snapshot() == Step(old(Snapshot()), Open)
      ensures isConnected && error == None
      ensures messages == old(messages) && isLoading == old(isLoading)
      ensures hasSocket == old(hasSocket) && sent == old(sent)
    {
      isConnected := true;
      error := None;
    }

    /** `ws.onclose`: disconnected; loading is not reset and the log is kept. */
    method OnClose()
      requires Inv(Snapshot())
      modifies this
      ensures Inv(Snapshot())
      ensures Snapshot() == Step(old(Snapshot()), Close)
      ensures !isConnected
      ensures messages == old(messages) && isLoading == old(isLoading) && error == old(error)
      ensures hasSocket == old(hasSocket) && sent == old(sent)
    {
      isConnected := false;
    }

    /** `ws.onerror`: the fixed error text, loading off; connection flag and log untouched. */
    method OnError()
      requires Inv(Snapshot())
      modifies this
      ensures Inv(Snapshot())
      ensures Snapshot() == Step(old(Snapshot()), SocketError)
      ensures error == Some(ErrorText) && !isLoading
      ensures messages == old(messages) && isConnected == old(isConnected)
      ensures hasSocket == old(hasSocket) && sent == old(sent)
    {
      error := Some(ErrorText);
      isLoading := false;
      StepInv(old(Snapshot()), SocketError);
    }

    /**
     * `ws.onmessage`: a parsed frame is appended relabelled as a response and
     * loading goes off; a frame `JSON.parse` rejects throws before any update.
     */
    method OnMessage(frame: Incoming)
      requires Inv(Snapshot())
      modifies this
      ensures Inv(Snapshot())
      ensures Snapshot() == Step(old(Snapshot()), Message(frame))
      ensures frame.Malformed? ==> Snapshot() == old(Snapshot())
      ensures frame.Parsed? ==>
                messages == old(messages) + [Relabel(frame.data)] && !isLoading
      ensures isConnected == old(isConnected) && error == old(error)
      ensures hasSocket == old(hasSocket) && sent == old(sent)
    {
      StepInv(Snapshot(), Message(frame));
      match frame
      case Malformed =>
      case Parsed(data) =>
        messages := messages + [Relabel(data)];
        isLoading := false;
    }

    /**
     * `sendMessage(content)`: with a socket and connected, transmits
     * `{type: 'query', content}` with the content as given, records the same
     * object in the log and sets loading; otherwise does nothing at all.
     */
    method SendMessage(content: Value)
      requires Inv(Snapshot())
      modifies this
      ensures Inv(Snapshot())
      ensures Snapshot() == Step(old(Snapshot()), Send(content))
      ensures old(CanSend(Snapshot())) ==>
                && sent == old(sent) + [QueryMessage(content)]
                && messages == old(messages) + [QueryMessage(content)]
                && isLoading
      ensures !old(CanSend(Snapshot())) ==> Snapshot() == old(Snapshot())
      ensures isConnected == old(isConnected) && error == old(error) && hasSocket == old(hasSocket)
    {
      StepInv(Snapshot(), Send(content));
      if hasSocket && isConnected {
        var message := QueryMessage(content);
        sent := sent + [message];
        messages := messages + [message];
        isLoading := true;
      }
    }
  }
}
