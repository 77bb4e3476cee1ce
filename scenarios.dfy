/**
 * Client and server together: one query's round trip, and a whole
 * conversation (mount, open, ask, answer).
 */
module Scenarios {
  import opened Wrappers
  import opened Json
  import Session
  import ChatView
  import Server

  /** The frame the server receives for a query the client sent (JSON encoding is taken as faithful). */
  function AsReceived(m: Record): Server.Inbound {
    Server.Text(Some(JObj(m)))
  }

  /**
   * A query sent while connected is answered by exactly one frame; the client
   * logs that frame as the assistant's -- even when the server reported an
   * error -- with the answer or the error text as its content, right after the
   * query, and stops loading.
   */
  lemma QueryRoundTrip(s: Session.State, question: string, answer: Record -> Server.Answer)
    requires Session.Inv(s) && Session.CanSend(s)
    ensures
      var m := Session.QueryMessage(JStr(question));
      var t := Server.Dispatch([AsReceived(m)], answer);
      && t.end == Server.Waiting
      && |t.replies| == 1
      && var s1 := Session.Step(s, Session.Send(JStr(question)));
         var s2 := Session.Step(s1, Session.Message(Session.Parsed(t.replies[0])));
         && Session.Inv(s2)
         && s2.messages == s.messages + [m, Session.Relabel(t.replies[0])]
         && !s2.isLoading
         && ChatView.SpeakerOf(s2.messages[|s2.messages| - 2]) == ChatView.User
         && ChatView.SpeakerOf(s2.messages[|s2.messages| - 1]) == ChatView.Assistant
         && s2.messages[|s2.messages| - 1]["content"] ==
              match answer(m)
              case Answered(text) => JStr(text)
              case Raised(e) => JStr(e)
  {
    var m := Session.QueryMessage(JStr(question));
    var f := AsReceived(m);
    assert Server.IsQueryFrame(f);
    assert [f][1..] == [];
    var t := Server.Dispatch([f], answer);
    var s1 := Session.Step(s, Session.Send(JStr(question)));
    Session.StepInv(s, Session.Send(JStr(question)));
    Session.StepInv(s1, Session.Message(Session.Parsed(t.replies[0])));
  }

  /**
   * The conversation: mount, the socket opens, the user asks, the answer
   * arrives. The log then holds the question and the answer, in that order,
   * and the client is connected and no longer loading.
   */
  lemma Conversation()
    ensures
      var question := JStr("Summarize section 2");
      var reply: Record := map["type" := JStr("response"), "content" := JStr("Section 2 covers...")];
      var asked := Session.Run(Session.Initial(),
        [Session.SocketCreated, Session.Open, Session.Send(question)]);
      var answered := Session.Step(asked, Session.Message(Session.Parsed(reply)));
      && asked.messages == [Session.QueryMessage(question)]
      && asked.isLoading
      && answered.messages == [Session.QueryMessage(question), reply]
      && answered.isConnected && !answered.isLoading && answered.error == None
  {
    var question := JStr("Summarize section 2");
    var reply: Record := map["type" := JStr("response"), "content" := JStr("Section 2 covers...")];
    var es := [Session.SocketCreated, Session.Open, Session.Send(question)];
    var s0 := Session.Initial();
    var s1 := Session.Step(s0, Session.SocketCreated);
    var s2 := Session.Step(s1, Session.Open);
    var s3 := Session.Step(s2, Session.Send(question));
    assert es[1..] == [Session.Open, Session.Send(question)];
    assert es[1..][1..] == [Session.Send(question)];
    assert es[1..][1..][1..] == [];
    calc {
      Session.Run(s0, es);
      Session.Run(s1, es[1..]);
      Session.Run(s2, es[1..][1..]);
      Session.Run(s3, es[1..][1..][1..]);
      s3;
    }
    assert Session.Relabel(reply) == reply;
  }
}
