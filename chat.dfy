/**
 * The chat view's logic: the submit guard, the one-way move of the input box
 * from the centre to the bottom, how a log entry is attributed, how assistant
 * content is turned into text, and when the input and the send button are
 * disabled. Rendering itself is not modelled.
 */
module ChatView {
  import opened Wrappers
  import opened Json
  import Session

  /** The characters JavaScript's `String.prototype.trim` removes: WhiteSpace and LineTerminator. */
  const JsWhitespace: set<char> := {
    '\U{0009}', '\U{000A}', '\U{000B}', '\U{000C}', '\U{000D}', '\U{0020}', '\U{00A0}',
    '\U{1680}', '\U{2000}', '\U{2001}', '\U{2002}', '\U{2003}', '\U{2004}', '\U{2005}',
    '\U{2006}', '\U{2007}', '\U{2008}', '\U{2009}', '\U{200A}', '\U{2028}', '\U{2029}',
    '\U{202F}', '\U{205F}', '\U{3000}', '\U{FEFF}'
  }

  predicate IsJsWhitespace(c: char) {
    c in JsWhitespace
  }

  predicate AllWhitespace(s: string) {
    forall i :: 0 <= i < |s| ==> IsJsWhitespace(s[i])
  }

  /** The length of the whitespace run at the start of `s`. */
  function LeadingWhitespace(s: string): (n: nat)
    ensures n <= |s|
    ensures forall k :: 0 <= k < n ==> IsJsWhitespace(s[k])
    ensures n == |s| || !IsJsWhitespace(s[n])
  {
    if s != [] && IsJsWhitespace(s[0]) then 1 + LeadingWhitespace(s[1..]) else 0
  }

  /** Where the whitespace run at the end of `s` begins. */
  function TrailingWhitespace(s: string): (n: nat)
    ensures n <= |s|
    ensures forall k :: n <= k < |s| ==> IsJsWhitespace(s[k])
    ensures n == 0 || !IsJsWhitespace(s[n - 1])
  {
    if s != [] && IsJsWhitespace(s[|s| - 1]) then TrailingWhitespace(s[..|s| - 1]) else |s|
  }

  /** `s` without its leading whitespace. */
  function TrimStart(s: string): (r: string)
    ensures |r| <= |s| && r == s[|s| - |r|..]
    ensures AllWhitespace(s[..|s| - |r|])
    ensures r == [] || !IsJsWhitespace(r[0])
  {
    s[LeadingWhitespace(s)..]
  }

  /** `s` without its trailing whitespace. */
  function TrimEnd(s: string): (r: string)
    ensures |r| <= |s| && r == s[..|r|]
    ensures AllWhitespace(s[|r|..])
    ensures r == [] || !IsJsWhitespace(r[|r| - 1])
  {
    s[..TrailingWhitespace(s)]
  }

  /** `s.trim()`. */
  function Trim(s: string): string {
    TrimEnd(TrimStart(s))
  }

  /**
   * The trimmed text is the slice of the input between its leading and its
   * trailing whitespace, and starts and ends with a non-whitespace character.
   */
  lemma TrimIsSlice(s: string)
    ensures exists i, j :: 0 <= i <= j <= |s| && Trim(s) == s[i..j]
              && AllWhitespace(s[..i]) && AllWhitespace(s[j..])
    ensures Trim(s) == [] || (!IsJsWhitespace(Trim(s)[0]) && !IsJsWhitespace(Trim(s)[|Trim(s)| - 1]))
  {
    var t := TrimStart(s);
    var i := |s| - |t|;
    var j := i + |Trim(s)|;
    TrimEndOfSuffix(s, i);
    assert 0 <= i <= j <= |s| && Trim(s) == s[i..j] && AllWhitespace(s[..i]) && AllWhitespace(s[j..]);
    if Trim(s) != [] {
      assert Trim(s)[0] == t[0];
    }
  }

  /** Trimming the end of a suffix `s[i..]` leaves a slice `s[i..j]` followed by whitespace. */
  lemma TrimEndOfSuffix(s: string, i: nat)
    requires i <= |s|
    ensures i + |TrimEnd(s[i..])| <= |s|
    ensures TrimEnd(s[i..]) == s[i..i + |TrimEnd(s[i..])|]
    ensures AllWhitespace(s[i + |TrimEnd(s[i..])|..])
  {
    var t := s[i..];
    var u := TrimEnd(t);
    assert t[..|u|] == s[i..i + |u|];
    assert t[|u|..] == s[i + |u|..];
  }

  /** The trimmed text is empty exactly when the input is all whitespace. */
  lemma TrimEmptyIff(s: string)
    ensures Trim(s) == [] <==> AllWhitespace(s)
  {
    var t := TrimStart(s);
    if Trim(s) == [] {
      assert AllWhitespace(t[|TrimEnd(t)|..]);
      assert t == t[|TrimEnd(t)|..];
      assert s == s[..|s| - |t|] + t;
    } else {
      assert t != [] && !IsJsWhitespace(t[0]);
      assert t[0] == s[|s| - |t|];
    }
  }

  /** Trimming twice is trimming once. */
  lemma TrimIdempotent(s: string)
    ensures Trim(Trim(s)) == Trim(s)
  {
    TrimIsSlice(s);
  }

  /** `handleSubmit` forwards only a non-blank input, and only while connected. */
  predicate SubmitActs(input: string, isConnected: bool) {
    Trim(input) != "" && isConnected
  }

  /** The send button's `disabled` attribute. */
  function SendButtonDisabled(isConnected: bool, input: string): (disabled: bool)
    ensures disabled <==> !isConnected || AllWhitespace(input)
    ensures disabled <==> !SubmitActs(input, isConnected)
  {
    TrimEmptyIff(input);
    !isConnected || Trim(input) == ""
  }

  /** The text field's `disabled` attribute. */
  function InputDisabled(isConnected: bool): (disabled: bool)
    ensures disabled ==> forall input :: SendButtonDisabled(isConnected, input)
    ensures disabled <==> !isConnected
  {
    !isConnected
  }

  /** Who a log entry is shown as coming from. */
  datatype Speaker = User | Assistant

  function SpeakerOf(m: Record): (who: Speaker)
    ensures who == User <==> "type" in m && m["type"] == JStr("query")
  {
    if Session.IsQuery(m) then User else Assistant
  }

  /**
   * The text shown for an assistant entry's `content`: a string as it is,
   * anything else through `JSON.stringify` (supplied, since JSON
   * serialisation is not modelled); a missing content shows nothing.
   */
  function AssistantText(content: Option<Value>, stringify: Value -> string): (text: string)
    ensures content.Some? && content.value.JStr? ==> text == content.value.s
    ensures content.Some? && !content.value.JStr? ==> text == stringify(content.value)
    ensures content.None? ==> text == ""
  {
    match content
    case None => ""
    case Some(JStr(s)) => s
    case Some(v) => stringify(v)
  }

  /** The content field of an entry, if it has one. */
  function ContentOf(m: Record): (c: Option<Value>)
    ensures c.Some? <==> "content" in m
    ensures c.Some? ==> c.value == m["content"]
  {
    if "content" in m then Some(m["content"]) else None
  }

  /** The "Assistant is typing" row sits in the branch for a non-empty log. */
  predicate TypingIndicatorShown(messages: seq<Record>, isLoading: bool) {
    |messages| > 0 && isLoading
  }

  /** In every reachable hook state the typing indicator is shown exactly while loading. */
  lemma TypingIndicatorIffLoading(s: Session.State)
    requires Session.Inv(s)
    ensures TypingIndicatorShown(s.messages, s.isLoading) <==> s.isLoading
    ensures TypingIndicatorShown(s.messages, s.isLoading) ==>
              SpeakerOf(s.messages[|s.messages| - 1]) == User
  {
  }

  /** Where the input box sits. */
  datatype Position = Center | Bottom

  /** The effect on `messages.length`: once the log is non-empty the box moves to the bottom. */
  function NextPosition(p: Position, logLength: nat): (q: Position)
    ensures p == Bottom ==> q == Bottom
    ensures q == Bottom <==> p == Bottom || logLength > 0
  {
    if logLength > 0 && p.Center? then Bottom else p
  }

  /** The position after the effect has run for each log length in turn, starting from the centre. */
  function PositionAfter(lengths: seq<nat>): Position {
    if lengths == [] then Center
    else NextPosition(PositionAfter(lengths[..|lengths| - 1]), lengths[|lengths| - 1])
  }

  /** The box is at the bottom iff the log was ever non-empty; it never goes back. */
  lemma {:induction false} PositionAfterIff(lengths: seq<nat>)
    ensures PositionAfter(lengths) == Bottom <==> exists i :: 0 <= i < |lengths| && lengths[i] > 0
  {
    if lengths != [] {
      var init := lengths[..|lengths| - 1];
      PositionAfterIff(init);
      if exists i :: 0 <= i < |init| && init[i] > 0 {
        var i :| 0 <= i < |init| && init[i] > 0;
        assert lengths[i] > 0;
      }
      if PositionAfter(lengths) != Bottom {
        forall i | 0 <= i < |lengths| ensures lengths[i] == 0 {
          if i < |init| { assert lengths[i] == init[i]; }
        }
      }
    }
  }

  /** Since the log only grows, the box is at the bottom iff the current log is non-empty. */
  lemma PositionFollowsLog(lengths: seq<nat>)
    requires lengths != []
    requires forall i, j :: 0 <= i <= j < |lengths| ==> lengths[i] <= lengths[j]
    ensures PositionAfter(lengths) == Bottom <==> lengths[|lengths| - 1] > 0
  {
    PositionAfterIff(lengths);
  }

  /** The chat component: its own state (`input`, `inputPosition`) and the hook it uses. */
  class ChatComponent {
    var input: string
    var inputPosition: Position
    const hook: Session.WebSocketHook

    constructor (hook: Session.WebSocketHook)
      ensures this.hook == hook
      ensures input == "" && inputPosition == Center
    {
      this.hook := hook;
      input := "";
      inputPosition := Center;
    }

    /** The text field's `onChange`. */
    method ChangeInput(value: string)
      modifies this`input
      ensures input == value
    {
      input := value;
    }

    /**
     * `handleSubmit`: with a non-blank input and a connected hook, sends the
     * trimmed text and clears the input; otherwise nothing changes.
     */
    method HandleSubmit()
      requires Session.Inv(hook.Snapshot())
      modifies this`input, hook
      ensures Session.Inv(hook.Snapshot())
      ensures SubmitActs(old(input), old(hook.isConnected)) ==>
                && input == ""
                && hook.Snapshot() == Session.Step(old(hook.Snapshot()), Session.Send(JStr(Trim(old(input)))))
      ensures !SubmitActs(old(input), old(hook.isConnected)) ==>
                input == old(input) && hook.Snapshot() == old(hook.Snapshot())
      ensures inputPosition == old(inputPosition)
    {
      var text := Trim(input);
      if text != "" && hook.isConnected {
        hook.SendMessage(JStr(text));
        input := "";
      }
    }

    /** The effect that runs when the log's length changes. */
    method SyncInputPosition()
      modifies this`inputPosition
      ensures inputPosition == NextPosition(old(inputPosition), |hook.messages|)
      ensures old(inputPosition) == Bottom ==> inputPosition == Bottom
      ensures |hook.messages| > 0 ==> inputPosition == Bottom
    {
      if |hook.messages| > 0 && inputPosition.Center? {
        inputPosition := Bottom;
      }
    }
  }
}
