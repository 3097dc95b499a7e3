/**
 The single-chat conversation store. Its handlers rewrite the page's main
 message list: a send appends a user and an assistant turn (or one turn
 built from the system message), and delete, dislike, JSON view and the
 function-call editors rewrite the messages that carry a given id.
 */
module Chat {
  import opened Types
  import opened Text
  import Json
  import Playground

  const DefaultSystemMessage: string := "You are a helpful assistant..."
  const SystemEmpty: string := "(System empty)"

  /** An assistant message with both a function definition and a response attached (both non-empty). */
  predicate HasFunctionData(m: Message) {
    && m.role == Assistant
    && m.functionJson.Some? && m.functionJson.value != ""
    && m.functionResponse.Some? && m.functionResponse.value != ""
  }

  /** The position of the first message carrying function data, as `Array.prototype.find` meets it. */
  function FindFunctionData(msgs: seq<Message>): (r: Option<nat>)
    ensures r.Some? ==> r.value < |msgs| && HasFunctionData(msgs[r.value])
    ensures r.Some? ==> forall j :: 0 <= j < r.value ==> !HasFunctionData(msgs[j])
    ensures r.None? ==> forall j :: 0 <= j < |msgs| ==> !HasFunctionData(msgs[j])
  {
    if msgs == [] then None
    else if HasFunctionData(msgs[0]) then Some(0)
    else match FindFunctionData(msgs[1..])
      case None => None
      case Some(k) => Some(k + 1)
  }

  function FunctionNote(m: Message): string
    requires HasFunctionData(m)
  {
    "\n\n(Using function data: " + m.functionJson.value + ", response: " + m.functionResponse.value + ")"
  }

  /**
   A new turn after the function-data check: when some earlier message
   carries function data, the first such message's note is appended and the
   original text is set to the extended text.
   */
  function WithFunctionNote(msgs: seq<Message>, m: Message): Message {
    match FindFunctionData(msgs)
    case None => m
    case Some(i) =>
      var c := m.content + FunctionNote(msgs[i]);
      m.(content := c, originalContent := Some(c))
  }

  function AssistantReply(trimmed: string): string {
    "Assistant response to: \"" + trimmed + "\""
  }

  /**
   The turns one press of Run appends to `msgs`. `clock1` and `clock2` are
   the two clock readings the handler takes for ids. Blank input gives one
   assistant turn, other input a user turn and an assistant turn; every new
   turn keeps an original text, is in plain view, not disliked, and carries
   no function definition or response.
   */
  function SendTurns(msgs: seq<Message>, input: string, systemMessage: string, clock1: int, clock2: int): (r: seq<Message>)
    ensures |r| == if Blank(input) then 1 else 2
    ensures r[0].id == clock1 as real && r[|r| - 1].role == Assistant
    ensures !Blank(input) ==> r[0].role == User
    ensures forall k :: 0 <= k < |r| ==>
      && r[k].originalContent.Some? && !r[k].isDisliked && !r[k].isJson
      && r[k].functionJson.None? && r[k].functionResponse.None?
  {
    var trimmed := Trim(input);
    if trimmed != "" then
      [ Turn(clock1 as real, User, trimmed),
        WithFunctionNote(msgs, Turn(clock2 as real + 1.0, Assistant, AssistantReply(trimmed))) ]
    else
      var sys := Trim(systemMessage);
      var shown := if sys != "" then sys else SystemEmpty;
      [ WithFunctionNote(msgs, Message(clock1 as real, Assistant, shown, false, false, Some(sys), None, None)) ]
  }

  /**
   Non-blank input appends exactly two turns, user then assistant. The user
   turn shows and keeps the trimmed input; the assistant turn answers it,
   with the first function-data note when there is one, and keeps its shown
   text as its original text.
   */
  lemma SendNonBlank(msgs: seq<Message>, input: string, systemMessage: string, clock1: int, clock2: int)
    requires !Blank(input)
    ensures var r := SendTurns(msgs, input, systemMessage, clock1, clock2);
      && |r| == 2
      && r[0].role == User && r[0].id == clock1 as real
      && r[0].content == Trim(input) && r[0].originalContent == Some(Trim(input))
      && r[1].role == Assistant && r[1].id == clock2 as real + 1.0
      && r[1].originalContent == Some(r[1].content)
      && (forall k :: 0 <= k < 2 ==>
            !r[k].isDisliked && !r[k].isJson && r[k].functionJson.None? && r[k].functionResponse.None?)
      && (FindFunctionData(msgs).None? ==> r[1].content == AssistantReply(Trim(input)))
      && (FindFunctionData(msgs).Some? ==>
            r[1].content == AssistantReply(Trim(input)) + FunctionNote(msgs[FindFunctionData(msgs).value]))
  {
  }

  /**
   Blank input appends exactly one assistant turn built from the trimmed
   system message, shown as "(System empty)" when that is empty. Without
   function data the original text is the trimmed system message itself, so
   the two texts differ for an empty one; with function data both are the
   extended text.
   */
  lemma SendBlank(msgs: seq<Message>, input: string, systemMessage: string, clock1: int, clock2: int)
    requires Blank(input)
    ensures var r := SendTurns(msgs, input, systemMessage, clock1, clock2);
      var sys := Trim(systemMessage);
      var shown := if sys != "" then sys else SystemEmpty;
      && |r| == 1
      && r[0].role == Assistant && r[0].id == clock1 as real
      && !r[0].isDisliked && !r[0].isJson && r[0].functionJson.None? && r[0].functionResponse.None?
      && (FindFunctionData(msgs).None? ==> r[0].content == shown && r[0].originalContent == Some(sys))
      && (FindFunctionData(msgs).Some? ==>
            r[0].content == shown + FunctionNote(msgs[FindFunctionData(msgs).value])
            && r[0].originalContent == Some(r[0].content))
  {
  }

  /** `messages.filter(m => m.id !== id)`: no message with the id is left, and the list does not grow. */
  function DeleteById(msgs: seq<Message>, id: MsgId): (r: seq<Message>)
    ensures |r| <= |msgs|
    ensures forall k :: 0 <= k < |r| ==> r[k].id != id
  {
    if msgs == [] then []
    else (if msgs[0].id == id then [] else [msgs[0]]) + DeleteById(msgs[1..], id)
  }

  /** Delete keeps exactly the messages with another id; with the id absent the list is unchanged. */
  lemma {:induction false} DeleteByIdMembers(msgs: seq<Message>, id: MsgId)
    ensures forall m :: m in DeleteById(msgs, id) <==> m in msgs && m.id != id
    ensures (forall i :: 0 <= i < |msgs| ==> msgs[i].id != id) ==> DeleteById(msgs, id) == msgs
  {
    if msgs != [] {
      DeleteByIdMembers(msgs[1..], id);
      assert msgs == [msgs[0]] + msgs[1..];
    }
  }

  /** Delete works piecewise, so the surviving messages keep their relative order. */
  lemma {:induction false} DeleteByIdAppend(a: seq<Message>, b: seq<Message>, id: MsgId)
    ensures DeleteById(a + b, id) == DeleteById(a, id) + DeleteById(b, id)
  {
    if a == [] {
      assert a + b == b;
    } else {
      assert (a + b)[1..] == a[1..] + b;
      DeleteByIdAppend(a[1..], b, id);
    }
  }

  /** Appending a message with a fresh id and deleting that id restores the list. */
  lemma DeleteAfterAppend(msgs: seq<Message>, m: Message)
    requires forall i :: 0 <= i < |msgs| ==> msgs[i].id != m.id
    ensures DeleteById(msgs + [m], m.id) == msgs
  {
    DeleteByIdAppend(msgs, [m], m.id);
    DeleteByIdMembers(msgs, m.id);
  }

  /** Deleting the two turns of a send by their (fresh, distinct) ids restores the conversation. */
  lemma SendThenDelete(msgs: seq<Message>, input: string, systemMessage: string, clock1: int, clock2: int)
    requires !Blank(input)
    requires clock1 as real != clock2 as real + 1.0
    requires forall i :: 0 <= i < |msgs| ==> msgs[i].id != clock1 as real && msgs[i].id != clock2 as real + 1.0
    ensures var turns := SendTurns(msgs, input, systemMessage, clock1, clock2);
      DeleteById(DeleteById(msgs + turns, clock2 as real + 1.0), clock1 as real) == msgs
  {
    var turns := SendTurns(msgs, input, systemMessage, clock1, clock2);
    SendNonBlank(msgs, input, systemMessage, clock1, clock2);
    assert msgs + turns == (msgs + [turns[0]]) + [turns[1]];
    forall i | 0 <= i < |msgs + [turns[0]]| ensures (msgs + [turns[0]])[i].id != turns[1].id {
      if i < |msgs| { assert (msgs + [turns[0]])[i] == msgs[i]; }
    }
    DeleteAfterAppend(msgs + [turns[0]], turns[1]);
    DeleteAfterAppend(msgs, turns[0]);
  }

  /** The per-message rewrites the handlers apply to the messages that carry an id. */
  datatype Edit =
    | FlipDislike
    | SwitchView
    | AttachFunction(fn: FunctionDef)
    | SetJson(text: string)
    | SetResponse(text: string)

  /**
   One message switched between its plain view and its JSON view: only the
   shown text and the view flag change, and the shown text afterwards is the
   text of the new view.
   */
  function ToggleJsonView(m: Message): (r: Message)
    ensures r == m.(content := r.content, isJson := !m.isJson)
    ensures r.content == ViewText(r)
  {
    if !m.isJson then m.(content := Json.RoleContentView(m.role, m.originalContent), isJson := true)
    else m.(content := m.originalContent.GetOr(""), isJson := false)
  }

  function Apply(e: Edit, m: Message): Message {
    match e
    case FlipDislike => m.(isDisliked := !m.isDisliked)
    case SwitchView => ToggleJsonView(m)
    case AttachFunction(fn) => m.(functionJson := Some(fn.jsonDefinition), functionResponse := Some(""))
    case SetJson(text) => m.(functionJson := Some(text))
    case SetResponse(text) => m.(functionResponse := Some(text))
  }

  /** `messages.map(m => m.id === id ? edited(m) : m)`. */
  function MapWhere(msgs: seq<Message>, id: MsgId, e: Edit): seq<Message> {
    if msgs == [] then []
    else [if msgs[0].id == id then Apply(e, msgs[0]) else msgs[0]] + MapWhere(msgs[1..], id, e)
  }

  lemma {:induction false} MapWhereAt(msgs: seq<Message>, id: MsgId, e: Edit)
    ensures |MapWhere(msgs, id, e)| == |msgs|
    ensures forall i :: 0 <= i < |msgs| ==>
      MapWhere(msgs, id, e)[i] == if msgs[i].id == id then Apply(e, msgs[i]) else msgs[i]
  {
    if msgs != [] {
      MapWhereAt(msgs[1..], id, e);
    }
  }

  /** The dislike toggle without a click event: only dislike flags change. */
  function ToggleDislike(msgs: seq<Message>, id: MsgId): (r: seq<Message>)
    ensures |r| == |msgs|
    ensures forall i :: 0 <= i < |r| ==> r[i] == msgs[i].(isDisliked := r[i].isDisliked)
  {
    MapWhereAt(msgs, id, FlipDislike);
    MapWhere(msgs, id, FlipDislike)
  }

  /** The toggle flips the flag of the matching messages and changes nothing else. */
  lemma ToggleDislikeAt(msgs: seq<Message>, id: MsgId)
    ensures |ToggleDislike(msgs, id)| == |msgs|
    ensures forall i :: 0 <= i < |msgs| ==>
      var m, r := msgs[i], ToggleDislike(msgs, id)[i];
      && (m.id == id ==> r == m.(isDisliked := !m.isDisliked))
      && (m.id != id ==> r == m)
  {
    MapWhereAt(msgs, id, FlipDislike);
  }

  /** Toggling dislike twice restores the list. */
  lemma ToggleDislikeTwice(msgs: seq<Message>, id: MsgId)
    ensures ToggleDislike(ToggleDislike(msgs, id), id) == msgs
  {
    var once := ToggleDislike(msgs, id);
    ToggleDislikeAt(msgs, id);
    ToggleDislikeAt(once, id);
  }

  /**
   The JSON-view toggle: only shown texts and view flags change, and every
   toggled message shows the text of its new view.
   */
  function ToggleJson(msgs: seq<Message>, id: MsgId): (r: seq<Message>)
    ensures |r| == |msgs|
    ensures forall i :: 0 <= i < |r| ==> r[i] == msgs[i].(content := r[i].content, isJson := r[i].isJson)
    ensures forall i :: 0 <= i < |r| && msgs[i].id == id ==> r[i].content == ViewText(r[i])
  {
    MapWhereAt(msgs, id, SwitchView);
    MapWhere(msgs, id, SwitchView)
  }

  /**
   A matching message in plain view switches to the JSON rendering of its
   role and original text; one in JSON view switches back to its original
   text (empty if it has none). The original text and every other field stay
   put, and other messages are untouched.
   */
  lemma ToggleJsonAt(msgs: seq<Message>, id: MsgId)
    ensures |ToggleJson(msgs, id)| == |msgs|
    ensures forall i :: 0 <= i < |msgs| ==>
      var m, r := msgs[i], ToggleJson(msgs, id)[i];
      && (m.id != id ==> r == m)
      && (m.id == id ==>
            && r == m.(content := r.content, isJson := !m.isJson)
            && r.originalContent == m.originalContent
            && (!m.isJson ==> r.content == Json.RoleContentView(m.role, m.originalContent))
            && (m.isJson ==> r.content == m.originalContent.GetOr("")))
  {
    MapWhereAt(msgs, id, SwitchView);
  }

  /**
   The text a message shows when its view is in step with its original text:
   the JSON rendering in JSON view, the original text (empty if none) otherwise.
   */
  function ViewText(m: Message): string {
    if m.isJson then Json.RoleContentView(m.role, m.originalContent) else m.originalContent.GetOr("")
  }

  lemma ToggleJsonViewTwice(m: Message)
    ensures ToggleJsonView(ToggleJsonView(m)) == m.(content := ViewText(m))
  {
  }

  /**
   Toggling twice restores the view flag and the original text, and leaves
   the shown text in step with them: the original text (empty if none) in
   plain view, its JSON rendering in JSON view, whatever was shown before.
   */
  lemma ToggleJsonTwice(msgs: seq<Message>, id: MsgId)
    ensures |ToggleJson(ToggleJson(msgs, id), id)| == |msgs|
    ensures forall i :: 0 <= i < |msgs| ==>
      var m, r := msgs[i], ToggleJson(ToggleJson(msgs, id), id)[i];
      && (m.id != id ==> r == m)
      && (m.id == id ==> r == m.(content := ViewText(m)))
  {
    var once := ToggleJson(msgs, id);
    MapWhereAt(msgs, id, SwitchView);
    MapWhereAt(once, id, SwitchView);
    forall i | 0 <= i < |msgs| && msgs[i].id == id
      ensures ToggleJson(once, id)[i] == msgs[i].(content := ViewText(msgs[i]))
    {
      ToggleJsonViewTwice(msgs[i]);
    }
  }

  /** For messages whose shown text is in step with their view, the toggle is its own inverse. */
  lemma ToggleJsonRoundTrip(msgs: seq<Message>, id: MsgId)
    requires forall i :: 0 <= i < |msgs| && msgs[i].id == id ==> msgs[i].content == ViewText(msgs[i])
    ensures ToggleJson(ToggleJson(msgs, id), id) == msgs
  {
    ToggleJsonTwice(msgs, id);
  }

  /**
   The turn a blank send makes from an empty system message shows
   "(System empty)" but keeps "" as its original text, so a JSON toggle
   round trip shows "" afterwards.
   */
  lemma EmptySystemTurnLosesPlaceholder(input: string, clock1: int, clock2: int)
    requires Blank(input)
    ensures var m := SendTurns([], input, "", clock1, clock2)[0];
      && m.content == SystemEmpty
      && ToggleJsonView(ToggleJsonView(m)).content == ""
  {
    assert Blank("");
  }

  /** Attaching a function: only function definitions and responses change. */
  function SelectFunctionFor(msgs: seq<Message>, id: MsgId, fn: FunctionDef): (r: seq<Message>)
    ensures |r| == |msgs|
    ensures forall i :: 0 <= i < |r| ==>
      r[i] == msgs[i].(functionJson := r[i].functionJson, functionResponse := r[i].functionResponse)
  {
    MapWhereAt(msgs, id, AttachFunction(fn));
    MapWhere(msgs, id, AttachFunction(fn))
  }

  /** Attaching a function sets its definition text and an empty response on the matching messages only. */
  lemma SelectFunctionAt(msgs: seq<Message>, id: MsgId, fn: FunctionDef)
    ensures |SelectFunctionFor(msgs, id, fn)| == |msgs|
    ensures forall i :: 0 <= i < |msgs| ==>
      var m, r := msgs[i], SelectFunctionFor(msgs, id, fn)[i];
      && (m.id != id ==> r == m)
      && (m.id == id ==>
            && r.functionJson == Some(fn.jsonDefinition) && r.functionResponse == Some("")
            && r == m.(functionJson := r.functionJson, functionResponse := r.functionResponse))
  {
    MapWhereAt(msgs, id, AttachFunction(fn));
  }

  /** Editing a function definition's text: only that field changes. */
  function SetFunctionJson(msgs: seq<Message>, id: MsgId, text: string): (r: seq<Message>)
    ensures |r| == |msgs|
    ensures forall i :: 0 <= i < |r| ==> r[i] == msgs[i].(functionJson := r[i].functionJson)
  {
    MapWhereAt(msgs, id, SetJson(text));
    MapWhere(msgs, id, SetJson(text))
  }

  /** Editing a function response: only that field changes. */
  function SetFunctionResponse(msgs: seq<Message>, id: MsgId, text: string): (r: seq<Message>)
    ensures |r| == |msgs|
    ensures forall i :: 0 <= i < |r| ==> r[i] == msgs[i].(functionResponse := r[i].functionResponse)
  {
    MapWhereAt(msgs, id, SetResponse(text));
    MapWhere(msgs, id, SetResponse(text))
  }

  /** Editing the function text changes that one field of the matching messages. */
  lemma SetFunctionJsonAt(msgs: seq<Message>, id: MsgId, text: string)
    ensures |SetFunctionJson(msgs, id, text)| == |msgs|
    ensures forall i :: 0 <= i < |msgs| ==>
      var m, r := msgs[i], SetFunctionJson(msgs, id, text)[i];
      && (m.id != id ==> r == m)
      && (m.id == id ==> r.functionJson == Some(text) && r == m.(functionJson := r.functionJson))
  {
    MapWhereAt(msgs, id, SetJson(text));
  }

  /** Editing the function response changes that one field of the matching messages. */
  lemma SetFunctionResponseAt(msgs: seq<Message>, id: MsgId, text: string)
    ensures |SetFunctionResponse(msgs, id, text)| == |msgs|
    ensures forall i :: 0 <= i < |msgs| ==>
      var m, r := msgs[i], SetFunctionResponse(msgs, id, text)[i];
      && (m.id != id ==> r == m)
      && (m.id == id ==> r.functionResponse == Some(text) && r == m.(functionResponse := r.functionResponse))
  {
    MapWhereAt(msgs, id, SetResponse(text));
  }

  /** The chat panel's own state; the message list and history belong to the page. */
  class ChatPanel {
    var systemMessage: string
    var inputValue: string
    /** The message whose functions popup is open, if any. */
    var currentMsgId: Option<MsgId>

    constructor ()
      ensures systemMessage == DefaultSystemMessage && inputValue == "" && currentMsgId == None
    {
      systemMessage := DefaultSystemMessage;
      inputValue := "";
      currentMsgId := None;
    }

    method EditInput(text: string)
      modifies this`inputValue
      ensures inputValue == text
    {
      inputValue := text;
    }

    /** A generated system message replaces the current one. */
    method SubmitGeneratedSystemMessage(text: string)
      modifies this`systemMessage
      ensures systemMessage == text
    {
      systemMessage := text;
    }

    /**
     Run: the new turns go to the end of the conversation and, in the same
     order, to the history log; non-blank input is then cleared.
     */
    method Send(page: Playground.Page, clock1: int, clock2: int)
      modifies this`inputValue, page`chatMessages, page`historyRecords
      ensures var turns := SendTurns(old(page.chatMessages), old(inputValue), systemMessage, clock1, clock2);
        && page.chatMessages == old(page.chatMessages) + turns
        && page.historyRecords == old(page.historyRecords) + turns
      ensures inputValue == if Blank(old(inputValue)) then old(inputValue) else ""
    {
      var messages := page.chatMessages;
      ghost var turns := SendTurns(messages, inputValue, systemMessage, clock1, clock2);
      var trimmed := Trim(inputValue);
      if trimmed != "" {
        var userMsg := Turn(clock1 as real, User, trimmed);
        page.chatMessages := page.chatMessages + [userMsg];
        page.AddHistory(userMsg);

        var assistantMsg := Turn(clock2 as real + 1.0, Assistant, AssistantReply(trimmed));
        var hasFn := FindFunctionData(messages);
        if hasFn.Some? {
          assistantMsg := assistantMsg.(content := assistantMsg.content + FunctionNote(messages[hasFn.value]));
          assistantMsg := assistantMsg.(originalContent := Some(assistantMsg.content));
        }
        assert turns == [userMsg, assistantMsg];
        page.chatMessages := page.chatMessages + [assistantMsg];
        page.AddHistory(assistantMsg);
        inputValue := "";
      } else {
        var sys := Trim(systemMessage);
        var systemMsg := Message(clock1 as real, Assistant, if sys != "" then sys else SystemEmpty,
                                 false, false, Some(sys), None, None);
        var hasFn := FindFunctionData(messages);
        if hasFn.Some? {
          systemMsg := systemMsg.(content := systemMsg.content + FunctionNote(messages[hasFn.value]));
          systemMsg := systemMsg.(originalContent := Some(systemMsg.content));
        }
        assert turns == [systemMsg];
        page.chatMessages := page.chatMessages + [systemMsg];
        page.AddHistory(systemMsg);
      }
    }

    method DeleteMessage(page: Playground.Page, id: MsgId)
      modifies page`chatMessages
      ensures page.chatMessages == DeleteById(old(page.chatMessages), id)
    {
      page.chatMessages := DeleteById(page.chatMessages, id);
    }

    method ToggleDislikeMessage(page: Playground.Page, id: MsgId)
      modifies page`chatMessages
      ensures page.chatMessages == ToggleDislike(old(page.chatMessages), id)
    {
      page.chatMessages := ToggleDislike(page.chatMessages, id);
    }

    method ToggleJsonMessage(page: Playground.Page, id: MsgId)
      modifies page`chatMessages
      ensures page.chatMessages == ToggleJson(old(page.chatMessages), id)
    {
      page.chatMessages := ToggleJson(page.chatMessages, id);
    }

    method OpenFunctionsPopup(msgId: MsgId)
      modifies this`currentMsgId
      ensures currentMsgId == Some(msgId)
    {
      currentMsgId := Some(msgId);
    }

    method CloseFunctionsPopup()
      modifies this`currentMsgId
      ensures currentMsgId == None
    {
      currentMsgId := None;
    }

    /**
     Choosing a function in the popup: with no current message (or id 0) it
     does nothing; otherwise it attaches the function to the current message
     and closes the popup.
     */
    method SelectFunction(page: Playground.Page, fn: FunctionDef)
      modifies this`currentMsgId, page`chatMessages
      ensures old(currentMsgId) == None || old(currentMsgId) == Some(0.0) ==>
        page.chatMessages == old(page.chatMessages) && currentMsgId == old(currentMsgId)
      ensures old(currentMsgId) != None && old(currentMsgId) != Some(0.0) ==>
        page.chatMessages == SelectFunctionFor(old(page.chatMessages), old(currentMsgId).value, fn)
        && currentMsgId == None
    {
      if currentMsgId == None || currentMsgId == Some(0.0) {
        return;
      }
      page.chatMessages := SelectFunctionFor(page.chatMessages, currentMsgId.value, fn);
      CloseFunctionsPopup();
    }

    method ChangeFunctionJson(page: Playground.Page, id: MsgId, text: string)
      modifies page`chatMessages
      ensures page.chatMessages == SetFunctionJson(old(page.chatMessages), id, text)
    {
      page.chatMessages := SetFunctionJson(page.chatMessages, id, text);
    }

    method ChangeFunctionResponse(page: Playground.Page, id: MsgId, text: string)
      modifies page`chatMessages
      ensures page.chatMessages == SetFunctionResponse(old(page.chatMessages), id, text)
    {
      page.chatMessages := SetFunctionResponse(page.chatMessages, id, text);
    }
  }
}
