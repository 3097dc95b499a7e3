/**
 The "View code" dialog of the playground: the request object it shows for
 the current conversation. Only the object is modelled; its JSON text
 (`JSON.stringify`) is presentation.
 */
module ViewCode {
  import opened Types
  import Chat

  /**
   A message as the dialog shows it: its role and its original text; when
   the original text is absent the `content` key is absent too (`None`).
   */
  datatype PayloadMessage = PayloadMessage(role: Role, content: Option<string>)

  datatype ViewPayload = ViewPayload(model: string, config: Config, messages: seq<PayloadMessage>)

  /** The model the dialog always names, whatever model is selected. */
  const ShownModel: string := "gpt-4o"

  /** Each message, in order, becomes its role and its original text; the displayed text is not used. */
  function ProjectMessages(msgs: seq<Message>): (r: seq<PayloadMessage>)
    ensures |r| == |msgs|
    ensures forall i :: 0 <= i < |msgs| ==> r[i].role == msgs[i].role && r[i].content == msgs[i].originalContent
  {
    seq(|msgs|, i requires 0 <= i < |msgs| => PayloadMessage(msgs[i].role, msgs[i].originalContent))
  }

  /** The two lists agree message by message on role and original text. */
  predicate SameOriginals(a: seq<Message>, b: seq<Message>) {
    |a| == |b| && forall i :: 0 <= i < |a| ==> a[i].role == b[i].role && a[i].originalContent == b[i].originalContent
  }

  /** The projection depends on role and original text alone, in both directions. */
  lemma ProjectMessagesIff(a: seq<Message>, b: seq<Message>)
    ensures ProjectMessages(a) == ProjectMessages(b) <==> SameOriginals(a, b)
  {
    if ProjectMessages(a) == ProjectMessages(b) {
      forall i | 0 <= i < |a|
        ensures a[i].role == b[i].role && a[i].originalContent == b[i].originalContent
      {
        assert ProjectMessages(a)[i] == ProjectMessages(b)[i];
      }
    }
  }

  /** The request object: the fixed model, the five sampling settings as given, the projected messages. */
  function CreatePayload(msgs: seq<Message>, config: Config): (r: ViewPayload)
    ensures r.model == ShownModel && r.config == config
    ensures r.messages == ProjectMessages(msgs)
  {
    ViewPayload(ShownModel, config, ProjectMessages(msgs))
  }

  /**
   Switching a bubble to or from its JSON view, and liking or disliking it,
   leave the shown request as it was.
   */
  lemma PayloadIgnoresDisplay(msgs: seq<Message>, id: MsgId, config: Config)
    ensures CreatePayload(Chat.ToggleJson(msgs, id), config) == CreatePayload(msgs, config)
    ensures CreatePayload(Chat.ToggleDislike(msgs, id), config) == CreatePayload(msgs, config)
  {
    Chat.ToggleJsonAt(msgs, id);
    Chat.ToggleDislikeAt(msgs, id);
    ProjectMessagesIff(Chat.ToggleJson(msgs, id), msgs);
    ProjectMessagesIff(Chat.ToggleDislike(msgs, id), msgs);
  }
}
