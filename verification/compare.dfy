/**
 Compare mode: two columns, each sent to its own model, beside the page's
 main chat. The column menus copy, clear and move whole columns, giving every
 copied message a new id; Run appends the user turn to all three lists and
 one reply (or error) turn per column, mirrored into the main chat.
 */
module Compare {
  import opened Types
  import opened Text
  import Api = PlaygroundApi
  import Playground

  /**
   Copies of `msgs` with new ids: the copy of message `i` takes id `ids(i)`,
   where `ids` stands for the successive `Date.now() + Math.random()` readings.
   */
  function Reidentify(msgs: seq<Message>, ids: nat -> real): (r: seq<Message>)
    ensures |r| == |msgs|
    ensures forall i :: 0 <= i < |msgs| ==> r[i] == msgs[i].(id := ids(i))
  {
    seq(|msgs|, i requires 0 <= i < |msgs| => msgs[i].(id := ids(i)))
  }

  /** The first `n` readings of `ids` are pairwise distinct and clash with no id in `taken`. */
  predicate FreshIds(ids: nat -> real, n: nat, taken: seq<Message>) {
    && (forall i, j :: 0 <= i < j < n ==> ids(i) != ids(j))
    && (forall i, k :: 0 <= i < n && 0 <= k < |taken| ==> ids(i) != taken[k].id)
  }

  /** No two messages of `msgs` share an id. */
  predicate DistinctIds(msgs: seq<Message>) {
    forall i, j :: 0 <= i < j < |msgs| ==> msgs[i].id != msgs[j].id
  }

  /** The two column lists. */
  datatype Sides = Sides(left: seq<Message>, right: seq<Message>)

  /** The same column lists seen from the other side. */
  function Swap(s: Sides): Sides {
    Sides(s.right, s.left)
  }

  /**
   The left column's menu: sync from the right, clear, or move everything to
   the right. Sync and clear leave the right column alone, a move keeps the
   number of messages, and any other action changes nothing.
   */
  function LeftAction(action: string, s: Sides, ids: nat -> real): (r: Sides)
    ensures action in {"sync", "clear"} ==> r.right == s.right
    ensures action == "sync" ==> |r.left| == |s.right|
    ensures action == "moveRight" ==> r.left == [] && |r.right| == |s.left| + |s.right|
    ensures action !in {"sync", "clear", "moveRight"} ==> r == s
  {
    if action == "sync" then s.(left := Reidentify(s.right, ids))
    else if action == "clear" then s.(left := [])
    else if action == "moveRight" then Sides([], s.right + Reidentify(s.left, ids))
    else s
  }

  /**
   The right column's menu: sync from the left, clear, or move everything to
   the left, with the same guarantees as the left menu on the other side.
   */
  function RightAction(action: string, s: Sides, ids: nat -> real): (r: Sides)
    ensures action in {"sync", "clear"} ==> r.left == s.left
    ensures action == "sync" ==> |r.right| == |s.left|
    ensures action == "moveLeft" ==> r.right == [] && |r.left| == |s.left| + |s.right|
    ensures action !in {"sync", "clear", "moveLeft"} ==> r == s
  {
    if action == "sync" then s.(right := Reidentify(s.left, ids))
    else if action == "clear" then s.(right := [])
    else if action == "moveLeft" then Sides(s.left + Reidentify(s.right, ids), [])
    else s
  }

  /** The name of an action on the opposite column. */
  function Mirror(action: string): string {
    if action == "moveRight" then "moveLeft"
    else if action == "moveLeft" then "moveRight"
    else action
  }

  /** The two menus are mirror images of each other. */
  lemma MenusMirror(action: string, s: Sides, ids: nat -> real)
    ensures RightAction(Mirror(action), Swap(s), ids) == Swap(LeftAction(action, s, ids))
  {
  }

  /** Two lists without inner clashes and without clashes between them join without clashes. */
  lemma DistinctIdsJoin(a: seq<Message>, b: seq<Message>)
    requires DistinctIds(a) && DistinctIds(b)
    requires forall i, k :: 0 <= i < |a| && 0 <= k < |b| ==> a[i].id != b[k].id
    ensures DistinctIds(a + b)
  {
    var ab := a + b;
    forall i, j | 0 <= i < j < |ab| ensures ab[i].id != ab[j].id {
      if j < |a| {
        assert ab[i] == a[i] && ab[j] == a[j];
      } else if i < |a| {
        assert ab[i] == a[i] && ab[j] == b[j - |a|];
      } else {
        assert ab[i] == b[i - |a|] && ab[j] == b[j - |a|];
      }
    }
  }

  /** Copies made with fresh readings clash neither with each other nor with the taken ids. */
  lemma FreshCopies(msgs: seq<Message>, ids: nat -> real, taken: seq<Message>)
    requires FreshIds(ids, |msgs|, taken)
    ensures DistinctIds(Reidentify(msgs, ids))
    ensures forall i, k :: 0 <= i < |msgs| && 0 <= k < |taken| ==> Reidentify(msgs, ids)[i].id != taken[k].id
  {
  }

  /** The messages of the second part of a join. */
  lemma JoinTail(a: seq<Message>, b: seq<Message>)
    ensures forall k :: 0 <= k < |b| ==> (a + b)[|a| + k] == b[k]
  {
  }

  /**
   Sync makes the left column a copy of the right one: same length, each
   message equal to its counterpart but for the id, taken from `ids`; the
   right column is untouched.
   */
  lemma SyncLeft(s: Sides, ids: nat -> real)
    ensures var t := LeftAction("sync", s, ids);
      && t.right == s.right
      && |t.left| == |s.right|
      && (forall i :: 0 <= i < |t.left| ==> t.left[i] == s.right[i].(id := ids(i)))
  {
  }

  /** With fresh readings, a sync leaves no id shared within or across the columns. */
  lemma SyncLeftDistinct(s: Sides, ids: nat -> real)
    requires FreshIds(ids, |s.right|, s.left + s.right)
    requires DistinctIds(s.right)
    ensures var t := LeftAction("sync", s, ids);
      DistinctIds(t.left + t.right)
  {
    var copies := Reidentify(s.right, ids);
    FreshCopies(s.right, ids, s.left + s.right);
    JoinTail(s.left, s.right);
    DistinctIdsJoin(copies, s.right);
  }

  /**
   Move-right appends copies of the left column, in order, after the right
   one and empties the left column; copy `i` takes id `ids(i)`.
   */
  lemma MoveRight(s: Sides, ids: nat -> real)
    ensures var t := LeftAction("moveRight", s, ids);
      && t.left == []
      && |t.right| == |s.right| + |s.left|
      && t.right[..|s.right|] == s.right
      && (forall i :: 0 <= i < |s.left| ==> t.right[|s.right| + i] == s.left[i].(id := ids(i)))
  {
    var copies := Reidentify(s.left, ids);
    JoinTail(s.right, copies);
    assert (s.right + copies)[..|s.right|] == s.right;
  }

  /**
   With fresh readings, the moved copies share no id with each other or
   with the messages already on the right.
   */
  lemma MoveRightDistinct(s: Sides, ids: nat -> real)
    requires FreshIds(ids, |s.left|, s.left + s.right)
    requires DistinctIds(s.right)
    ensures DistinctIds(LeftAction("moveRight", s, ids).right)
  {
    var copies := Reidentify(s.left, ids);
    FreshCopies(s.left, ids, s.left + s.right);
    JoinTail(s.left, s.right);
    DistinctIdsJoin(s.right, copies);
  }

  /** Clear empties its own column only; view-code and unknown actions change no list. */
  lemma OtherLeftActions(action: string, s: Sides, ids: nat -> real)
    ensures LeftAction("clear", s, ids) == Sides([], s.right)
    ensures action !in {"sync", "clear", "moveRight"} ==> LeftAction(action, s, ids) == s
  {
  }

  /** The metrics shown under a column. */
  datatype Timing = Timing(totalMs: int, upTokens: nat, downTokens: nat, requestId: string)

  const NoTiming: Timing := Timing(0, 0, 0, "")
  const DefaultConfig: Config := Config(1.0, 2048.0, 1.0, 0.0, 0.0)
  const NoReply: string := "(sin respuesta)"

  /**
   The trimmed input as a user turn; `clock` is the id clock reading. Its
   text has nothing left to trim and is also its original text.
   */
  function UserTurn(input: string, clock: int): (m: Message)
    ensures m.role == User && m.id == clock as real && !m.isJson && !m.isDisliked
    ensures Trim(m.content) == m.content && m.originalContent == Some(m.content)
    ensures m.content == [] <==> Blank(input)
  {
    TrimIdempotent(input);
    Turn(clock as real, User, Trim(input))
  }

  /** The request messages: every message reduced to its role and shown text. */
  function Project(msgs: seq<Message>): (r: seq<Api.ChatMessage>)
    ensures |r| == |msgs|
    ensures forall i :: 0 <= i < |msgs| ==> r[i] == Api.ChatMessage(msgs[i].role, msgs[i].content)
  {
    seq(|msgs|, i requires 0 <= i < |msgs| => Api.ChatMessage(msgs[i].role, msgs[i].content))
  }

  /** The options one column sends: its model and all five of its settings. */
  function ColumnOptions(model: string, config: Config, msgs: seq<Message>): Api.Options {
    Api.Options(model, Project(msgs), Some(config.temperature), Some(config.maxTokens),
                Some(config.topP), Some(config.frequencyPenalty), Some(config.presencePenalty))
  }

  /** The text a successful call shows: the first choice's text, or the placeholder when it is missing or empty. */
  function ReplyText(c: Api.Completion): (r: string)
    ensures r != ""
    ensures c.reply.Some? && c.reply.value != "" ==> r == c.reply.value
    ensures c.reply.None? || c.reply.value == "" ==> r == NoReply
  {
    if c.reply.Some? && c.reply.value != "" then c.reply.value else NoReply
  }

  /**
   The turn a column gains from a call: the reply with id `clock + okOffset`
   on success, "Error (<column>): " and the message with id
   `clock + errOffset` on failure.
   */
  function ReplyTurn(column: string, outcome: Result<Api.Timed, string>, clock: int, okOffset: int, errOffset: int): (m: Message)
    ensures m.role == Assistant && m.originalContent == Some(m.content) && !m.isJson && !m.isDisliked
    ensures m.functionJson.None? && m.functionResponse.None?
  {
    match outcome
    case Ok(t) => Turn((clock + okOffset) as real, Assistant, ReplyText(t.data))
    case Err(msg) => Turn((clock + errOffset) as real, Assistant, "Error (" + column + "): " + msg)
  }

  /** The metrics after a call: refreshed on success, with 0, 0 and "" for what the response lacks; kept on failure. */
  function TimingAfter(before: Timing, outcome: Result<Api.Timed, string>): (r: Timing)
    ensures outcome.Err? ==> r == before
    ensures outcome.Ok? ==> r.totalMs == outcome.value.timeMs
    ensures outcome.Ok? ==> r.requestId == outcome.value.data.id.GetOr("")
    ensures outcome.Ok? && outcome.value.data.usage.Some? ==>
      r.upTokens == outcome.value.data.usage.value.promptTokens
      && r.downTokens == outcome.value.data.usage.value.completionTokens
    ensures outcome.Ok? && outcome.value.data.usage.None? ==> r.upTokens == 0 && r.downTokens == 0
  {
    match outcome
    case Ok(t) =>
      Timing(t.timeMs,
             if t.data.usage.Some? then t.data.usage.value.promptTokens else 0,
             if t.data.usage.Some? then t.data.usage.value.completionTokens else 0,
             t.data.id.GetOr(""))
    case Err(_) => before
  }

  /**
   A column's reply turn is an assistant turn whose shown and original text
   agree: the reply text (or "(sin respuesta)") on success, and on failure a
   text that starts with the column's name and ends with the error message.
   */
  lemma ReplyTurnShape(column: string, outcome: Result<Api.Timed, string>, clock: int, okOffset: int, errOffset: int)
    ensures var m := ReplyTurn(column, outcome, clock, okOffset, errOffset);
      && m.role == Assistant && m.originalContent == Some(m.content) && !m.isJson && !m.isDisliked
      && (outcome.Ok? ==>
            && m.id == (clock + okOffset) as real && m.content != ""
            && (outcome.value.data.reply.Some? && outcome.value.data.reply.value != "" ==> m.content == outcome.value.data.reply.value)
            && (outcome.value.data.reply.None? || outcome.value.data.reply.value == "" ==> m.content == NoReply))
      && (outcome.Err? ==>
            && m.id == (clock + errOffset) as real
            && StartsWith(m.content, "Error (" + column + "): ")
            && m.content[|m.content| - |outcome.error|..] == outcome.error)
  {
  }

  /** The turn the left column gains from its call. */
  function LeftReply(fetched: Api.Fetched<Api.Completion>, t0: int, t1: int, clock: int): Message {
    ReplyTurn("left", Api.Outcome(fetched, t0, t1), clock, 100, 101)
  }

  /** The turn the right column gains from its call. */
  function RightReply(fetched: Api.Fetched<Api.Completion>, t0: int, t1: int, clock: int): Message {
    ReplyTurn("right", Api.Outcome(fetched, t0, t1), clock, 200, 201)
  }

  /** A column whose call comes back with a non-ok status shows the status code in its error turn. */
  lemma HttpFailureShowsStatus(column: string, status: nat, statusText: string, t0: int, t1: int, clock: int)
    requires !Api.IsOk(status)
    ensures var m := ReplyTurn(column, Api.Outcome(Api.Response(status, statusText, Api.Completion(None, None, None)), t0, t1), clock, 100, 101);
      && Contains(m.content, Decimal(status))
      && Contains(m.content, statusText)
  {
    var msg := Api.HttpError(status, statusText);
    Api.HttpErrorMentionsStatus(status, statusText);
    ContainsWithin("Error (" + column + "): ", msg, "", Decimal(status));
    ContainsWithin("Error (" + column + "): ", msg, "", statusText);
    assert "Error (" + column + "): " + msg + "" == "Error (" + column + "): " + msg;
  }

  /**
   A successful response without usage resets the token counts to 0 with the
   measured time and the response id, or "" when it has none.
   */
  lemma TimingDefaults(before: Timing, t: Api.Timed)
    requires t.data.usage.None?
    ensures TimingAfter(before, Ok(t)) == Timing(t.timeMs, 0, 0, t.data.id.GetOr(""))
    ensures t.data.id.None? ==> TimingAfter(before, Ok(t)) == Timing(t.timeMs, 0, 0, "")
  {
  }

  /** The compare view's own state; the three message lists belong to the page. */
  class CompareView {
    var inputVal: string
    var leftModel: string
    var rightModel: string
    var leftConfig: Config
    var rightConfig: Config
    var leftFunctions: seq<FunctionDef>
    var rightFunctions: seq<FunctionDef>
    var leftResponseFmt: string
    var rightResponseFmt: string
    var leftTiming: Timing
    var rightTiming: Timing
    var leftCodeOpen: bool
    var rightCodeOpen: bool
    var leftMenuOpen: bool
    var rightMenuOpen: bool

    constructor ()
      ensures inputVal == "" && leftModel == "gpt-4" && rightModel == "gpt-4"
      ensures leftConfig == DefaultConfig && rightConfig == DefaultConfig
      ensures leftFunctions == [] && rightFunctions == []
      ensures leftResponseFmt == "text" && rightResponseFmt == "text"
      ensures leftTiming == NoTiming && rightTiming == NoTiming
      ensures !leftCodeOpen && !rightCodeOpen && !leftMenuOpen && !rightMenuOpen
    {
      inputVal := "";
      leftModel := "gpt-4";
      rightModel := "gpt-4";
      leftConfig := DefaultConfig;
      rightConfig := DefaultConfig;
      leftFunctions := [];
      rightFunctions := [];
      leftResponseFmt := "text";
      rightResponseFmt := "text";
      leftTiming := NoTiming;
      rightTiming := NoTiming;
      leftCodeOpen := false;
      rightCodeOpen := false;
      leftMenuOpen := false;
      rightMenuOpen := false;
    }

    method EditInput(text: string)
      modifies this`inputVal
      ensures inputVal == text
    {
      inputVal := text;
    }

    /** `doLeftAction`: view-code opens the left code view; every action closes the left menu. */
    method DoLeftAction(action: string, page: Playground.Page, ids: nat -> real)
      modifies page`leftMessages, page`rightMessages, this`leftCodeOpen, this`leftMenuOpen
      ensures Sides(page.leftMessages, page.rightMessages)
        == LeftAction(action, Sides(old(page.leftMessages), old(page.rightMessages)), ids)
      ensures leftCodeOpen == (old(leftCodeOpen) || action == "viewCode")
      ensures !leftMenuOpen
    {
      if action == "viewCode" {
        leftCodeOpen := true;
      } else if action == "sync" {
        page.leftMessages := Reidentify(page.rightMessages, ids);
      } else if action == "clear" {
        page.leftMessages := [];
      } else if action == "moveRight" {
        page.rightMessages := page.rightMessages + Reidentify(page.leftMessages, ids);
        page.leftMessages := [];
      }
      leftMenuOpen := false;
    }

    /** `doRightAction`: the mirror image of `doLeftAction`. */
    method DoRightAction(action: string, page: Playground.Page, ids: nat -> real)
      modifies page`leftMessages, page`rightMessages, this`rightCodeOpen, this`rightMenuOpen
      ensures Sides(page.leftMessages, page.rightMessages)
        == RightAction(action, Sides(old(page.leftMessages), old(page.rightMessages)), ids)
      ensures rightCodeOpen == (old(rightCodeOpen) || action == "viewCode")
      ensures !rightMenuOpen
    {
      if action == "viewCode" {
        rightCodeOpen := true;
      } else if action == "sync" {
        page.rightMessages := Reidentify(page.leftMessages, ids);
      } else if action == "clear" {
        page.rightMessages := [];
      } else if action == "moveLeft" {
        page.leftMessages := page.leftMessages + Reidentify(page.rightMessages, ids);
        page.rightMessages := [];
      }
      rightMenuOpen := false;
    }

    /**
     One column's part of Run: the call with the column's model, settings and
     `history`, then the turn it yields and the metrics it leaves (`before`
     when the call fails).
     */
    static method CallColumn(column: string, model: string, config: Config, history: seq<Message>,
                             fetched: Api.Fetched<Api.Completion>, t0: int, t1: int,
                             clock: int, okOffset: int, errOffset: int, before: Timing)
      returns (body: Api.RequestBody, reply: Message, timing: Timing)
      ensures body == Api.BuildBody(ColumnOptions(model, config, history))
      ensures reply == ReplyTurn(column, Api.Outcome(fetched, t0, t1), clock, okOffset, errOffset)
      ensures timing == TimingAfter(before, Api.Outcome(fetched, t0, t1))
    {
      var result;
      body, result := Api.CreateChatCompletion(ColumnOptions(model, config, history), fetched, t0, t1);
      timing := before;
      match result {
        case Ok(t) =>
          reply := Turn((clock + okOffset) as real, Assistant, ReplyText(t.data));
          var promptTokens := if t.data.usage.Some? then t.data.usage.value.promptTokens else 0;
          var completionTokens := if t.data.usage.Some? then t.data.usage.value.completionTokens else 0;
          timing := Timing(t.timeMs, promptTokens, completionTokens, t.data.id.GetOr(""));
        case Err(msg) =>
          reply := Turn((clock + errOffset) as real, Assistant, "Error (" + column + "): " + msg);
      }
    }

    /** The left column's call: its turn goes to the left column and the main chat. */
    method RunLeft(page: Playground.Page, history: seq<Message>,
                   fetched: Api.Fetched<Api.Completion>, t0: int, t1: int, clock: int)
      returns (body: Option<Api.RequestBody>)
      modifies this`leftTiming, page`leftMessages, page`chatMessages
      ensures body == Some(Api.BuildBody(ColumnOptions(leftModel, leftConfig, history)))
      ensures page.leftMessages == old(page.leftMessages) + [LeftReply(fetched, t0, t1, clock)]
      ensures page.chatMessages == old(page.chatMessages) + [LeftReply(fetched, t0, t1, clock)]
      ensures leftTiming == TimingAfter(old(leftTiming), Api.Outcome(fetched, t0, t1))
    {
      var b, reply, timing := CallColumn("left", leftModel, leftConfig, history, fetched, t0, t1, clock, 100, 101, leftTiming);
      body := Some(b);
      leftTiming := timing;
      page.leftMessages := page.leftMessages + [reply];
      page.chatMessages := page.chatMessages + [reply];
    }

    /** The right column's call: its turn goes to the right column and the main chat. */
    method RunRight(page: Playground.Page, history: seq<Message>,
                    fetched: Api.Fetched<Api.Completion>, t0: int, t1: int, clock: int)
      returns (body: Option<Api.RequestBody>)
      modifies this`rightTiming, page`rightMessages, page`chatMessages
      ensures body == Some(Api.BuildBody(ColumnOptions(rightModel, rightConfig, history)))
      ensures page.rightMessages == old(page.rightMessages) + [RightReply(fetched, t0, t1, clock)]
      ensures page.chatMessages == old(page.chatMessages) + [RightReply(fetched, t0, t1, clock)]
      ensures rightTiming == TimingAfter(old(rightTiming), Api.Outcome(fetched, t0, t1))
    {
      var b, reply, timing := CallColumn("right", rightModel, rightConfig, history, fetched, t0, t1, clock, 200, 201, rightTiming);
      body := Some(b);
      rightTiming := timing;
      page.rightMessages := page.rightMessages + [reply];
      page.chatMessages := page.chatMessages + [reply];
    }

    /**
     A Run with a non-blank input, once its user turn is built: the turn goes
     to both columns and the main chat, the input is cleared, then the left
     and the right column each send their old list plus the turn and gain
     their reply, in that order.
     */
    method Exchange(page: Playground.Page, userMsg: Message,
                    leftFetched: Api.Fetched<Api.Completion>, leftT0: int, leftT1: int, leftClock: int,
                    rightFetched: Api.Fetched<Api.Completion>, rightT0: int, rightT1: int, rightClock: int)
      returns (leftBody: Option<Api.RequestBody>, rightBody: Option<Api.RequestBody>)
      modifies this`inputVal, this`leftTiming, this`rightTiming
      modifies page`leftMessages, page`rightMessages, page`chatMessages
      ensures inputVal == ""
      ensures leftBody == Some(Api.BuildBody(ColumnOptions(leftModel, leftConfig, old(page.leftMessages) + [userMsg])))
      ensures rightBody == Some(Api.BuildBody(ColumnOptions(rightModel, rightConfig, old(page.rightMessages) + [userMsg])))
      ensures page.leftMessages == old(page.leftMessages) + [userMsg] + [LeftReply(leftFetched, leftT0, leftT1, leftClock)]
      ensures page.rightMessages == old(page.rightMessages) + [userMsg] + [RightReply(rightFetched, rightT0, rightT1, rightClock)]
      ensures page.chatMessages == old(page.chatMessages) + [userMsg]
        + [LeftReply(leftFetched, leftT0, leftT1, leftClock)] + [RightReply(rightFetched, rightT0, rightT1, rightClock)]
      ensures leftTiming == TimingAfter(old(leftTiming), Api.Outcome(leftFetched, leftT0, leftT1))
      ensures rightTiming == TimingAfter(old(rightTiming), Api.Outcome(rightFetched, rightT0, rightT1))
    {
      var leftBefore := page.leftMessages;
      var rightBefore := page.rightMessages;
      page.leftMessages := page.leftMessages + [userMsg];
      page.rightMessages := page.rightMessages + [userMsg];
      page.chatMessages := page.chatMessages + [userMsg];
      inputVal := "";

      leftBody := RunLeft(page, leftBefore + [userMsg], leftFetched, leftT0, leftT1, leftClock);
      rightBody := RunRight(page, rightBefore + [userMsg], rightFetched, rightT0, rightT1, rightClock);
    }

    /**
     Run. Blank input changes nothing. Otherwise the trimmed user turn goes to
     both columns and the main chat, the input is cleared, and each column in
     turn sends its own history plus the user turn, gains one reply or error
     turn (mirrored into the main chat) and updates its metrics. Each call's
     network result and clock readings are parameters: `userClock` for the
     user turn, `t0`/`t1` around a call and the clock read after it settles.
     The bodies sent are returned.
     */
    method Send(page: Playground.Page, userClock: int,
                leftFetched: Api.Fetched<Api.Completion>, leftT0: int, leftT1: int, leftClock: int,
                rightFetched: Api.Fetched<Api.Completion>, rightT0: int, rightT1: int, rightClock: int)
      returns (leftBody: Option<Api.RequestBody>, rightBody: Option<Api.RequestBody>)
      modifies this`inputVal, this`leftTiming, this`rightTiming
      modifies page`leftMessages, page`rightMessages, page`chatMessages
      ensures Trim(old(inputVal)) == "" ==>
        && leftBody == None && rightBody == None
        && inputVal == old(inputVal) && leftTiming == old(leftTiming) && rightTiming == old(rightTiming)
        && page.leftMessages == old(page.leftMessages) && page.rightMessages == old(page.rightMessages)
        && page.chatMessages == old(page.chatMessages)
      ensures Trim(old(inputVal)) != "" ==> inputVal == ""
      ensures Trim(old(inputVal)) != "" ==>
        leftBody == Some(Api.BuildBody(ColumnOptions(leftModel, leftConfig, old(page.leftMessages) + [UserTurn(old(inputVal), userClock)])))
      ensures Trim(old(inputVal)) != "" ==>
        rightBody == Some(Api.BuildBody(ColumnOptions(rightModel, rightConfig, old(page.rightMessages) + [UserTurn(old(inputVal), userClock)])))
      ensures Trim(old(inputVal)) != "" ==>
        page.leftMessages == old(page.leftMessages) + [UserTurn(old(inputVal), userClock)] + [LeftReply(leftFetched, leftT0, leftT1, leftClock)]
      ensures Trim(old(inputVal)) != "" ==>
        page.rightMessages == old(page.rightMessages) + [UserTurn(old(inputVal), userClock)] + [RightReply(rightFetched, rightT0, rightT1, rightClock)]
      ensures Trim(old(inputVal)) != "" ==>
        page.chatMessages == old(page.chatMessages)
          + [UserTurn(old(inputVal), userClock)] + [LeftReply(leftFetched, leftT0, leftT1, leftClock)]
          + [RightReply(rightFetched, rightT0, rightT1, rightClock)]
      ensures Trim(old(inputVal)) != "" ==>
        && leftTiming == TimingAfter(old(leftTiming), Api.Outcome(leftFetched, leftT0, leftT1))
        && rightTiming == TimingAfter(old(rightTiming), Api.Outcome(rightFetched, rightT0, rightT1))
    {
      if Trim(inputVal) == "" {
        return None, None;
      }
      var userMsg := UserTurn(inputVal, userClock);
      leftBody, rightBody := Exchange(page, userMsg, leftFetched, leftT0, leftT1, leftClock,
                                      rightFetched, rightT0, rightT1, rightClock);
    }
  }
}
