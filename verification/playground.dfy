/**
 The page-level session: the function-definition list, the main chat, the two
 compare-mode columns, the history log and the mode flags, together with the
 page's own handlers. The chat, compare and history panels receive these
 cells' setters and update them through the methods of their own modules.
 */
module Playground {
  import opened Types

  /**
   The function list after an edit is saved: every entry whose name equals
   the edited definition's name is replaced by it.
   */
  function ReplaceByName(fns: seq<FunctionDef>, updated: FunctionDef): (r: seq<FunctionDef>)
    ensures |r| == |fns|
    ensures forall i :: 0 <= i < |r| ==> r[i].name == fns[i].name
  {
    if fns == [] then []
    else [if fns[0].name == updated.name then updated else fns[0]] + ReplaceByName(fns[1..], updated)
  }

  /** Replacement keeps length and order and touches exactly the entries with a matching name. */
  lemma {:induction false} ReplaceByNameAt(fns: seq<FunctionDef>, updated: FunctionDef)
    ensures |ReplaceByName(fns, updated)| == |fns|
    ensures forall i :: 0 <= i < |fns| ==>
      ReplaceByName(fns, updated)[i] == if fns[i].name == updated.name then updated else fns[i]
  {
    if fns != [] {
      ReplaceByNameAt(fns[1..], updated);
    }
  }

  /** An edit whose name matches no entry leaves the list as it was. */
  lemma ReplaceByNameNoMatch(fns: seq<FunctionDef>, updated: FunctionDef)
    requires forall i :: 0 <= i < |fns| ==> fns[i].name != updated.name
    ensures ReplaceByName(fns, updated) == fns
  {
    ReplaceByNameAt(fns, updated);
  }

  /** Saving the same edit twice gives the same list as saving it once. */
  lemma ReplaceByNameIdempotent(fns: seq<FunctionDef>, updated: FunctionDef)
    ensures ReplaceByName(ReplaceByName(fns, updated), updated) == ReplaceByName(fns, updated)
  {
    var once := ReplaceByName(fns, updated);
    ReplaceByNameAt(fns, updated);
    ReplaceByNameAt(once, updated);
  }

  /** Rows numbered from `start`; the row numbered `n` is stamped `now(n)`. */
  function IndexedFrom(records: seq<Message>, start: nat, now: nat -> DateTime): seq<HistoryItem> {
    if records == [] then []
    else [HistoryItem(start, records[0].role, records[0].content, now(start))]
         + IndexedFrom(records[1..], start + 1, now)
  }

  /**
   The rows handed to the history panel: the records numbered from 0. Each
   row reads the clock on its own, so row `i` is stamped `now(i)`, the
   clock's `i`-th reading.
   */
  function HistoryItems(records: seq<Message>, now: nat -> DateTime): (r: seq<HistoryItem>)
    ensures |r| == |records|
    ensures forall i :: 0 <= i < |r| ==> r[i].id == i
  {
    IndexedFromAt(records, 0, now);
    IndexedFrom(records, 0, now)
  }

  lemma {:induction false} IndexedFromAt(records: seq<Message>, start: nat, now: nat -> DateTime)
    ensures |IndexedFrom(records, start, now)| == |records|
    ensures forall i :: 0 <= i < |records| ==>
      IndexedFrom(records, start, now)[i] == HistoryItem(start + i, records[i].role, records[i].content, now(start + i))
  {
    if records != [] {
      IndexedFromAt(records[1..], start + 1, now);
    }
  }

  /** History row `i` has id `i`, the role and content of record `i`, and the clock's `i`-th reading. */
  lemma HistoryItemsAt(records: seq<Message>, now: nat -> DateTime)
    ensures |HistoryItems(records, now)| == |records|
    ensures forall i :: 0 <= i < |records| ==>
      var h := HistoryItems(records, now)[i];
      h.id == i && h.role == records[i].role && h.content == records[i].content && h.timestamp == now(i)
  {
    IndexedFromAt(records, 0, now);
  }

  /** The session state the playground page owns. */
  class Page {
    var functionsList: seq<FunctionDef>
    var chatMessages: seq<Message>
    var leftMessages: seq<Message>
    var rightMessages: seq<Message>
    var historyRecords: seq<Message>
    var isCompareMode: bool
    var isHistoryOpen: bool

    constructor ()
      ensures functionsList == [] && chatMessages == [] && historyRecords == []
      ensures leftMessages == [] && rightMessages == []
      ensures !isCompareMode && !isHistoryOpen
    {
      functionsList := [];
      chatMessages := [];
      leftMessages := [];
      rightMessages := [];
      historyRecords := [];
      isCompareMode := false;
      isHistoryOpen := false;
    }

    /** A saved new definition goes to the end of the list. */
    method AddFunction(fn: FunctionDef)
      modifies this`functionsList
      ensures functionsList == old(functionsList) + [fn]
    {
      functionsList := functionsList + [fn];
    }

    /** A saved edit replaces the entries that carry its name. */
    method UpdateFunction(updated: FunctionDef)
      modifies this`functionsList
      ensures functionsList == ReplaceByName(old(functionsList), updated)
      ensures |functionsList| == |old(functionsList)|
    {
      ReplaceByNameAt(functionsList, updated);
      functionsList := ReplaceByName(functionsList, updated);
    }

    /** Clear empties the main chat only. */
    method Clear()
      modifies this`chatMessages
      ensures chatMessages == []
    {
      chatMessages := [];
    }

    method ToggleHistory()
      modifies this`isHistoryOpen
      ensures isHistoryOpen == !old(isHistoryOpen)
    {
      isHistoryOpen := !isHistoryOpen;
    }

    /**
     Entering compare mode starts both columns as copies of the main chat;
     leaving it touches no list. The flag flips either way.
     */
    method ToggleCompare()
      modifies this`leftMessages, this`rightMessages, this`isCompareMode
      ensures isCompareMode == !old(isCompareMode)
      ensures !old(isCompareMode) ==> leftMessages == chatMessages && rightMessages == chatMessages
      ensures old(isCompareMode) ==> leftMessages == old(leftMessages) && rightMessages == old(rightMessages)
    {
      if !isCompareMode {
        leftMessages := chatMessages;
        rightMessages := chatMessages;
      }
      isCompareMode := !isCompareMode;
    }

    /** The chat's history callback: each reported message goes to the end of the log. */
    method AddHistory(m: Message)
      modifies this`historyRecords
      ensures historyRecords == old(historyRecords) + [m]
    {
      historyRecords := historyRecords + [m];
    }

    method ClearHistory()
      modifies this`historyRecords
      ensures historyRecords == []
    {
      historyRecords := [];
    }
  }
}
