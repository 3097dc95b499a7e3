/**
 The records the playground's conversation layer passes around: chat
 messages, function definitions, sampling configuration, history items and
 the calendar fields a history timestamp exposes.
 */
module Types {

  datatype Option<+T> = None | Some(value: T) {
    function GetOr(default: T): T {
      match this
      case Some(v) => v
      case None => default
    }
  }

  datatype Result<+R, +E> = Ok(value: R) | Err(error: E)

  /** The two roles a chat message can carry. */
  datatype Role = User | Assistant

  /** A message id: a millisecond clock reading, possibly plus a random fraction. */
  type MsgId = real

  /**
   A chat message. Optional fields of the source record are `Option`s;
   `isDisliked` and `isJson` are plain flags because every reader treats an
   absent flag as `false`. `functionJson`/`functionResponse` are the
   assistant-only extension used by the single chat.
   */
  datatype Message = Message(
    id: MsgId,
    role: Role,
    content: string,
    isDisliked: bool,
    isJson: bool,
    originalContent: Option<string>,
    functionJson: Option<string>,
    functionResponse: Option<string>)

  /** A fresh message whose displayed and original text are both `text`. */
  function Turn(id: MsgId, role: Role, text: string): Message {
    Message(id, role, text, false, false, Some(text), None, None)
  }

  /** A named, JSON-described callable a user can attach to a message. */
  datatype FunctionDef = FunctionDef(name: string, jsonDefinition: string)

  /** The sampling parameters shown in the configuration panels. */
  datatype Config = Config(
    temperature: real,
    maxTokens: real,
    topP: real,
    frequencyPenalty: real,
    presencePenalty: real)

  type Weekday = d: int | 0 <= d < 7
  type MonthIndex = m: int | 0 <= m < 12
  type DayOfMonth = d: int | 1 <= d <= 31 witness 1
  type Hour = h: int | 0 <= h < 24
  type Minute = m: int | 0 <= m < 60

  /** The local-time fields a JavaScript `Date` reports through its getters. */
  datatype DateTime = DateTime(
    year: nat,
    month: MonthIndex,
    day: DayOfMonth,
    weekday: Weekday,
    hours: Hour,
    minutes: Minute)

  /** The two columns of compare mode. */
  datatype Side = Left | Right

  /** One row handed to the history panel. */
  datatype HistoryItem = HistoryItem(id: nat, role: Role, content: string, timestamp: DateTime)
}
