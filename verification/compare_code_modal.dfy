/**
 The per-column "View code" dialog of the compare view: the request object
 it shows for one column.
 */
module CompareCode {
  import opened Types
  import opened Text
  import ViewCode

  datatype ComparePayload = ComparePayload(
    side: Side,
    model: string,
    responseFormat: string,
    config: Config,
    functions: seq<FunctionDef>,
    messages: seq<ViewCode.PayloadMessage>)

  function SideName(side: Side): string {
    match side
    case Left => "left"
    case Right => "right"
  }

  /** The dialog's title: the column's name in capitals followed by " code". */
  function Title(side: Side): (r: string)
    ensures side == Side.Left ==> r == "LEFT code"
    ensures side == Side.Right ==> r == "RIGHT code"
  {
    ToUpper(SideName(side)) + " code"
  }

  /** Each function, in order, keeps exactly its name and its definition text. */
  function ProjectFunctions(fns: seq<FunctionDef>): (r: seq<FunctionDef>)
    ensures |r| == |fns|
    ensures forall i :: 0 <= i < |fns| ==> r[i].name == fns[i].name && r[i].jsonDefinition == fns[i].jsonDefinition
  {
    seq(|fns|, i requires 0 <= i < |fns| => FunctionDef(fns[i].name, fns[i].jsonDefinition))
  }

  /** Functions carry only a name and a definition, so the projection is the list itself. */
  lemma ProjectFunctionsIdentity(fns: seq<FunctionDef>)
    ensures ProjectFunctions(fns) == fns
  {
    assert forall i :: 0 <= i < |fns| ==> ProjectFunctions(fns)[i] == fns[i];
  }

  /**
   The request object of one column: side, model, response format and the
   five settings as given, its functions, and its messages projected to role
   and original text.
   */
  function BuildPayload(side: Side, model: string, responseFormat: string, config: Config,
                        fns: seq<FunctionDef>, msgs: seq<Message>): (r: ComparePayload)
    ensures r.side == side && r.model == model && r.responseFormat == responseFormat && r.config == config
    ensures r.functions == ProjectFunctions(fns)
    ensures r.messages == ViewCode.ProjectMessages(msgs)
  {
    ComparePayload(side, model, responseFormat, config, ProjectFunctions(fns), ViewCode.ProjectMessages(msgs))
  }

  /**
   The column dialog shows the same messages as the playground's dialog
   would for the same conversation; only the model it names can differ.
   */
  lemma AgreesWithViewCode(side: Side, model: string, responseFormat: string, config: Config,
                           fns: seq<FunctionDef>, msgs: seq<Message>)
    ensures var c, v := BuildPayload(side, model, responseFormat, config, fns, msgs), ViewCode.CreatePayload(msgs, config);
      && c.messages == v.messages && c.config == v.config
      && (c.model == v.model <==> model == ViewCode.ShownModel)
  {
  }
}
