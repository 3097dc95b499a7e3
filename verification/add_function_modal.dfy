/**
 The add/edit function dialog: the definition text it starts with, the
 decision taken when the text is saved, and the templates that the generate
 prompt and the examples menu put into the text box. `JSON.parse` is not
 modelled; its outcome on the text is an input (`ParseOutcome`).
 */
module AddFunction {
  import opened Types
  import opened Text
  import Playground

  /** Lines joined with line feeds, as a multi-line template literal reads. */
  function JoinLines(lines: seq<string>): string {
    if lines == [] then "" else if |lines| == 1 then lines[0] else lines[0] + "\n" + JoinLines(lines[1..])
  }

  /** The second line of a joined text sits right after the first line and its line feed. */
  lemma SecondLine(lines: seq<string>)
    requires |lines| >= 2
    ensures |lines[0]| + 1 + |lines[1]| <= |JoinLines(lines)|
    ensures JoinLines(lines)[|lines[0]| + 1..|lines[0]| + 1 + |lines[1]|] == lines[1]
  {
    var rest := JoinLines(lines[1..]);
    assert JoinLines(lines) == lines[0] + "\n" + rest;
    assert rest[..|lines[1]|] == lines[1];
  }

  /** The text shown when there is no definition to edit. */
  const DefaultLines: seq<string> := [
    "{",
    "  \"name\": \"get_stock_price\",",
    "  \"description\": \"Get the current stock price\",",
    "  \"parameters\": {",
    "    ...",
    "  }",
    "}"
  ]
  const DefaultTemplate: string := JoinLines(DefaultLines)

  const WeatherNameLine: string := "  \"name\": \"get_weather\","
  const StockNameLine: string := "  \"name\": \"get_stock_price\","

  const WeatherLines: seq<string> := ["{", WeatherNameLine] + [
    "  \"description\": \"Get weather for a specific city\",",
    "  \"parameters\": {",
    "    \"type\": \"object\",",
    "    \"required\": [\"city_name\",\"country_code\",\"units\",\"lang\"],",
    "    \"properties\": {",
    "      \"city_name\": {",
    "        \"type\": \"string\",",
    "        \"description\": \"Name of the city to get the weather for\"",
    "      },",
    "      \"country_code\": {",
    "        \"type\": \"string\",",
    "        \"description\": \"ISO 3166-1 alpha-2 country code\"",
    "      },",
    "      \"units\": {",
    "        \"type\": \"string\",",
    "        \"description\": \"Units of measurement (e.g., metric, imperial)\",",
    "        \"enum\": [\"metric\", \"imperial\", \"standard\"]",
    "      },",
    "      \"lang\": {",
    "        \"type\": \"string\",",
    "        \"description\": \"Language code (e.g., en, es, fr)\"",
    "      }",
    "    }",
    "  }",
    "}"
  ]
  const WeatherTemplate: string := JoinLines(WeatherLines)

  const StockLines: seq<string> := ["{", StockNameLine] + [
    "  \"description\": \"Get the current stock price\",",
    "  \"parameters\": {",
    "    \"type\": \"object\",",
    "    \"properties\": {",
    "      \"symbol\": {",
    "        \"type\": \"string\",",
    "        \"description\": \"The stock symbol\"",
    "      }",
    "    },",
    "    \"required\": [\"symbol\"]",
    "  }",
    "}"
  ]
  const StockTemplate: string := JoinLines(StockLines)

  const UnnamedFunction: string := "Unnamed Function"
  const InvalidJson: string := "Invalid JSON format"

  /**
   What `JSON.parse` made of the text: a syntax error, the document `null`
   (whose `name` cannot be read), or a document whose `name` property is a
   string (`Some`) or absent (`None`).
   */
  datatype ParseOutcome = Malformed | NullDocument | Document(name: Option<string>)

  datatype Mode = AddMode | EditMode

  /** The text the dialog opens with: the edited definition's text when it is non-empty, else the default template. */
  function InitialDefinition(initialFn: Option<FunctionDef>): (r: string)
    ensures initialFn.Some? && initialFn.value.jsonDefinition != "" ==> r == initialFn.value.jsonDefinition
    ensures initialFn.None? || initialFn.value.jsonDefinition == "" ==> r == DefaultTemplate
    ensures r != ""
  {
    if initialFn.Some? && initialFn.value.jsonDefinition != "" then initialFn.value.jsonDefinition
    else DefaultTemplate
  }

  /**
   Save: text that does not parse, or parses to `null`, is rejected with
   "Invalid JSON format"; otherwise the definition keeps the raw text
   verbatim and takes the parsed name, or "Unnamed Function" when the name
   is missing or empty. A saved definition never has an empty name.
   */
  function SaveDecision(text: string, parsed: ParseOutcome): (r: Result<FunctionDef, string>)
    ensures r.Err? <==> parsed.Malformed? || parsed.NullDocument?
    ensures r.Err? ==> r.error == InvalidJson
    ensures r.Ok? ==> r.value.jsonDefinition == text && r.value.name != ""
    ensures r.Ok? && parsed.name.Some? && parsed.name.value != "" ==> r.value.name == parsed.name.value
    ensures r.Ok? && (parsed.name.None? || parsed.name.value == "") ==> r.value.name == UnnamedFunction
  {
    match parsed
    case Malformed => Err(InvalidJson)
    case NullDocument => Err(InvalidJson)
    case Document(name) =>
      Ok(FunctionDef(if name.Some? && name.value != "" then name.value else UnnamedFunction, text))
  }

  const GeneratedPrefix: string := "{\n  \"name\": \"generated_fn\",\n  \"description\": \"Auto definition from prompt: "
  const GeneratedSuffix: string := "\",\n  \"parameters\": {\n    \"type\": \"object\"\n  }\n}"

  /**
   The template a generate prompt produces: the "generated_fn" header, the
   prompt inserted as it is, without escaping, and the fixed closing part.
   */
  function GeneratedDefinition(prompt: string): (r: string)
    ensures |r| == |GeneratedPrefix| + |prompt| + |GeneratedSuffix|
    ensures StartsWith(r, GeneratedPrefix)
    ensures r[|r| - |GeneratedSuffix|..] == GeneratedSuffix
  {
    GeneratedPrefix + prompt + GeneratedSuffix
  }

  /** The prompt can be read back from the generated text, so distinct prompts give distinct texts. */
  lemma GeneratedEmbedsPrompt(prompt: string, other: string)
    ensures var g := GeneratedDefinition(prompt);
      g[|GeneratedPrefix|..|g| - |GeneratedSuffix|] == prompt
    ensures GeneratedDefinition(prompt) == GeneratedDefinition(other) ==> prompt == other
  {
    var g := GeneratedDefinition(prompt);
    assert g[|GeneratedPrefix|..|g| - |GeneratedSuffix|] == prompt;
    var h := GeneratedDefinition(other);
    assert h[|GeneratedPrefix|..|h| - |GeneratedSuffix|] == other;
  }

  /** The lines of the example the menu fills in: the weather template for "get_weather", the stock-price one otherwise. */
  function ExampleLines(example: string): seq<string> {
    if example == "get_weather" then WeatherLines else StockLines
  }

  /** The text an example choice fills in: the weather template for "get_weather", the stock-price one otherwise. */
  function ExampleTemplate(example: string): (r: string)
    ensures example == "get_weather" ==> r == WeatherTemplate
    ensures example != "get_weather" ==> r == StockTemplate
  {
    JoinLines(ExampleLines(example))
  }

  /**
   The filled-in text names the weather function on its second line exactly
   for "get_weather", and the stock-price function for every other choice.
   */
  lemma ExampleChoice(example: string)
    ensures var lines := ExampleLines(example);
      && |lines| >= 2 && |lines[0]| + 1 + |lines[1]| <= |JoinLines(lines)|
      && JoinLines(lines)[|lines[0]| + 1..|lines[0]| + 1 + |lines[1]|] == lines[1]
      && (lines[1] == WeatherNameLine <==> example == "get_weather")
      && (lines[1] == StockNameLine <==> example != "get_weather")
  {
    var lines := ExampleLines(example);
    SecondLine(lines);
    assert WeatherNameLine[15] == 'w' && StockNameLine[15] == 's';
  }

  /** The dialog's state. */
  class AddFunctionModal {
    const mode: Mode
    var jsonValue: string
    /** The generate popup is anchored (open). */
    var generateOpen: bool
    var showExamples: bool
    /** The examples popup has an anchor. */
    var examplesAnchored: bool
    /** The dialog is still open (`onClose` not yet called). */
    var isOpen: bool

    constructor (mode: Mode, initialFn: Option<FunctionDef>)
      ensures this.mode == mode && jsonValue == InitialDefinition(initialFn)
      ensures !generateOpen && !showExamples && !examplesAnchored && isOpen
    {
      this.mode := mode;
      jsonValue := if initialFn.Some? && initialFn.value.jsonDefinition != "" then initialFn.value.jsonDefinition
                   else DefaultTemplate;
      generateOpen := false;
      showExamples := false;
      examplesAnchored := false;
      isOpen := true;
    }

    method EditText(text: string)
      modifies this`jsonValue
      ensures jsonValue == text
    {
      jsonValue := text;
    }

    /**
     Save: a rejected text leaves the function list and the dialog as they
     are; an accepted one is added to the list (add mode) or replaces the
     definitions of the same name (edit mode), and the dialog closes.
     */
    method Save(page: Playground.Page, parsed: ParseOutcome) returns (saved: Result<FunctionDef, string>)
      modifies page`functionsList, this`isOpen
      ensures saved == SaveDecision(old(jsonValue), parsed)
      ensures saved.Err? ==> page.functionsList == old(page.functionsList) && isOpen == old(isOpen)
      ensures saved.Ok? && mode == AddMode ==> page.functionsList == old(page.functionsList) + [saved.value]
      ensures saved.Ok? && mode == EditMode ==>
        page.functionsList == Playground.ReplaceByName(old(page.functionsList), saved.value)
      ensures saved.Ok? ==> !isOpen
    {
      if parsed.Malformed? || parsed.NullDocument? {
        return Err(InvalidJson);
      }
      var name := parsed.name;
      var fnDef := FunctionDef(if name.Some? && name.value != "" then name.value else UnnamedFunction, jsonValue);
      if mode == AddMode {
        page.AddFunction(fnDef);
      } else {
        page.UpdateFunction(fnDef);
      }
      isOpen := false;
      saved := Ok(fnDef);
    }

    /** A click on the overlay itself (not on the dialog) closes the dialog. */
    method OverlayClick(onOverlay: bool)
      modifies this`isOpen
      ensures isOpen == (old(isOpen) && !onOverlay)
    {
      if onOverlay {
        isOpen := false;
      }
    }

    method OpenGeneratePopup()
      modifies this`generateOpen
      ensures generateOpen
    {
      generateOpen := true;
    }

    method CloseGeneratePopup()
      modifies this`generateOpen
      ensures !generateOpen
    {
      generateOpen := false;
    }

    /** A generate prompt replaces the text with the generated template and closes the popup. */
    method SubmitGenerate(prompt: string)
      modifies this`jsonValue, this`generateOpen
      ensures jsonValue == GeneratedDefinition(prompt) && !generateOpen
    {
      var newJson := GeneratedPrefix + prompt + GeneratedSuffix;
      jsonValue := newJson;
      generateOpen := false;
    }

    /** The Examples button anchors the popup and toggles it. */
    method ExamplesClick()
      modifies this`showExamples, this`examplesAnchored
      ensures showExamples == !old(showExamples) && examplesAnchored
    {
      examplesAnchored := true;
      showExamples := !showExamples;
    }

    /**
     A mouse-down anywhere in the document closes an open, anchored examples
     popup unless it lands inside the popup.
     */
    method DocumentMouseDown(insidePopup: bool)
      modifies this`showExamples, this`examplesAnchored
      ensures old(showExamples) && old(examplesAnchored) && !insidePopup ==> !showExamples && !examplesAnchored
      ensures !(old(showExamples) && old(examplesAnchored) && !insidePopup) ==>
        showExamples == old(showExamples) && examplesAnchored == old(examplesAnchored)
    {
      if !showExamples || !examplesAnchored {
        return;
      }
      if !insidePopup {
        showExamples := false;
        examplesAnchored := false;
      }
    }

    /** Choosing an example fills in its template and closes the examples popup. */
    method SelectExample(example: string)
      modifies this`jsonValue, this`showExamples, this`examplesAnchored
      ensures jsonValue == ExampleTemplate(example)
      ensures !showExamples && !examplesAnchored
    {
      if example == "get_weather" {
        jsonValue := WeatherTemplate;
      } else {
        jsonValue := StockTemplate;
      }
      showExamples := false;
      examplesAnchored := false;
    }
  }
}
