/**
 * The diagnostic side of the runtime API: the fixed-column line formatter and the
 * level gate that decides which console sink, if any, receives a line.
 */
module Logging {
  import opened Wrappers
  import opened Text

  const LOG_LEVEL_DEBUG := 1
  const LOG_LEVEL_INFO := 2
  const LOG_LEVEL_WARNING := 3
  const LOG_LEVEL_ERROR := 4
  const LOG_LEVEL_NONE := 5

  /** Column at which the ": " after the function name starts. */
  const BASE_LENGTH := 20
  /** Column the line is padded to after a CMI element. */
  const CMI_ELEMENT_BASE_LENGTH := 70

  /**
   * The line `formatMessage` builds: the function name padded to BASE_LENGTH, ": ",
   * then, for a truthy element, the element with the whole line padded to
   * CMI_ELEMENT_BASE_LENGTH, then the message if it is truthy.
   */
  function FormatSpec(functionName: string, cmiElement: Option<string>, message: Option<string>): string {
    var head := PadRight(functionName, BASE_LENGTH) + ": ";
    var withElement := if Truthy(cmiElement) then PadRight(head + cmiElement.value, CMI_ELEMENT_BASE_LENGTH) else head;
    withElement + TextOf(message)
  }

  /** The formatter as the runtime runs it: appending to one string, padding with two loops. */
  method FormatMessage(functionName: string, cmiElement: Option<string>, message: Option<string>)
    returns (messageString: string)
    ensures messageString == FormatSpec(functionName, cmiElement, message)
  {
    var baseLength := BASE_LENGTH;
    messageString := "";
    messageString := messageString + functionName;
    var fillChars := baseLength - |messageString|;
    var i := 0;
    while i < fillChars
      invariant 0 <= i && (i == 0 || i <= fillChars)
      invariant messageString == functionName + Spaces(i)
    {
      messageString := messageString + " ";
      i := i + 1;
    }
    assert messageString == PadRight(functionName, BASE_LENGTH);
    messageString := messageString + ": ";
    if Truthy(cmiElement) {
      var cmiElementBaseLength := CMI_ELEMENT_BASE_LENGTH;
      messageString := messageString + cmiElement.value;
      ghost var unpadded := messageString;
      fillChars := cmiElementBaseLength - |messageString|;
      var j := 0;
      while j < fillChars
        invariant 0 <= j && (j == 0 || j <= fillChars)
        invariant messageString == unpadded + Spaces(j)
      {
        messageString := messageString + " ";
        j := j + 1;
      }
      assert messageString == PadRight(unpadded, CMI_ELEMENT_BASE_LENGTH);
    }
    if Truthy(message) {
      messageString := messageString + message.value;
    }
  }

  /**
   * Every character of a formatted line: the name, spaces up to column
   * max(20, |name|), ": ", then for a truthy element the element and spaces up to
   * column max(70, length so far), and the message text last.
   */
  lemma FormatLayout(functionName: string, cmiElement: Option<string>, message: Option<string>)
    ensures var r := FormatSpec(functionName, cmiElement, message);
      var col := Max(BASE_LENGTH, |functionName|);
      var elemEnd := if Truthy(cmiElement) then col + 2 + |cmiElement.value| else col + 2;
      var tail := if Truthy(cmiElement) then Max(CMI_ELEMENT_BASE_LENGTH, elemEnd) else elemEnd;
      && |r| == tail + |TextOf(message)|
      && r[..|functionName|] == functionName
      && (forall i :: |functionName| <= i < col ==> r[i] == ' ')
      && r[col..col + 2] == ": "
      && r[col + 2..elemEnd] == TextOf(cmiElement)
      && (forall i :: elemEnd <= i < tail ==> r[i] == ' ')
      && r[tail..] == TextOf(message)
  {
  }

  /** An example line: a short name, no element, a message. */
  lemma FormatInitializeExample()
    ensures FormatSpec("Initialize", None, Some("ok")) == "Initialize          : ok"
  {
  }

  // ---------------------------------------------------------------------------
  // the level gate

  /** The three console sinks: `console.error`, `console.warn`, `console.info`. */
  datatype Sink = ConsoleError | ConsoleWarn | ConsoleInfo

  /** One line written to a console sink. */
  datatype LogLine = LogLine(sink: Sink, text: string)

  /** The `switch` on the message level: ERROR, WARNING and INFO have a sink, no other level has one. */
  function SinkFor(messageLevel: int): (r: Option<Sink>)
    ensures r.Some? <==> messageLevel in {LOG_LEVEL_INFO, LOG_LEVEL_WARNING, LOG_LEVEL_ERROR}
  {
    if messageLevel == LOG_LEVEL_ERROR then Some(ConsoleError)
    else if messageLevel == LOG_LEVEL_WARNING then Some(ConsoleWarn)
    else if messageLevel == LOG_LEVEL_INFO then Some(ConsoleInfo)
    else None
  }

  /** Each level with a sink has a sink of its own. */
  lemma SinkForInjective(a: int, b: int)
    requires SinkFor(a).Some? && SinkFor(a) == SinkFor(b)
    ensures a == b
  {
  }

  /** The lines `apiLog` writes for a message at `messageLevel` under threshold `apiLogLevel`. */
  function Emission(messageLevel: int, apiLogLevel: int, text: string): (r: seq<LogLine>)
    ensures |r| <= 1
    ensures |r| == 1 <==> apiLogLevel <= messageLevel && messageLevel in {LOG_LEVEL_INFO, LOG_LEVEL_WARNING, LOG_LEVEL_ERROR}
    ensures forall k :: 0 <= k < |r| ==> r[k].text == text && Some(r[k].sink) == SinkFor(messageLevel)
  {
    if messageLevel >= apiLogLevel && SinkFor(messageLevel).Some? then [LogLine(SinkFor(messageLevel).value, text)] else []
  }

  /** Lowering the threshold never silences a line that was written before. */
  lemma EmissionMonotone(messageLevel: int, low: int, high: int, text: string)
    requires low <= high
    ensures |Emission(messageLevel, high, text)| <= |Emission(messageLevel, low, text)|
  {
  }
}
