/**
 * The version-independent SCORM runtime API object: session state, the last-error
 * register, the log level, the listener registry, and the two traces that stand for
 * what leaves the object (lines written to the console, callbacks invoked).
 */
module BaseApi {
  import opened Wrappers
  import opened Text
  import opened Logging
  import opened Listeners

  const SCORM_TRUE := "true"
  const SCORM_FALSE := "false"

  const STATE_NOT_INITIALIZED := 0
  const STATE_INITIALIZED := 1
  const STATE_TERMINATED := 2

  /** The last error: the number 0 when cleared, otherwise the thrown code as a string (so "0" is not 0). */
  datatype ErrCode = Zero | Str(code: string)

  /** The default message resolver: every code reads "No error". */
  function GetLmsErrorMessageDetails(errorNumber: int, detail: Option<string>): (r: string)
    ensures Truthy(Some(r))
    ensures r == "No error"
  {
    "No error"
  }

  /**
   * The message `throwSCORMError` logs: the caller's when truthy, else the default
   * resolver's. Either way the logged "<code>: <message>" carries a non-empty message.
   */
  function ResolvedMessage(errorNumber: int, message: Option<string>): (r: string)
    ensures r != ""
    ensures Truthy(message) ==> r == message.value
    ensures !Truthy(message) ==> r == "No error"
  {
    if Truthy(message) then message.value else GetLmsErrorMessageDetails(errorNumber, None)
  }

  class BaseAPI {
    /** Session state; set by the version-specific Initialize/Terminate, only read here. */
    var currentState: int
    var lastErrorCode: ErrCode
    /** Threshold: a line is written only when its level is at least this. */
    var apiLogLevel: int
    /** Registered listeners, in registration order. */
    var listeners: seq<Listener>
    /** Lines written to the console sinks, oldest first. */
    var emitted: seq<LogLine>
    /** Callback invocations made by dispatches, oldest first. */
    var fired: seq<Invocation>

    constructor ()
      ensures currentState == STATE_NOT_INITIALIZED
      ensures lastErrorCode == Zero
      ensures apiLogLevel == LOG_LEVEL_ERROR
      ensures listeners == []
      ensures emitted == [] && fired == []
    {
      currentState := STATE_NOT_INITIALIZED;
      lastErrorCode := Zero;
      apiLogLevel := LOG_LEVEL_ERROR;
      listeners := [];
      emitted := [];
      fired := [];
    }

    predicate IsInitialized()
      reads this
      ensures IsInitialized() ==> currentState != STATE_NOT_INITIALIZED && currentState != STATE_TERMINATED
    {
      currentState == STATE_INITIALIZED
    }

    predicate IsNotInitialized()
      reads this
      ensures IsNotInitialized() ==> currentState != STATE_INITIALIZED && currentState != STATE_TERMINATED
    {
      currentState == STATE_NOT_INITIALIZED
    }

    predicate IsTerminated()
      reads this
      ensures IsTerminated() ==> currentState != STATE_NOT_INITIALIZED && currentState != STATE_INITIALIZED
    {
      currentState == STATE_TERMINATED
    }

    /** Formats the line and writes it to the sink of its level when the level passes the threshold. */
    method ApiLog(functionName: string, cmiElement: Option<string>, logMessage: Option<string>, messageLevel: int)
      modifies this`emitted
      ensures emitted == old(emitted) + Emission(messageLevel, apiLogLevel, FormatSpec(functionName, cmiElement, logMessage))
    {
      var line := FormatMessage(functionName, cmiElement, logMessage);
      if messageLevel >= apiLogLevel {
        if messageLevel == LOG_LEVEL_ERROR {
          emitted := emitted + [LogLine(ConsoleError, line)];
        } else if messageLevel == LOG_LEVEL_WARNING {
          emitted := emitted + [LogLine(ConsoleWarn, line)];
        } else if messageLevel == LOG_LEVEL_INFO {
          emitted := emitted + [LogLine(ConsoleInfo, line)];
        }
      }
    }

    /** Resets the last error to 0 unless `success` is exactly the string "false"; an absent flag also clears. */
    method ClearSCORMError(success: Option<string>)
      modifies this`lastErrorCode
      ensures success == Some(SCORM_FALSE) ==> lastErrorCode == old(lastErrorCode)
      ensures success != Some(SCORM_FALSE) ==> lastErrorCode == Zero
    {
      if success != Some(SCORM_FALSE) {
        lastErrorCode := Zero;
      }
    }

    /** Logs "<code>: <message>" at ERROR level and records the code, as a string, as the last error. */
    method ThrowSCORMError(errorNumber: int, message: Option<string>)
      modifies this`lastErrorCode, this`emitted
      ensures lastErrorCode == Str(IntToString(errorNumber))
      ensures emitted == old(emitted) + Emission(LOG_LEVEL_ERROR, apiLogLevel,
                FormatSpec("throwSCORMError", None, Some(IntToString(errorNumber) + ": " + ResolvedMessage(errorNumber, message))))
    {
      var msg := if Truthy(message) then message.value else GetLmsErrorMessageDetails(errorNumber, None);
      ApiLog("throwSCORMError", None, Some(IntToString(errorNumber) + ": " + msg), LOG_LEVEL_ERROR);
      lastErrorCode := Str(IntToString(errorNumber));
    }

    /**
     * Registers `callback` for the function name and element read from
     * `listenerString`; an absent callback registers nothing.
     */
    method On(listenerString: string, callback: Option<CallbackId>)
      modifies this`listeners
      ensures callback.None? ==> listeners == old(listeners)
      ensures callback.Some? ==> listeners == old(listeners) + [Listener(ParseListener(listenerString).functionName,
                                                                       ParseListener(listenerString).cmiElement,
                                                                       callback.value)]
    {
      if callback.None? {
        return;
      }
      var listenerSplit := Split(listenerString, '.');
      var functionName := listenerSplit[0];
      var cmiElement: Option<string> := None;
      if |listenerSplit| > 1 {
        cmiElement := Some(ReplaceFirst(listenerString, functionName + ".", ""));
      }
      SplitReplaceParse(listenerString);
      listeners := listeners + [Listener(functionName, cmiElement, callback.value)];
    }

    /** Invokes, in registration order, the callback of every listener that matches the call. */
    method ProcessListeners(functionName: string, cmiElement: Option<string>, value: string)
      modifies this`fired
      ensures fired == old(fired) + Dispatch(listeners, functionName, cmiElement, value)
    {
      var i := 0;
      while i < |listeners|
        invariant 0 <= i <= |listeners|
        invariant fired == old(fired) + Dispatch(listeners[..i], functionName, cmiElement, value)
      {
        var listener := listeners[i];
        var functionsMatch := listener.functionName == functionName;
        var listenerHasCMIElement := Truthy(listener.cmiElement);
        var cmiElementsMatch := listener.cmiElement == cmiElement;
        if functionsMatch && (!listenerHasCMIElement || cmiElementsMatch) {
          fired := fired + [Invocation(listener.callback, cmiElement, value)];
        }
        assert listeners[..i + 1][..i] == listeners[..i];
        i := i + 1;
      }
      assert listeners[..i] == listeners;
    }
  }

  /** For a state among the three defined ones exactly one predicate holds; for any other value none does. */
  lemma ExactlyOneState(api: BaseAPI)
    ensures api.currentState in {STATE_NOT_INITIALIZED, STATE_INITIALIZED, STATE_TERMINATED} ==>
      (if api.IsNotInitialized() then 1 else 0) + (if api.IsInitialized() then 1 else 0) + (if api.IsTerminated() then 1 else 0) == 1
    ensures api.currentState !in {STATE_NOT_INITIALIZED, STATE_INITIALIZED, STATE_TERMINATED} ==>
      !api.IsNotInitialized() && !api.IsInitialized() && !api.IsTerminated()
  {
  }

  /** The cleared register (the number 0) and a thrown code 0 (the string "0") stay distinguishable. */
  lemma ThrownZeroIsNotCleared()
    ensures Str(IntToString(0)) != Zero
    ensures IntToString(0) == "0"
  {
  }

  /**
   * A fresh object is not initialized; an element-filtered and an unfiltered listener
   * for the same function are registered in that order, and an absent callback
   * registers nothing.
   */
  method RegistrationScenario(name: string, element: string)
    requires '.' !in name
  {
    var api := new BaseAPI();
    assert api.IsNotInitialized() && !api.IsInitialized() && !api.IsTerminated();

    var keyed := ListenerKey(name, Some(element));
    var plain := ListenerKey(name, None);
    ParseUnparse(keyed);
    ParseUnparse(plain);
    api.On(Unparse(keyed), Some(1));
    api.On(Unparse(plain), Some(2));
    api.On(Unparse(plain), None);
    assert api.listeners == [Listener(name, Some(element), 1), Listener(name, None, 2)];
  }

  /** With those two listeners, a call on another element reaches only the unfiltered one. */
  method DispatchScenario(api: BaseAPI, name: string, element: string, other: string, value: string)
    requires element != "" && element != other
    requires api.listeners == [Listener(name, Some(element), 1), Listener(name, None, 2)]
    requires api.fired == []
    modifies api
  {
    api.ProcessListeners(name, Some(other), value);
    var first, second := api.listeners[0], api.listeners[1];
    DispatchAppend([first], [second], name, Some(other), value);
    assert [first][..0] == [] && [second][..0] == [];
    assert api.listeners == [first] + [second];
    assert api.fired == [Invocation(2, Some(other), value)];
  }

  /** Throwing 101 with no message, then the "false" and absent clear flags. */
  method ErrorScenario()
  {
    var api := new BaseAPI();
    api.ThrowSCORMError(101, None);
    assert IntToString(101) == "101";
    assert api.lastErrorCode == Str("101");
    assert |api.emitted| == 1 && api.emitted[0].sink == ConsoleError;

    api.ClearSCORMError(Some(SCORM_FALSE));
    assert api.lastErrorCode == Str("101");
    api.ClearSCORMError(None);
    assert api.lastErrorCode == Zero;

    api.ApiLog("GetValue", None, Some("info"), LOG_LEVEL_INFO);
    assert |api.emitted| == 1;
  }
}
