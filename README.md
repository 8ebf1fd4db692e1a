# SCORM runtime API base, modelled in Dafny

This project models the version-independent base of a SCORM runtime API object
(`src/baseAPI.js`). SCORM 1.2 and SCORM 2004 API objects build on this base. Content
running in a browser frame calls the API. The base keeps four things:

- a three-valued session state (not initialized, initialized, terminated) with three
  read-only predicates;
- a last-error register, written by `throwSCORMError` and reset by `clearSCORMError`;
- a log formatter that writes fixed-column lines, and a level gate that routes each line
  to `console.error`, `console.warn` or `console.info`;
- a listener registry: `on("Func.cmi.path", cb)` registers callbacks and
  `processListeners` notifies them.

Files:

- `wrappers.dfy`: `Option`, which stands for JavaScript's `null`/`undefined` beside a present value.
- `text.dfy`: the JavaScript string operations the base relies on, written out. These are
  truthiness of a string-or-null, padding, `split`, `indexOf`/`replace` with a string
  pattern, and `String(n)`. Each comes with the lemmas the rest of the model needs.
- `logging.dfy`: `formatMessage` as a method with its two padding loops, proved equal to
  `FormatSpec`. A layout lemma fixes every character of a line. The level gate `Emission`
  decides which sink receives a line.
- `listeners.dfy`: how a listener string is read, which listeners match a call, and which
  callback invocations a dispatch makes, in order.
- `base_api.dfy`: the `BaseAPI` class. Its fields are the object's fields, plus two traces
  that stand for what leaves the object: `emitted` (console lines) and `fired` (callback
  invocations). The file ends with three client methods. `RegistrationScenario` registers
  listeners on a fresh object. `DispatchScenario` dispatches a call on an object that holds
  those two listeners. `ErrorScenario` throws an error on a fresh object, then clears it.

`On` does what the source does: it calls `split(".")`, takes the first piece, and, when
there is more than one piece, calls `replace(name + ".", "")`. Lemma `SplitReplaceParse`
proves that this gives `ParseListener`, which reads the name before the first dot and the
element after it. `ParseListener` and `Unparse` are proved inverse.

The function name is padded on the right: spaces are appended after it
(`src/baseAPI.js:88-92`), so a short name is followed by spaces, never preceded by them. The guard `listenerSplit.length === 0` (`src/baseAPI.js:154`)
can never fire, because `Split` always returns at least one piece. `On` therefore leaves
that branch out.

## Model

| member | source | states |
|---|---|---|
| `BaseApi.BaseAPI.constructor` | src/baseAPI.js:18-37 | a new object is NOT_INITIALIZED (0), has last error 0, has log level ERROR (4), has no listeners, and has written and invoked nothing |
| `BaseApi.ExactlyOneState` | src/baseAPI.js:123-142 | for a state among 0, 1, 2 exactly one of isNotInitialized / isInitialized / isTerminated holds; for any other value none holds |
| `BaseApi.BaseAPI.IsInitialized` | src/baseAPI.js:126-128 | when it holds, the state is neither NOT_INITIALIZED nor TERMINATED |
| `BaseApi.BaseAPI.IsNotInitialized` | src/baseAPI.js:133-135 | when it holds, the state is neither INITIALIZED nor TERMINATED |
| `BaseApi.BaseAPI.IsTerminated` | src/baseAPI.js:140-142 | when it holds, the state is neither NOT_INITIALIZED nor INITIALIZED |
| `BaseApi.BaseAPI.ApiLog` | src/baseAPI.js:47-63 | the only change is to the console trace: it gains `Emission(level, threshold, FormatSpec(...))`, one line in the level's own sink when the level reaches the threshold and is INFO, WARNING or ERROR, otherwise nothing |
| `BaseApi.BaseAPI.ClearSCORMError` | src/baseAPI.js:68-72 | the last error becomes 0 for every flag except exactly "false", including "true" and an absent flag; with "false" it is unchanged; nothing else changes |
| `BaseApi.GetLmsErrorMessageDetails` | src/baseAPI.js:115-121 | the default resolver answers the truthy constant "No error" for every code |
| `BaseApi.ResolvedMessage` | src/baseAPI.js:197-199 | the logged message is never empty: it is the caller's message when that is truthy, and otherwise the default resolver's "No error" |
| `BaseApi.BaseAPI.ThrowSCORMError` | src/baseAPI.js:196-204 | the last error becomes `Str(String(n))`; the console trace gains exactly what `apiLog` at ERROR level writes for `"<n>: <message>"` under function name "throwSCORMError"; nothing else changes |
| `BaseApi.ThrownZeroIsNotCleared` | src/baseAPI.js:203 | throwing code 0 stores the string "0", which stays distinct from the cleared number 0 |
| `BaseApi.BaseAPI.On` | src/baseAPI.js:150-168 | an absent callback leaves the registry unchanged; otherwise exactly one listener is appended, carrying the name and element `ParseListener` reads from the string, and earlier listeners are untouched |
| `BaseApi.BaseAPI.ProcessListeners` | src/baseAPI.js:177-188 | the invocation trace gains exactly `Dispatch(listeners, f, e, v)`; the listener list is not modified |
| `Listeners.ParseListener` | src/baseAPI.js:153-161 | the function name never contains a dot; there is an element exactly when the string contains a dot |
| `Listeners.UnparseParse` | src/baseAPI.js:153-161 | writing back the name, and then "." and the element if there is one, gives the original listener string |
| `Listeners.ParseUnparse` | src/baseAPI.js:153-161 | every key whose name has no dot is read back unchanged from the string it is written as, so later dots stay in the element |
| `Listeners.ParseNestedElement` | src/baseAPI.js:156-160 | `"F.E1.E2"` registers name `"F"` and element `"E1.E2"` |
| `Listeners.SplitReplaceParse` | src/baseAPI.js:153-161 | `split(".")` gives at least one piece; its first piece is the parsed name; there is more than one piece exactly when an element is parsed; and `replace(name + ".", "")` gives that element |
| `Listeners.Matches` | src/baseAPI.js:180-184 | a matching listener has the call's function name; a listener without a truthy filter matches every element of its function; a listener with a filter matches only a call on exactly that element |
| `Listeners.Fire` | src/baseAPI.js:180-186 | a listener contributes exactly one invocation when the names are equal and its element filter is falsy or equal to the call's element, and none otherwise; the invocation passes the call's element and value, not the listener's filter |
| `Listeners.DispatchAppend` | src/baseAPI.js:178-187 | dispatching over two runs of listeners gives the first run's invocations followed by the second's (first registered, first notified) |
| `Listeners.DispatchAt` | src/baseAPI.js:178-187 | listener i contributes exactly its own `Fire`, after every earlier listener's invocations and before every later one's |
| `Listeners.DispatchMembership` | src/baseAPI.js:178-187 | an invocation is made exactly when it carries the call's element and value and its callback belongs to some matching listener |
| `Listeners.DispatchFilterExample` | src/baseAPI.js:180-184 | a call on element "cmi.other" skips a listener filtered on "cmi.score" and reaches an unfiltered listener of the same function |
| `Logging.FormatMessage` | src/baseAPI.js:82-113 | the string built by appending and by the two padding loops equals `FormatSpec` |
| `Logging.FormatLayout` | src/baseAPI.js:82-113 | every character of a formatted line: the name, spaces up to column max(20, name length), ": ", then for a truthy element the element and spaces up to column max(70, length so far), and the truthy message last |
| `Logging.FormatInitializeExample` | src/baseAPI.js:82-113 | ("Initialize", null, "ok") formats as `"Initialize          : ok"` |
| `Logging.Emission` | src/baseAPI.js:50-61 | at most one line; one line exactly when the level reaches the threshold and is INFO, WARNING or ERROR (so DEBUG and NONE never write); the line is the formatted text, in the level's sink |
| `Logging.SinkFor` | src/baseAPI.js:51-61 | a level has a sink exactly when it is INFO, WARNING or ERROR, so DEBUG and NONE have none |
| `Logging.SinkForInjective` | src/baseAPI.js:51-61 | the three writing levels each have a sink of their own |
| `Logging.EmissionMonotone` | src/baseAPI.js:50 | lowering the threshold never silences a line |
| `Text.Split` | src/baseAPI.js:153-154 | a split on "." is never empty and no piece contains a dot |
| `Text.JoinSplit` | src/baseAPI.js:153 | joining the pieces back with the separator gives the original string |
| `Text.SplitFirstPiece` | src/baseAPI.js:153-159 | the first piece is the text before the first separator; there is more than one piece exactly when the separator occurs |
| `Text.IndexOfChar` | src/baseAPI.js:153 | the first position of a character: absent exactly when the character does not occur; otherwise no earlier position holds it |
| `Text.IndexOfFrom` | src/baseAPI.js:160 | the position returned holds the pattern, and no earlier position from the start does; no position is returned only when the pattern never occurs there |
| `Text.ReplaceFirst` | src/baseAPI.js:160 | a pattern that does not occur leaves the string unchanged; otherwise only its first occurrence is replaced |
| `Text.ReplaceLeading` | src/baseAPI.js:160 | when the string starts with the pattern, `replace` strips exactly that prefix |
| `Text.IntToString` | src/baseAPI.js:201-203 | `String(n)` is never empty and starts with "-" exactly for negative numbers |
| `Text.NatToDecimal` | src/baseAPI.js:201-203 | the decimal form of a natural number is a non-empty string of digits with no leading zero (only 0 itself starts with "0") |
| `Text.DecimalRoundTrip` | src/baseAPI.js:201-203 | reading the decimal digits back gives the number |
| `Text.IntToStringInjective` | src/baseAPI.js:203 | distinct error numbers are stored as distinct strings |
| `Text.PadRight` | src/baseAPI.js:88-105 | padding gives length max(width, original length), keeps the original as a prefix, and adds only spaces |

## Left out

- Console output (`console.error`, `console.warn`, `console.info`) is modelled as the
  `emitted` trace of `(sink, line)` records; nothing is written anywhere.
- Listener callbacks are opaque identities. A call `callback(CMIElement, value)` is
  recorded in the `fired` trace. The model does not cover exceptions a callback throws,
  which would stop the loop, or a callback that calls back into the object (re-entrancy).
- `value` in `processListeners` is modelled as a string. The source passes it through
  without looking at it.
- The `module.exports`/`scope` factory wiring is left out. The object is the class instance.
- `getLmsErrorMessageDetails` is the default resolver only. Subclasses that replace it at
  run time are not modelled. Its `detail` argument is unused, as in the source.
- Truthiness is modelled only for a string or null (`Option<string>`). Function names and
  values are strings. Callbacks are present or absent. Error numbers are integers, so
  floating-point numbers and their `String` forms are not covered.
- Text.IntToString: writes every integer in plain decimal. JavaScript's `String(n)` switches
  to exponent form (`"1e+21"`) once |n| reaches 10^21, so the model assumes error numbers
  below that size. SCORM error codes have three digits.
- String lengths count characters. JavaScript counts UTF-16 code units, and the two differ
  for characters outside the Basic Multilingual Plane.
- The session state is only read. The transitions belong to the version-specific
  Initialize and Terminate, which are not part of this model. `SCORM_TRUE` is declared as
  in the source, and the base never uses it.
- The guard `listenerSplit.length === 0` is unreachable (see `Text.Split`), so `On` has no
  branch for it.
