# Electricity dashboard front end: settings store, error translation and helpers

This project models the logic of a browser dashboard that shows
electricity balance and usage statistics. Nearly all of that front end is
presentation. What remains is covered here:

- **The settings store** (`useSettingsStore`). It holds eight display
  preferences and offers these operations: the fresh-store defaults,
  `update` (replace the whole record), `updateKey` (set one field),
  `reset`, and clipboard export and import.
- **API error translation.** `apiErrorThrower` classifies a failed request,
  first match wins: a response with no data, a non-standard `detail`, a
  standard `detail`, the axios "Network Error", and anything else. It
  always throws. `errorPopper` turns a caught error into toast text.
- **Small helpers:**
  - `getTotalPage`, `extractKeysFromList` and `addKeysPropsForAnArray`;
  - the password and e-mail validators;
  - `getKeyByValue`, `setDefault` and `classNames`;
  - the `useTriggerState` toggle.

Module `Js` (js_values.dfy) defines the JavaScript values the helpers
handle. It covers truthiness, property reads, `String(v)`, and objects as
ordered property lists. Assignment and spreading keep JavaScript's key
order. An `Option` stands for a value that may be absent, and each use
says what `None` means: an omitted argument (`useTriggerState`), a `null`
class (`classNames`), an undefined input or result (the validators, `getKeyByValue`),
a failed clipboard read, or a `JSON.parse` that throws.

The store holds the settings as an object (`Props`), not as a typed
record. `update` installs whatever object it receives, including
unchecked JSON parsed from the clipboard. The typed `Settings` datatype,
with `ToProps` and `FromProps`, describes a well-formed settings object.

Three behaviours of the code are worth stating outright, and the model
follows them:

- `update` assigns the given object as it is (`MissingFieldIsNotFilledIn`);
- `reset` spreads the defaults over the current object, so unknown keys survive;
- without a `window`, import and export return silently (`NoClient`,
  `Skipped`); a failed import only shows toasts, while an export without
  `navigator.clipboard` lets its TypeError escape (`ClipboardMissing`).

## Model

| member | source | states |
|---|---|---|
| `SettingsState.DefaultObject` | src/states/settings.tsx:13-22 | a new `Settings` is diagramDays 1, diagramType "usage", chartTimeRange "day", chartItemsCount 7 and all four usage toggles true, in declaration order |
| `SettingsState.SettingsStore.constructor` | src/states/settings.tsx:62-66 | a fresh store holds the default object, whose typed reading is the default record |
| `SettingsState.ToPropsRoundTrip` | src/states/settings.tsx:13-24 | the typed reading of a `Settings` instance's object is that instance |
| `SettingsState.FromPropsReadsEveryField` | src/states/settings.tsx:13-24 | an object reads as record s exactly when each of the eight field names holds s's value for it |
| `SettingsState.With` | src/states/settings.tsx:34 | setting key k to a value of k's type changes field k to that value and keeps the other seven |
| `SettingsState.SettingsStore.Update` | src/states/settings.tsx:68-73 | the current object becomes exactly the argument, with no merge with defaults, and is returned |
| `SettingsState.MissingFieldIsNotFilledIn` | src/states/settings.tsx:68-73 | an object missing one of the eight fields has no typed reading, so `update` can leave the store incomplete |
| `SettingsState.SettingsStore.UpdateKey` | src/states/settings.tsx:75-79 | key k reads the new value; every other key, known or not, reads as before; a well-formed record becomes `With(s, k, v)` |
| `SettingsState.UpdateKeyTyped` | src/states/settings.tsx:75-79 | on a well-formed object, `updateKey` changes the typed record in field k only |
| `Js.LookupSpread` | src/states/settings.tsx:106-110 | in `{...p, ...q}` every key of q reads q's value and every other key reads p's |
| `SettingsState.ResetRestoresDefaults` | src/states/settings.tsx:105-113 | after the defaults are spread over any object, its typed reading is the default record, and keys outside the eight keep their values |
| `SettingsState.SettingsStore.Reset` | src/states/settings.tsx:105-113 | the store becomes the defaults spread over the old object, reads as the default record, and that object is returned |
| `SettingsState.SettingsStore.ExportToClipboard` | src/states/settings.tsx:81-88 | without a window nothing happens; with a window but no `navigator.clipboard` the call throws; otherwise the serialised current object is copied; the settings never change |
| `SettingsState.SettingsStore.ImportFromClipboard` | src/states/settings.tsx:90-103 | the outcome and the new object are those of `ImportOutcomeOf` and `AfterImport`; a parsed object is installed through `Update` |
| `SettingsState.FailedImportKeepsSettings` | src/states/settings.tsx:90-102 | with no window, an unreadable clipboard or unparseable text, the settings are unchanged |
| `SettingsState.ImportInstallsParsed` | src/states/settings.tsx:95-98 | parseable text is reported as imported, and the parsed object is installed unchecked |
| `SettingsState.ExportThenImport` | src/states/settings.tsx:81-103 | exporting and then importing the copied text reports success and leaves the store's object as it was, when the parser reads back what the serialiser wrote for that object |
| `Exceptions.NewBaseError` | src/exceptions/error.tsx:4-11 | a `BaseError` keeps its name as given; a string message is kept; an undefined message becomes "" |
| `Exceptions.ParamError` | src/exceptions/error.tsx:13-17 | a `ParamError` is always named "param_error" and carries its message |
| `Exceptions.NetworkError` | src/exceptions/error.tsx:19-24 | a `NetworkError` is named "network_error" and carries the fixed connectivity message |
| `Exceptions.ApiErrorThrower` | src/exceptions/error.tsx:30-67 | it never returns normally; it throws a non-`BaseError` exactly when a response has truthy data whose `detail` is null or undefined |
| `Exceptions.RequestErrorMessage` | src/exceptions/error.tsx:37-40 | the `request_error` message is the fixed text, the HTTP status and the closing "). " with a line break, followed by exactly the text of the error |
| `Exceptions.ResponseWithoutData` | src/exceptions/error.tsx:32-41 | a response whose data is falsy gives `request_error` with the message naming the status |
| `Exceptions.NonStandardDetailIsBackendError` | src/exceptions/error.tsx:43-49 | a truthy `detail` lacking a truthy name or message gives `backend_error` with the serialised detail as message |
| `Exceptions.StandardDetailPassesThrough` | src/exceptions/error.tsx:51-57 | a `detail` with a non-empty name and message is thrown with exactly that name and message |
| `Exceptions.ResponseWins` | src/exceptions/error.tsx:32-58 | when a response is present the error's own message does not affect the outcome |
| `Exceptions.NoResponseClassification` | src/exceptions/error.tsx:60-66 | with no response, the message "Network Error" gives `NetworkError`; any other gives `unknown_error` with the message appended |
| `Exceptions.ErrorPopper` | src/exceptions/error.tsx:70-76 | with a defined name and message the toast text is the message's text followed by the name in parentheses; otherwise it is the message itself |
| `Exceptions.PoppedThrownError` | src/exceptions/error.tsx:70-76 | every thrown `BaseError` pops up as "message (name)", except one from a falsy non-null detail: its name is undefined, so only the empty message shows |
| `Exceptions.PopperWithoutName` | src/exceptions/error.tsx:70-76 | an error with an undefined name is shown by its message alone |
| `Pagination.GetTotalPage` | src/tools/pagination.tsx:13-23 | throws "invalid_input_number" exactly when limit <= 0 or total < 0; otherwise returns the least page count p with p * limit >= total (0 for an empty total) |
| `Pagination.CeilingIsLeast` | src/tools/pagination.tsx:18-22 | the floor plus one when there is a remainder is the least p with p * limit >= total |
| `Pagination.ExtractKeysFromList` | src/tools/pagination.tsx:57-63 | the result has the list's length and its i-th entry is the i-th element's `key` |
| `Pagination.AddKeysPropsForAnArray` | src/tools/pagination.tsx:33-42 | the result has the list's length |
| `Pagination.AddedKeyKeepsTheRest` | src/tools/pagination.tsx:37-40 | each element gains key = keyGenerator(element); all other properties and the key order are kept, and a new key goes last |
| `Pagination.KeysOfKeyedList` | src/tools/pagination.tsx:33-63 | extracting the keys of a keyed list gives the generated keys in order |
| `Validator.EmailValidator` | src/tools/validator.tsx:10-24 | empty or undefined input gives "this field can not be empty"; otherwise no error exactly when the pattern matches, and "invalid email addresss" exactly when it does not |
| `Validator.PasswordSecurityValidator` | src/tools/validator.tsx:29-41 | "password can not be empty" exactly for empty or undefined; the length message exactly for 1 to 5 characters; no error exactly for 6 or more |
| `Validator.EmptinessCheckedFirst` | src/tools/validator.tsx:10-33 | the emptiness check wins over the pattern and length checks |
| `General.FirstMatch` | src/tools/general.tsx:7 | the scan stops at the first key whose value is the target, and no earlier key maps to it |
| `General.GetKeyByValue` | src/tools/general.tsx:6-8 | a returned key is an own key that maps to the value; for every key mapping to the value, the result is that key or an earlier one; undefined exactly when no key maps to it |
| `SetDefaults.SetDefault` | src/tools/set_default.tsx:4-9 | the result is the parameter or the default; a defined parameter (null, 0, "" and false included) is kept; the result is undefined exactly when both are |
| `SetDefaults.UndefinedTakesDefault` | src/tools/set_default.tsx:5-7 | an undefined parameter yields the default |
| `SetDefaults.DefinedParamWins` | src/tools/set_default.tsx:4-9 | a parameter that is not undefined is returned unchanged whatever the default, including null, 0, "" and false |
| `SetDefaults.SetDefaultIdempotent` | src/tools/set_default.tsx:4-9 | defaulting a defaulted value again changes nothing, except when the parameter and the first default are both undefined: then the second default is the result |
| `TriggerStates.Toggle` | src/tools/use_trigger_state.tsx:19-21 | with no argument the requested state is the negation of the rendered one; with an argument it is that argument |
| `TriggerStates.ToggleTwice` | src/tools/use_trigger_state.tsx:19-21 | two argument-less toggles restore the value, and an explicit value is idempotent |
| `TriggerStates.TriggerStateHook.constructor` | src/tools/use_trigger_state.tsx:14-16 | the first render's `isTriggered` is `initialState` |
| `TriggerStates.TriggerStateHook.TriggerState` | src/tools/use_trigger_state.tsx:19-22 | the pending state becomes the toggle of the value this render saw; the rendered value is untouched |
| `TriggerStates.TriggerStateHook.Rerender` | src/tools/use_trigger_state.tsx:16 | the next render sees the pending state |
| `TriggerStates.ToggleAcrossRenders` | src/tools/use_trigger_state.tsx:19-22 | toggling, re-rendering, toggling and re-rendering returns the hook to its start |
| `TriggerStates.ToggleTwiceInOneRender` | src/tools/use_trigger_state.tsx:19-22 | two toggles within one render both negate the same rendered value |
| `CssTools.Kept` | src/tools/css_tools.tsx:5 | every surviving entry is non-empty, and a string survives exactly when it is a non-null, non-empty entry of the input (how often each survives is fixed by `KeptSingle` and `KeptConcat`) |
| `CssTools.ClassNames` | src/tools/css_tools.tsx:4-6 | the result is "" exactly when no entry survives the filter, and a single survivor is returned as it is |
| `CssTools.KeptSingle` | src/tools/css_tools.tsx:5 | a single entry survives, once, exactly when it is a non-empty string; with `KeptConcat` this determines the filtered list, multiplicities included |
| `CssTools.KeptConcat` | src/tools/css_tools.tsx:5 | filtering keeps order: the survivors of a concatenation are the survivors of each part in turn |
| `CssTools.SplitJoin` | src/tools/css_tools.tsx:5 | for a list with at least one entry, all of them non-empty and space-free, splitting the joined string on spaces gives the list back, so the entries are separated by exactly one space |
| `CssTools.ClassNamesSplit` | src/tools/css_tools.tsx:5 | when some entry survives and no entry contains a space itself, the result split on spaces is the surviving entries in their original order |
| `CssTools.ClassNamesConcat` | src/tools/css_tools.tsx:4-6 | for any entries, multi-class strings included, the classes of a + b are those of a, one space, then those of b, when both parts have survivors |
| `CssTools.EmptyClassNames` | src/tools/css_tools.tsx:5 | the result is "" exactly when every entry is null or "" (no arguments included) |
| `CssTools.ClassNamesSingle` | src/tools/css_tools.tsx:4-6 | a single non-empty class string is returned unchanged |
| `CssTools.ClassNamesIdempotent` | src/tools/css_tools.tsx:4-6 | `classNames` of its own result is that result |

## Left out

- ExportToClipboard: `writeText` returns a promise that is not awaited, so a rejected write still shows the success toast; the model's `Copied` means the write was requested.
- Persistence of the store to local storage (the `persist` middleware), the toasts, and the asynchronous clipboard are I/O. The clipboard's text is an input (`None` when reading fails), and the presence of `window` is a boolean.
- `JSON.stringify`, `JSON.parse` and the e-mail regular expression are function parameters, not defined here.
- Clipboard text that parses to a non-object (a number, string, array or `null`) would be installed as the settings by `update`. The model's parser yields objects only.
- Numbers are integers. NaN, fractions and the floating-point behaviour of `Math.floor`, `/` and `%` (for example a fractional limit in `getTotalPage`) are not modelled.
- `Object.keys` lists integer-like keys first. The model uses insertion order for every key.
- Strict equality in `getKeyByValue` is value equality here. JavaScript compares objects by identity.
- `password.length` counts UTF-16 code units; the model counts characters.
- In `apiErrorThrower`, `String(e)` is an input (`text`), the HTTP status is a natural number, and `e` itself is never null or undefined.
- An `e.message` object whose `toString` gives "Network Error" is not modelled: the model compares by value, not with loose `==`.
- Property reads on strings, numbers, booleans and arrays give `undefined`. This holds for the names read here (`detail`, `name`, `message`, `key`).
- The non-`BaseError` thrown on a missing `detail` is the outcome `Crashed`. The engine's TypeError message is not modelled.
- `errorPopper`'s toast of a non-string message is the value itself. How the toast library renders it is not modelled.
- `addKeysPropsForAnArray` is modelled on elements that are plain objects with distinct keys. The spread of a primitive is not modelled.
- `useTriggerState` is a class with the rendered and pending values. React's scheduling and batching of renders is the explicit `Rerender`.
- `asyncSleep`, `convertTimeStampToReadable` and `usePaginationState` are left out. They are timing, date formatting and thin `useState` plumbing.
- The React components, pages, HTTP wrappers and data-fetching hooks are left out. Their parameter guards (for example `days < 1` in the records request) are not part of this model.
