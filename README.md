# sectionproperties assistant: the front-end's own logic in Dafny

The repository is a chat front-end. A user's prompt goes to a hosted language
model that can call tools. The tool calls are carried out with the
sectionproperties finite-element library: build a steel section, compute its
geometric or warping properties, compute stresses, plot stresses. This
project models the three pieces of `main_streamlit.py` that have behaviour of
their own:

- `call_function`: formats a call such as `sec.calculate_stress(mxx=5, n='a')`
  from a function name, an optional object name and keyword arguments
  (module `CallFormat`, with the string helpers in `Text` and the argument
  values in `Values`).
- `stream_data`: cuts a reply into words, each followed by a space (module
  `Stream`).
- The turn driver and tool dispatcher inside `call_LLM` (modules `Tools` and
  `Conversation`). The prompt is appended to the history and the model is
  asked for a reply. Every reply part becomes its own model turn. Every
  function call is dispatched in order. Exactly one tool result per call goes
  back, all of them in one user turn. This repeats until the reply has no
  candidates, has empty content, has no calls, or the API fails.

The environment is a value of type `Conversation.Env`:

- `classify` stands for the lookup of the called name in the module's
  globals and its `__module__` attribute.
- `lib` holds the library entry points. Each one either returns an opaque
  handle or raises with a message.
- `generate` is the model service. It maps the history it is sent to a reply
  or a failure.

The imperative parts of the source are the methods of the class
`Conversation.Session`. Its fields are `history`, the tool log, the `geom`,
`sec` and `stresses` slots and the collected `figures`. `call_function`'s
loop is the method `CallFormat.CallFunction`. Each method is proved equal to
a specification function: `Converse`, `Loop`, `Iterate`, `DispatchAll`,
`Dispatch`, the four handler functions, and `FormatCall`. The properties are
proved about those functions.

Three behaviours of the code shape the model:

- The globals lookup at lines 130-135 runs before the handler chain and
  outside any `try`. For a global that has no `__module__` attribute, such as
  an imported module or the `tools` list, line 133 raises. Nothing catches
  that exception, so `call_LLM` is abandoned. The model has this as
  `NameKind.NoModuleAttribute` and `Ending.LookupRaised`.
- `history` and `tool_calls_log` are the caller's own lists, appended to in
  place (lines 80, 104, 117, 268). The sections, stresses and figures reach
  the caller only through the assignment at lines 390-392. After
  `LookupRaised` the caller therefore keeps the appended turns and log
  entries, but its geometry, section and stresses are unchanged and no figure
  is shown. `Conversation.Converse` and `Session.CallLLM` give exactly that
  state.
- A property or stress call with no section calls a method on `None`. The
  handler's `except` catches the `AttributeError` and reports
  `Error calling <name>: 'NoneType' object has no attribute '<method>'`
  (`Tools.NoneAttribute`).

## Model

| member | source | states |
|---|---|---|
| CallFormat.CallFunction | main_streamlit.py:43-75 | the result is `FormatCall` of the inputs. With no arguments and a missing or empty object name it is exactly `name + "()"`. With a non-empty object name it is `object + "." + name + "(" + params + ")"`, otherwise `name + "(" + params + ")"`. The params are the entries in argument order: strings as `key='value'`, all other values as `key=str(value)`. |
| CallFormat.ParamsSnoc | main_streamlit.py:58-68 | adding an argument at the end appends exactly `", "` and its entry. There is no separator before the first entry and none after the last. |
| Text.JoinSnoc | main_streamlit.py:68 | `sep.join` puts exactly one separator between neighbours and none at the end |
| Text.NatToString | main_streamlit.py:65 | the decimal form of an integer argument is non-empty, only digits, and has no leading zero |
| Text.ParseIntToString | main_streamlit.py:65 | the decimal rendering of an integer value (sign, then digits) reads back as the same integer |
| Values.Get | main_streamlit.py:221 | `args.get(key)` returns the value of the first entry under the key. It returns `None` when no entry has that key, and a non-`None` result is always a stored value. |
| Text.Split | main_streamlit.py:280 | `split(" ")` gives one more piece than there are spaces, and no piece contains a space |
| Text.JoinSplit | main_streamlit.py:280 | joining the pieces of a split with the separator gives back the original text |
| Text.SplitJoin | main_streamlit.py:280 | splitting a join of separator-free words gives back the words (split is the inverse of join) |
| Text.ConcatSuffixed | main_streamlit.py:280-281 | concatenating every word followed by a space equals the join with spaces plus one final space |
| Stream.StreamData | main_streamlit.py:279-282 | the chunks concatenate to `text + " "`. There is one chunk more than the spaces in the text. Every chunk ends with its only space. |
| Stream.StreamDataWords | main_streamlit.py:279-281 | the chunks without their final space, joined by single spaces, give back the text |
| Tools.SteelSectionCall | main_streamlit.py:137-159 | A failing constructor changes nothing and gives `Error calling <name>: <msg>`. Once the constructor returns, `geom` holds the new geometry even if meshing or a later step fails. `sec` changes only once meshing and the section both succeed. A failure of meshing, of `Section` or of `plot_mesh` gives `Error calling <name>: ` followed by that step's own message. The result is success exactly when all four steps succeed. Only then is one mesh figure added, with the fixed mesh message (element size 10 mm, material S235) and next-step suggestion. `stresses` never changes. |
| Tools.PropertiesCall | main_streamlit.py:160-189 | No slot changes. Without a section the result is the `'NoneType' object has no attribute ...` error. A failing library call gives `Error calling <name>: <msg>` with the library's message. The result is success exactly when a section exists and the library call succeeds. A success carries the matching message, the property key (`section_properties` or `warping_properties`), the library's JSON text and the matching next-step suggestion. |
| Tools.StressCall | main_streamlit.py:190-209 | `stresses` is replaced exactly when the library's stress computation returns, even if reading the summary then fails. No other slot changes. Without a section the result is the `'NoneType'` error. A failing computation or a failing summary gives `Error calling <name>: ` followed by its own message. Success means the computation and the summary both succeeded, and the result carries that summary and the fixed message and suggestion. |
| Tools.PlotCall | main_streamlit.py:210-234 | Without stresses the result is the "Stresses have not been calculated yet..." error and nothing changes. A failing plot gives `Error calling <name>: <msg>` with the library's message and adds no figure. Success happens exactly when stresses exist and the plot succeeds. Only then is one figure added, with the message naming `plot_type` and the fixed plot description and caption suggestion. Geometry, section and stresses never change. |
| Tools.Dispatch | main_streamlit.py:124-234 | It raises exactly when the lookup of the name raises. A steel-section constructor reaches `SteelSectionCall`. Otherwise, the two property names reach `PropertiesCall` with the matching run, `calculate_stress` reaches `StressCall` and `plot_stress` reaches `PlotCall`. Any other name gets `Tool '<name>' is not implemented or not available.` and changes no slot. An error result never adds a figure. Existing figures are kept. |
| Conversation.Calls | main_streamlit.py:103-107 | There are no calls exactly when no part is a call, and each call comes from a call part. |
| Conversation.CallsAppend | main_streamlit.py:103-107 | collecting calls distributes over concatenation of parts. With `CallsOne`, the calls of a reply are therefore exactly its call parts' calls, in the order of the parts. |
| Conversation.CallsOne | main_streamlit.py:106-107 | a call part contributes its call, and any other part contributes nothing |
| Conversation.DispatchAll | main_streamlit.py:113-263 | If no lookup raised, there is exactly one response part per call, in the order of the calls and under each call's name, and every call was logged. The batch raises exactly when some call's lookup raises. |
| Conversation.DispatchAllPrefix | main_streamlit.py:113-263 | without a raise, the first `k` calls of a batch give the first `k` responses of the whole batch |
| Conversation.DispatchAllResponse | main_streamlit.py:113-263 | without a raise, response `i` is the result of `Dispatch` on call `i`, run on the slots the earlier calls left. The slots after call `i` are the ones that dispatch gives, so the batch's final slots are its last call's. |
| Conversation.DispatchAllNotAvailable | main_streamlit.py:125-129 | an unknown name at position `i` puts `Tool '<name>' is not implemented or not available.` at position `i` of the turn sent back |
| Conversation.DispatchAllNoStresses | main_streamlit.py:210-229 | a `plot_stress` call before any stresses exist puts the "Stresses have not been calculated yet..." error at its position of the turn sent back |
| Conversation.DispatchAllExtends | main_streamlit.py:113-263 | a batch only appends to the tool log and only adds figures, at most one of each per call |
| Conversation.DispatchAllRaisedLog | main_streamlit.py:113-137 | a batch that raises has logged every call up to and including the first one whose lookup raises, and no later call |
| Conversation.DispatchAllRaised | main_streamlit.py:131-137 | once a call's lookup raised, the remaining calls of the reply are neither logged nor dispatched |
| Conversation.Iterate | main_streamlit.py:93-275 | The history is only appended to and figures are only added. With no candidates, or with empty content, the iteration stops at once and changes nothing. Otherwise every part is appended as its own model turn. If a lookup raised, it stops with `LookupRaised` and the tool log and slots of the batch. With no calls it stops with `NoCalls` and no user turn. Otherwise all results form one user turn and the request is sent. If it returns, the loop continues with that reply. If it fails, the loop stops with `ApiError` after the turn `An error occurred: <msg>`. |
| Conversation.Loop | main_streamlit.py:93-275 | with no fuel left the state is unchanged and the ending is `OutOfFuel` |
| Conversation.LoopOutOfFuel | main_streamlit.py:93-275 | with fuel left, the loop runs out of fuel exactly when this iteration continues and the rest of the loop runs out, so only a language model that keeps calling tools exhausts it |
| Conversation.LoopExtends | main_streamlit.py:93-275 | over the whole loop the history, the tool log and the figures are only extended |
| Conversation.Converse | main_streamlit.py:78-90 | The prompt is appended as one user turn, and the resulting history starts with it. If the first request fails, exactly one model turn `An error occurred: <msg>` follows and the call ends, with `geom`, `sec` and `stresses` unchanged and no figures. If the first request replies, the result is the turn loop's on that reply. After `LookupRaised` the caller keeps the loop's history and tool log, but its slots are unchanged and it has no figures. |
| Conversation.Session.constructor | main_streamlit.py:78-79 | a session starts from the given history, tool log and slots, with no figures |
| Conversation.Session.SteelSectionHandler | main_streamlit.py:137-159 | the slots after the constructor branch, and its result, are those of `SteelSectionCall` |
| Conversation.Session.PropertiesHandler | main_streamlit.py:160-189 | the result of a property branch is that of `PropertiesCall`, and no slot changes |
| Conversation.Session.StressHandler | main_streamlit.py:190-209 | the slots after the stress branch, and its result, are those of `StressCall` |
| Conversation.Session.PlotHandler | main_streamlit.py:210-234 | the slots after the plot branch, and its result, are those of `PlotCall` |
| Conversation.Session.DispatchCall | main_streamlit.py:124-234 | the handler chain leaves history and tool log alone. It raises exactly when `Dispatch` does, and then the slots are unchanged. Otherwise the new slots and the result are `Dispatch`'s. |
| Conversation.Session.RecordParts | main_streamlit.py:102-107 | the history grows by `ModelTurns(parts)` and the collected calls are `Calls(parts)` |
| Conversation.Session.DispatchCalls | main_streamlit.py:113-263 | the new tool log, slots, response parts and raise flag are those of `DispatchAll`, and the history is unchanged |
| Conversation.Session.RunIteration | main_streamlit.py:93-275 | one pass of the loop body changes the session as `Iterate` says, and stops, or yields the next reply, as `Iterate` says |
| Conversation.Session.Advance | main_streamlit.py:93-275 | one pass of the loop body keeps the final outcome of `Loop` unchanged |
| Conversation.Session.DriveLoop | main_streamlit.py:93-275 | the `while response` loop leaves the session and the ending that `Loop` gives |
| Conversation.Session.CallLLM | main_streamlit.py:78-277 | `call_LLM`, followed by the caller's assignment at lines 390-392, leaves the session and the ending that `Converse` gives |

## Left out

- Conversation.Loop: the source loop has no bound. The model runs at most `fuel` iterations. A run that uses them all ends with `OutOfFuel`, which the source never produces. Every other ending matches the source.
- The model service client, the model identifier, the configuration and the tool schema file are left out. Replies are the values `Reply`/`Candidate`/`Part`, and a failed request is `ApiFailed` with the exception's message.
- A reply part is text, a function call or a function response. A part carrying both text and a call is not modelled.
- When there is no argument mapping (`args` is `None`), unpacking it would raise. This is not modelled: arguments are always a sequence.
- The sectionproperties library is left out: geometry builders, mesher, `Section`, property and stress solvers, plotting. Each call is modelled only as a result or a raised message, and objects are opaque handles. Changes the library makes inside an object it already holds are not visible. This covers the mesh attached in place and the properties attached to `sec`.
- Setting the material (line 141) and creating a matplotlib `Figure` (lines 145-146, 214-215) are assumed never to raise.
- Keyword clashes with `normalize`, `pause` or `ax` in `plot_stress` are folded into the library's outcome.
- The minimum and maximum stress values are floats produced by the library. They are the opaque `StressStats`.
- The serialization of property mappings (`SelectiveEncoder`, `ConversionEncoder`, `json.dumps`) is part of the library's opaque JSON text.
- The globals and `__module__` reflection (lines 130-135) is replaced by the given classification `classify`.
- Values.ToStr: by default Python refuses to convert an integer of more than 4300 digits to text and raises `ValueError` at line 65. The model renders every integer.
- The tool-log entries are recorded as the calls themselves. Their text form and the HTML panel (lines 117-122) are left out, and so is the `print` logging.
- `stream_data`'s `time.sleep` pause between words is left out.
- The Streamlit user interface and `main()` (lines 284-407) are left out.
- test.py is left out: it is one request to the model service and a `print`.
- The command-line variant `main copy.py` and `main manual.py` are not part of this model.
