# Serial Studio core, modelled in Dafny

Serial Studio is a dashboard for embedded devices. Data frames arrive over
a serial port, a network socket or Bluetooth. The project file splits each
frame into groups of datasets and feeds them to plot widgets. This project
models four parts of it and proves properties of each:

- **JSON::Group** (`group.dfy`, with `json.dfy` and `whitespace.dfy`) loads
  one group of a project file: its title, widget and datasets. It writes
  the group back as JSON.
  - Loading cleans the title and widget with QString::simplified().
  - An empty object, a blank title or an empty dataset array is rejected
    and the group is left unchanged.
  - Once the header is accepted, the datasets are replaced by exactly the
    array entries that Dataset::read accepts, in array order.
  - Writing a group and reading it back restores it when the title is
    not blank and already simplified, the widget is already simplified,
    the group has at least one dataset, and Dataset::read accepts every
    entry Dataset::serialize writes and gives back the same dataset. A
    freshly constructed group, with an empty title and no datasets, does
    not survive the round trip: read rejects what serialize writes for it.
  - With a non-blank title and the same dataset conditions, writing,
    reading and writing again gives the first output.
- **Widgets::MultiPlot** (`multiplot.dfy`) holds one curve per dataset of a
  multiplot group and computes the plot's automatic Y range.
  - The range is [0, 1] with no curves.
  - If every dataset declares a distinct min and max, the range spans the
    declared limits.
  - Otherwise it is taken from the data: a 10% margin, rounded outwards to
    integers. This range always holds every point.
- **Plugins::Server** (`server.dfy`, with `base64.dfy`) is the TCP server
  for plugins.
  - It queues frames while enabled.
  - Once a second it sends them as one compact JSON line to every writable
    socket.
  - It forwards raw device bytes as Base64 inside a one-line JSON message.
  - Disabling it drops every connection.
- **JSON::FrameParser** (`frameparser.dfy`) loads the user's JavaScript
  frame parser. A script replaces the cached `parse` function only when:
  - `parse` is callable,
  - the evaluation reported no error,
  - and a probe call did not fail.

  As a result, after any series of edits the cached function handle is
  the one from the last script that loaded. What that function computes
  can still change: every script, including a rejected one, runs in the
  same persistent engine.

Each class whose fields the original updates in place is a Dafny `class`
with the same fields. Its methods carry loops with invariants and are
proved against specification functions (`ReadGroup`, `AutoScaleRange`,
`Without`, `Broadcast`, `Load`/`LoadStep`). Lemmas about those functions
state what the code promises.

Parts the model cannot see are passed in as parameters:
- the dashboard, as a `Dashboard` value;
- Dataset::read and Dataset::serialize, as functions;
- Frame::serialize, as a function;
- the JavaScript engine, as an `Engine` oracle;
- socket writability, as a predicate;
- the sender socket and the pending connection, as `Option` values.

Effects on the outside world are recorded as state:
- socket writes are appended to `outbox`;
- closes and aborts are appended to `closed`;
- bytes written to the device are appended to `deviceWrites`.

## Model

| member | source | states |
|---|---|---|
| Whitespace.SimplifiedMeaning | app/src/JSON/Group.cpp:104-105 | a simplified title or widget has white space only as single ' ' characters strictly inside it, and keeps the input's words in order |
| Whitespace.SimplifiedIdempotent | app/src/JSON/Group.cpp:86-87 | simplifying an already simplified string changes nothing |
| Whitespace.SimplifiedEmpty | app/src/JSON/Group.cpp:104-108 | the simplified title is empty exactly when the read title is all white space |
| JsonGroup.KeptExactly | app/src/JSON/Group.cpp:115-124 | the dataset loop keeps exactly the entries that are non-empty objects accepted by Dataset::read; the kept positions strictly increase and each kept dataset is the one its entry produced |
| JsonGroup.RejectsBadHeader | app/src/JSON/Group.cpp:98-131 | an empty object, a missing, non-string or all-blank title, or a missing, non-array or empty datasets array makes read return false and leaves the group unchanged |
| JsonGroup.AcceptedHeaderReplacesDatasets | app/src/JSON/Group.cpp:108-124 | once the header is accepted, the title and widget become the simplified strings, the id stays, and the old datasets are replaced by exactly the accepting entries in array order, even if none accepts |
| JsonGroup.ReadSucceedsIff | app/src/JSON/Group.cpp:98-131 | read returns true if and only if the header is accepted and at least one array entry yields a dataset |
| JsonGroup.ReadSerializedNormalizes | app/src/JSON/Group.cpp:79-131 | for a group whose title is not blank, with at least one dataset that Dataset::read gives back from its serialized form: reading what serialize wrote succeeds with the simplified title and widget and the same datasets, and serializing the result again gives the first output |
| JsonGroup.SerializeAfterRead | app/src/JSON/Group.cpp:79-110 | after a read that accepted the header, serialize writes back the title and widget that read stored, unchanged |
| JsonGroup.ReadSerialized | app/src/JSON/Group.cpp:79-131 | reading back what serialize wrote returns true and restores the group exactly, when the title is non-empty and simplified, the widget is simplified, there is at least one dataset, and Dataset::read accepts every serialized dataset and gives it back |
| JsonGroup.Group.constructor | app/src/JSON/Group.cpp:52-57 | a new group has the given id, empty title and widget, and no datasets |
| JsonGroup.Group.Read | app/src/JSON/Group.cpp:98-131 | the result and the new state are those of ReadGroup on the old state, so the lemmas above hold of the method; after an accepted header the result is datasetCount() > 0, and getDataset(k) is the dataset the k-th accepting entry produced |
| Widgets.EmptyBufferRange | app/src/UI/Widgets/MultiPlot.cpp:293-298 | with no curves the Y range is [0, 1] |
| Widgets.DeclaredLimitsRange | app/src/UI/Widgets/MultiPlot.cpp:300-318 | when every dataset declares min != max, minY is the smallest declared min and maxY the largest declared max, both attained and unrounded; with no datasets the sentinels DBL_MAX and lowest() remain |
| Widgets.ConstantDataRange | app/src/UI/Widgets/MultiPlot.cpp:337-352 | on the fallback path, when every point has the same value c, the range is [-1, 1] for c == 0 and otherwise c -/+ 10% of abs(c), rounded outwards |
| Widgets.SpreadDataRange | app/src/UI/Widgets/MultiPlot.cpp:354-364 | on the fallback path with lowest point lo below highest point hi, the range is lo - 10%(hi - lo) rounded down and hi + 10%(hi - lo) rounded up |
| Widgets.FallbackEnclosesData | app/src/UI/Widgets/MultiPlot.cpp:320-370 | the data-driven range has integer bounds, minY < maxY, and contains every point of every curve |
| Widgets.NoPointsRange | app/src/UI/Widgets/MultiPlot.cpp:320-370 | when there are curves but no points, the sentinels survive and the range comes out inverted (minY > maxY) |
| Widgets.DataExtremes | app/src/UI/Widgets/MultiPlot.cpp:323-335 | over at least one finite point, the min/max scan that starts from the sentinels finds the lowest and the highest Y |
| Widgets.ScanDeclaredLimits | app/src/UI/Widgets/MultiPlot.cpp:300-318 | the loop over the declared limits stops at the first dataset whose min equals its max, reporting failure; otherwise it returns the smallest declared min and the largest declared max, starting from DBL_MAX and lowest() |
| Widgets.ScanData | app/src/UI/Widgets/MultiPlot.cpp:320-335 | the nested loop over curves and points returns the running min and max of every Y value, starting from DBL_MAX and lowest() |
| Widgets.RefreshedRangeHoldsValues | app/src/UI/Widgets/MultiPlot.cpp:194-219 | after updateData with at least one value, the data-driven range holds every value the dashboard supplied |
| Widgets.MultiPlot.constructor | app/src/UI/Widgets/MultiPlot.cpp:32-75 | valid index: the title becomes the Y label, the range is computed over curves of points zeros, then updateRange leaves count() equal to the group's dataset count, points + 1 zero points per curve and X range [0, points]; invalid index: empty plot with count() 0 and range [0, 1] |
| Widgets.MultiPlot.Draw | app/src/UI/Widgets/MultiPlot.cpp:179-189 | a missing series or an out-of-range index does nothing; index 0 first recomputes the range; the series receives the curve at the index |
| Widgets.MultiPlot.UpdateData | app/src/UI/Widgets/MultiPlot.cpp:194-219 | when the dashboard has values for this multiplot, curve i becomes the points (j, values[j]) at the values' length; curves with no new values and everything else are unchanged |
| Widgets.MultiPlot.UpdateRange | app/src/UI/Widgets/MultiPlot.cpp:224-248 | valid index: count() becomes the group's dataset count, each curve holds points + 1 (0, 0) points, and the X range is [0, points]; otherwise nothing changes |
| Widgets.MultiPlot.CalculateAutoScaleRange | app/src/UI/Widgets/MultiPlot.cpp:286-370 | the new (minY, maxY) is AutoScaleRange of the curves and the group's declared limits, so the range lemmas above hold of the method |
| Base64.EncodeShape | app/src/Plugins/Server.cpp:273 | the Base64 text has 4 characters per started group of three bytes, each from the alphabet or '=', none a quote, backslash or line break |
| Base64.DecodeEncode | app/src/Plugins/Server.cpp:273 | decoding the Base64 text gives back the bytes |
| Base64.EncodeInjective | app/src/Plugins/Server.cpp:273 | distinct byte strings have distinct encodings |
| Plugins.WithoutMeaning | app/src/Plugins/Server.cpp:96-106 | after removal the socket is gone and every other socket keeps its count of registrations |
| Plugins.RemoveRegisteredOnce | app/src/Plugins/Server.cpp:96-106 | removing a socket registered once takes out exactly that entry; the other sockets keep their order |
| Plugins.AsWrittenLeavesDuplicate | app/src/Plugins/Server.cpp:99-106 | the loop as written, on the list [7, 7] asked to remove 7, leaves [7] |
| Plugins.AsWrittenAgreesWhenUnique | app/src/Plugins/Server.cpp:99-106 | for a socket registered at most once, the loop as written and the corrected removal give the same list |
| Plugins.BroadcastMeaning | app/src/Plugins/Server.cpp:242-249 | every write of a broadcast carries the message, and a socket receives it once per registration when it is writable and never when it is not |
| Plugins.ProcessedMessageIsOneLine | app/src/Plugins/Server.cpp:222-239 | the processed-data message ends in its single line break, when no serialized frame contains a line break |
| Plugins.RawMessageIsOneLine | app/src/Plugins/Server.cpp:271-277 | the raw-data message is always exactly one line, and its data field decodes to the forwarded bytes |
| Plugins.Server.constructor | app/src/Plugins/Server.cpp:36-38 | the server starts disabled with no frames and no sockets |
| Plugins.Server.RegisterFrame | app/src/Plugins/Server.cpp:294-298 | while enabled the frame is queued last; while disabled nothing changes |
| Plugins.Server.SetEnabled | app/src/Plugins/Server.cpp:116-142 | the flag takes the value and the frame queue is emptied; disabling closes every socket in order and forgets them all; the invariant "disabled means no sockets and no frames" is kept |
| Plugins.Server.OnDataReceived | app/src/Plugins/Server.cpp:147-155 | the bytes from a sender socket reach the device only while enabled |
| Plugins.Server.AcceptConnection | app/src/Plugins/Server.cpp:160-200 | while disabled a pending socket is closed and not registered; while enabled it is registered last; with nothing pending nothing changes |
| Plugins.Server.RemoveConnection | app/src/Plugins/Server.cpp:91-111 | corrected scan: every registration of the sender is removed and the other sockets keep their order; with no sender nothing changes |
| Plugins.Server.WriteToAll | app/src/Plugins/Server.cpp:242-249 | appends exactly the broadcast of the line to the outbox |
| Plugins.Server.SendProcessedData | app/src/Plugins/Server.cpp:208-255 | while enabled, with frames queued and a socket connected, it broadcasts {"frames":[{"data":...},...]} with one entry per queued frame in order and empties the queue; otherwise nothing changes |
| Plugins.Server.SendRawData | app/src/Plugins/Server.cpp:261-288 | while enabled and connected, it broadcasts {"data":"<Base64>"}; otherwise nothing is written |
| JsonFrameParser.ErrorMessagesDistinct | app/src/JSON/FrameParser.cpp:327-353 | each of the seven error kinds has its own message, and only a kind outside them reads "Unknown error" |
| JsonFrameParser.LoadMeaning | app/src/JSON/FrameParser.cpp:290-363 | a script loads exactly when parse() is callable, evaluation reported no error and the probe returned no error; the first failing check, in that order, decides the message |
| JsonFrameParser.LoadStepKeepsOnFailure | app/src/JSON/FrameParser.cpp:300-362 | a failed load keeps the cached function; a successful one replaces it with the script's parse() |
| JsonFrameParser.CachedAfterMeaning | app/src/JSON/FrameParser.cpp:290-363 | after any series of loads the cached function is the one from the last script that loaded, or the initial one if none did; once a function is cached one always is |
| JsonFrameParser.FrameParser.constructor | app/src/JSON/FrameParser.cpp:80-81 | the default template becomes the editor text and is saved silently |
| JsonFrameParser.FrameParser.LoadScript | app/src/JSON/FrameParser.cpp:290-363 | the outcome is Load of the engine's report, and the cached function changes only on success |
| JsonFrameParser.FrameParser.Save | app/src/JSON/FrameParser.cpp:268-288 | returns true exactly when the text loads; then the modified flag is cleared and the project's parser code becomes the text; on failure neither changes |
| JsonFrameParser.FrameParser.Apply | app/src/JSON/FrameParser.cpp:193-196 | a silent save, with the same effect as Save |
| JsonFrameParser.FrameParser.ReadCode | app/src/JSON/FrameParser.cpp:365-370 | the editor takes the project's code and is unmodified whether or not it loads; the cached function follows LoadStep |
| JsonFrameParser.FrameParser.Parse | app/src/JSON/FrameParser.cpp:138-155 | the cached function's string list for (frame, separator), element for element and in order; with no cached function, the empty list |

## Left out

- Qt signals (rangeChanged, enabledChanged, modifiedChanged, frameParserCodeChanged) are not modelled. So the call of readCode that setFrameParserCode triggers from save is not modelled either. That call reloads the same text into an unmodified editor and runs loadScript on it a second time (FrameParser.cpp:365-370).
- Message boxes, file dialogs and the "are you sure" prompts of reload and import are left out. FrameParser's editor event forwarding, rendering and theming, and help are left out too. All of these are user interface. reload and import are not modelled beyond the constructor's silent save of the default template.
- The JavaScript engine is an oracle `Engine`: a script maps to the global parse(), the evaluation errors and the probe result. Its engine state persists between calls, so a script without parse() can still see an earlier one. The caller expresses that by passing a different oracle per call.
- JsonFrameParser.FrameParser.Parse: the kept handle runs against engine globals that later scripts may have changed, rejected ones included. Every load evaluates its script in the same engine and calls the new parse("", ",") before any error check (FrameParser.cpp:298-357). The model expresses this as a different `Caller` on each call. CachedAfterMeaning is about the handle only, not about what the handle computes.
- The stream frame detector and decoder are not part of this model.
- MultiPlot tick intervals (MultiPlot.cpp:126-154) and FFTPlot are left out. Both are floating-point numerics through log10, pow and fmod, or through a foreign FFT library.
- MultiPlot::onThemeChanged and the curve colours are left out; they are theme data.
- The TCP listen call, socket errors (onErrorOccurred), readAll and deleteLater are left out; they are networking and memory management. A socket is a number, and writability is a predicate.
- Doubles are modelled as reals: there is no rounding, overflow or NaN. In doubles, `lo - 0.1 * (hi - lo)` can overflow when the limits' spread is near DBL_MAX. The model does not capture that.
- qFuzzyCompare and qFuzzyIsNull are modelled as exact comparison. As a result, the widening branch after rounding never fires in the model.
- JsonGroup.Group.GetDataset: requires a valid position. The comment at Group.cpp:175-177 promises nullptr for an invalid index, but the function returns a reference through QVector::at, which has no such result for an invalid index.
- Widgets.MultiPlot.UpdateData: requires at least as many curves as the dashboard supplies values for. The original indexes past the end of the curve buffer in that case, which is undefined behaviour.
- Widgets.MultiPlot.constructor: the dataset min/max fold at MultiPlot.cpp:46-52 is not repeated. calculateAutoScaleRange overwrites its result before anything can read it.
- Dashboard::points() is taken to be non-negative.
- Compact JSON formatting in Server.cpp is modelled only for the fixed message shapes. Frame::serialize is an opaque parameter returning the frame's JSON text.

## Findings

| source | as written | input that shows it | evidently intended | confidence | as-written member | corrected member |
|---|---|---|---|---|---|---|
| app/src/Plugins/Server.cpp:99-106 | after `removeAt(i)` the loop sets `i = 0`, and the loop's `++i` then resumes the scan at index 1. An entry that slides into index 0 is never examined | the socket list [A, A] with A disconnecting leaves [A] registered | every registration of the disconnecting socket is removed, e.g. the loop resumes at 0. Low impact: accepted sockets are distinct objects, so a socket is normally registered once, and then both loops agree (Plugins.AsWrittenAgreesWhenUnique) | not executed | Plugins.RemoveAsWritten (Plugins.AsWrittenLeavesDuplicate) | Plugins.Server.RemoveConnection |
