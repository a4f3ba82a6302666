# Callback dispatch, input-method editing and GLFW error handling

This project is a Dafny model of two small sequential cores of the mado windowing toolkit.

**The callback dispatcher** (`app/callbacs.go`) delivers events to a window one at a time. `Event` appends the event to a wait queue. A `busy` flag makes any call made while a drain is running a pure append. The top-level call drains the queue in FIFO order, including the events the window submits while it processes earlier ones, and returns the `handled` answer of the last event processed. After the drain, if the window is not being torn down, the dispatcher does two things:

- it lets the window update its state;
- when the triggering event is a wake-up, it folds the pending window options over a configuration seeded with the decoration flag and hands them to the driver with a derived decoration height appended; it then hands over the pending actions.

Four input-method operations (`EditorInsert`, `EditorReplace`, `SetEditorSelection`, `SetEditorSnippet`) report to the window through `Event`. `SetEditorSnippet` only reports the new snippet range and stores nothing. `SetComposingRegion` only stores the composing region and reports nothing. The accessibility accessors (`SemanticRoot`, `LookupSemantic`, `AppendSemanticDiffs`) do not: they call the window's `UpdateSemantics` and answer from its semantic tree.

**GLFW error handling** (`glfw/error.go`) covers three things:

- a fixed table of fourteen error codes and their names;
- a one-slot mailbox holding the last reported error;
- `acceptError`, which returns the pending error, drops it, or panics.

Modelling choices:

- The dispatcher is an immutable value, `Dispatch.Callbacks`: window state, bound driver, `busy`, wait queue and a trace of the calls made on the window and the driver. Operations return the next value.
- The window's routines (`ProcessEvent`, `UpdateState`, the effect of an option, `ImeState.Replace`, `UpdateSemantics`, `CollectSemanticDiffs`) are total functions passed in as a `Window.Ops` record. Every property therefore holds for every window behaviour.
- The events a window submits back while processing one event are the `submitted` part of its `Window.Step`. They join the back of the queue, which is exactly what a nested `Event` call does: the busy case of `Dispatch.Event`'s contract.
- Text is `seq<char>` of Unicode scalar values, so `|text|` is the rune count.
- Go panics are an `Outcome` value `Panic(msg)`.
- The Go drain loop may never end. The model gives it a step budget (`fuel`) and reports `OutOfFuel` when the budget runs out. `Dispatch.RunsOut` says what running out means: the real drain, in which every event is processed only after it was queued or submitted, makes `fuel` deliveries and events still wait. `Dispatch.Drain`, `Dispatch.Event` and the editor operations prove that `OutOfFuel` only comes when the drain they started runs out in this sense. They also prove that a window which submits nothing never exhausts a budget above the queue length.

Two points about what the code does, which the model follows:

- `SetEditorSnippet` only reports a new snippet range; it never stores it. So calling it twice with the same range emits twice unless the window stored the range while processing the first report.
- The doc comment of `LookupSemantic` (app/callbacs.go:91) says the zero ID denotes the root. The body does a plain map lookup with no special case for zero, and so does the model.

## Model

| member | source | states |
|---|---|---|
| Dispatch.Event | app/callbacs.go:37-83 | Panics with "event while no driver active" exactly when no driver is bound, before touching the queue. While busy it only appends `e` and answers true. Otherwise the deliveries are chained window steps, FIFO over the queue plus `e` plus all submissions, and no event is processed before it was queued or submitted. The answer is the last delivery's. The dispatcher ends idle with an empty queue and the reconciliation applied. The validity invariant (idle implies empty queue) is preserved, and on an idle dispatcher `e` is processed first. For a window that submits nothing, exactly the queue and then `e` are processed. Running out of budget happens only at top level with a driver bound, when the real drain of the queue and `e` runs out (`RunsOut`). For a window that submits nothing and a budget above the queue length it never happens. |
| Dispatch.Drain | app/callbacs.go:45-53 | Each event is processed in the window state the previous one left. The processed sequence equals the initial queue followed by every submission in submission order. An event is processed only after it was submitted. `handled` is the last event's answer. A quiet window with enough budget never runs out. Giving up means the real drain runs out: there is a chained run of exactly `fuel` deliveries, each processing an event already queued or submitted, after which events still wait. |
| Dispatch.Reconcile | app/callbacs.go:54-81 | Once teardown is signalled nothing follows the drain: no state update, no Configure, no Perform. Otherwise UpdateState is the first call. Without a wake-up it is the only one. After a wake-up, exactly one Configure follows iff options were pending after the update, then exactly one Perform iff actions were pending. Both slots end empty. The queue, busy flag and driver are untouched. |
| Dispatch.ApplyOptions | app/callbacs.go:61-75 | With no pending batch nothing changes. Otherwise the slot is consumed and the folded decoration flag is written back. Exactly one Configure call receives the original options followed by one `DecoHeightOpt`, whose height is 0 when decorations end up disabled and the window's decoration height otherwise. |
| Dispatch.ApplyActions | app/callbacs.go:76-80 | With no pending batch nothing changes. Otherwise the slot is consumed and exactly one Perform call receives the batch. |
| Dispatch.FoldOptions | app/callbacs.go:63-66 | No options leave the configuration as seeded. Otherwise the last option acts on what all the earlier ones produced, so options apply first to last. |
| Dispatch.FoldAppend | app/callbacs.go:63-66 | Folding `a + b` folds `b` over the result of folding `a`: options apply left to right. |
| Dispatch.FoldSnoc | app/callbacs.go:63-66 | The last option is applied to the result of all earlier ones, so `[A, B]` gives `B(A(seed))`. |
| Dispatch.SilentRun | app/callbacs.go:47-52 | A FIFO run in which the window submits nothing processes exactly the initial queue, in order. |
| Dispatch.QuietRun | app/callbacs.go:47-52 | In a real run of a window that never calls back while processing, no step submits an event. |
| Dispatch.QuietDrained | app/callbacs.go:45-53 | A real FIFO run of such a window processes exactly the initial queue; `Dispatch.Event` uses it for its quiet-window clause. |
| Dispatch.SetDriver | app/callbacs.go:28-35 | Binds the given driver, or none. Hands the window the driver's wake-up function (nil when unbinding). Changes nothing else. |
| Editor.InsertionCaret | app/callbacs.go:122-127 | The caret after an insertion is collapsed, at the lower end of the selection plus the inserted rune count, whichever end is lower. |
| Editor.InsertionCaretCountsRunes | app/callbacs.go:126 | Inserting three two-byte runes at 0 gives caret 3, not 6. "abc" at 3 gives 6. A reversed selection (7, 2) takes its lower end. |
| Editor.EditorStateReadsBack | app/callbacs.go:111-117 | `EditorState` returns what was stored: a stored composing region reads back, storing the region just read changes nothing, a later store overrides an earlier one, and nothing but the composing region changes. |
| Editor.SetComposingRegion | app/callbacs.go:111-117 | Read back through `EditorState`: only the composing region changes, to `r`. Nothing is queued or traced, and no driver is needed. |
| Editor.SetEditorSelection | app/callbacs.go:137-140 | Stores `r` as given, reversed or not, then reports `SelectionEvent(r)`. Nested, that is one append. At top level the window processes the report first, already seeing selection `r`. No driver: panic. At top level a completed call is exactly one `Event` drain of the report followed by its reconciliation; running out happens only when that drain runs out (`RunsOut`). A window that submits nothing and a budget above the queue length never run out. |
| Editor.SetEditorSnippet | app/callbacs.go:142-148 | Equal to the current snippet: nothing at all happens, even without a driver. Otherwise exactly one `SnippetEvent(r)` is reported, with the editor state never written. Nested, that is one append. At top level it is processed first, against the unchanged state. At top level a completed call is exactly one `Event` drain of the report followed by its reconciliation; running out happens only for a changed range when that drain runs out. A window that submits nothing and a budget above the queue length never run out. |
| Editor.EditorReplace | app/callbacs.go:131-135 | Applies Replace, then reports `EditEvent{r, text}`, then a `SnippetEvent` with the snippet range of the state after the edit. Nested, both are appended in that order. At top level the edit is processed first, already seeing the replaced state, and the snippet report is processed later. A completed top-level call is the drain of the edit report, then the drain of the snippet report read from the state the first left (`ReplaceDrained`). Running out happens only when one of those two drains runs out (`ReplaceRunsOut`). A window that submits nothing and a budget above the queue length never run out. |
| Editor.EditorInsert | app/callbacs.go:119-129 | Reports the edit of the current selection, then the snippet, then `SelectionEvent` of the caret computed from the selection read before the replace. Nested, the three are appended in that order and the stored selection is that caret. At top level they are processed in that order, the first one immediately. A completed top-level call is the replacement's two drains followed by the drain of the selection report. Running out happens only when one of these three drains runs out. A window that submits nothing and a budget above the queue length never run out. |
| Semantics.SemanticRoot | app/callbacs.go:85-89 | The window's semantic tree is refreshed first, and the answer is the root of the refreshed tree. Driver, queue, busy flag and trace are untouched. |
| Semantics.LookupSemantic | app/callbacs.go:91-96 | After the tree is refreshed, found iff the ID is in the tree. A found lookup returns that node; otherwise it returns the zero node. |
| Semantics.AppendSemanticDiffs | app/callbacs.go:98-104 | After the tree is refreshed, the accumulator is kept as a prefix. With no previous tree it comes back unchanged. Otherwise the diffs collected from the previous root are appended. |
| Semantics.AppendSemanticDiffsKeepsAccumulator | app/callbacs.go:98-104 | Appending to `diffs` yields `diffs` followed by what appending to an empty accumulator yields. |
| GlfwError.CodeTable | glfw/error.go:14-29 | The fourteen codes are `0x00010001 + i` for positions 0 to 13, hence pairwise distinct. |
| GlfwError.Aliases | glfw/error.go:44-73 | `APIUnavailable`, `VersionUnavailable` and `FormatUnavailable` equal their internal codes. |
| GlfwError.CodeString | glfw/error.go:76-109 | Each named code maps to its fixed name, position by position against the independent code and name tables. Any other value maps to `ErrorCode(<decimal>)`. |
| GlfwError.CodeStringRoundTrip | glfw/error.go:76-109 | Reading a name back gives the code it was made from. |
| GlfwError.CodeStringInjective | glfw/error.go:76-109 | Distinct codes have distinct names, named and unnamed alike. |
| GlfwError.DecimalRoundTrip | glfw/error.go:107 | The decimal rendering of any integer, with '-' for negatives, parses back to the integer. |
| GlfwError.ErrorMessage | glfw/error.go:117-120 | The text is the code's name, then ": ", then the description. |
| GlfwError.ErrorMessageInjective | glfw/error.go:117-120 | The text determines the error: its first colon ends the code's name. |
| GlfwError.FetchError | glfw/error.go:204-213 | Never waits. It returns nothing for an empty slot and the stored error otherwise, and leaves the slot empty. |
| GlfwError.FetchConsumes | glfw/error.go:204-213 | A second fetch finds nothing. |
| GlfwError.Accepts | glfw/error.go:172-176 | The front-to-back scan of the accepted codes succeeds iff the code is among them. |
| GlfwError.AcceptError | glfw/error.go:156-193 | The slot is always consumed. It returns nothing iff no error is pending or an unaccepted platform error is dropped. It returns the pending error unchanged iff its code is accepted. It panics with the pending error iff the code is neither accepted nor `platformError`: programmer errors and every other code alike. |
| GlfwError.AcceptNothingReturnsNoError | glfw/error.go:195-202 | Accepting no codes never returns an error, so `panicError`'s own nil check never fires. |
| GlfwError.PanicError | glfw/error.go:195-202 | The slot is consumed. It panics with the pending error iff there is one and it is not a platform error. Otherwise it is a no-op. |

## Left out

- `app/d3d11_windows.go`: Direct3D 11 device and swap-chain management through COM and `unsafe` pointers. It is not part of this model.
- Window internals (`ProcessEvent`, `UpdateState`, `UpdateSemantics`, `CollectSemanticDiffs`, `ImeState.Replace`) are abstract functions. The core only calls them.
- Window internals: calls back into the core from `UpdateState` or from the driver's `Configure`/`Perform` are not modelled. Only events submitted during `ProcessEvent` are.
- Semantic tree: `CollectSemanticDiffs` is modelled as returning the identifiers it appends, so it never rewrites the accumulator.
- `SetWindow`, `SemanticAt`, `ActionAt` and `ClickFocus` (app/callbacs.go:24-26, 106-109, 150-158) are not modelled. `SetWindow` only stores the window pointer. The other three work on the window's input queue (hit testing, focus) and, for `ClickFocus`, on animation scheduling with `time.Time`; neither is part of this model.
- Channels: Go channels and goroutines are replaced by single slots. `Destroy` is a flag that stays set once signalled. `Options` and `Actions` are `Option` slots emptied on receipt. The wake-up hand-off of `SetDriver` is a slot that is overwritten; waiting for the window to take an earlier value is not modelled.
- Options: each option's effect on the configuration, including its use of the window's metric and the effect of `DecoHeightOpt`, is left to the abstract `apply`. Options are tags rather than closures.
- Decoration height is an integer; in the toolkit it is a floating-point `unit.Dp`.
- Editor state: only the selection range, composing range and snippet range are modelled. The selection's caret and transform and the snippet's text are left out.
- Text: byte-level UTF-8 handling of `utf8.RuneCountInString`, including how it counts invalid bytes, is left out. Text is a sequence of scalar values.
- Dispatch.Event: when the step budget runs out (`OutOfFuel`), the Go loop would keep running instead. The model only proves that the real drain made `fuel` deliveries with events still waiting. For a window that does submit events, no budget is proved sufficient, because such a window may keep the queue non-empty forever.
- Editor.SetEditorSelection, Editor.SetEditorSnippet, Editor.EditorReplace, Editor.EditorInsert: the same budget limit applies to each `Event` drain they start.
- GlfwError.CodeString: error codes are unbounded integers, while Go's `int` is 64 bits wide. This makes no difference to the names of representable codes.
- glfw side effects: `log.Println` and the standard-error diagnostics are left out. So are `flushErrors`' output, the commented-out callback `goErrorCB` and the empty `init`. The two panicking branches of `acceptError` differ only in those diagnostics.
