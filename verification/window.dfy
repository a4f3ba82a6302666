/** The window as seen by the callback core: the state the core reads and
    writes, and the window's own routines, which the core only calls. The
    routines are left abstract: they are total functions supplied as a
    record, so every property proved holds for every window behaviour. */
module Window {
  import opened Base
  import opened Mado

  /** The window's decoration settings: whether decorations are drawn and the
      height they take. */
  datatype Decorations = Decorations(enabled: bool, height: int)

  /** The accessibility tree: its root, the nodes by identifier, and the
      previous frame's nodes (root first), kept only to compute diffs. */
  datatype Semantic = Semantic(root: SemanticID, ids: map<SemanticID, SemanticNode>, prevTree: seq<SemanticNode>)

  /** The window state the core touches.
      - `destroy`: the teardown signal is ready to be received;
      - `options`, `actions`: single-slot mailboxes of pending batches;
      - `wakeup`: the slot the driver's wake-up function is handed through,
        holding `Some(None)` for a nil function;
      - `rest`: everything else the window owns, opaque to the core. */
  datatype State = State(
    ime: EditorState,
    decorations: Decorations,
    destroy: bool,
    options: Option<seq<WindowOption>>,
    actions: Option<Actions>,
    wakeup: Option<Option<Driver>>,
    semantic: Semantic,
    rest: nat)

  /** What processing one event amounts to: the `handled` answer, the window
      state afterwards, and the events the window submitted back to the core
      (in call order) while it was processing. */
  datatype Step = Step(handled: bool, window: State, submitted: seq<Event>)

  /** The window's routines, called by the core.
      - `process`: ProcessEvent;
      - `updateState`: UpdateState, run once after every top-level drain;
      - `apply`: the effect of one option on a configuration;
      - `replace`: ImeState.Replace, which edits the text and may move ranges;
      - `updateSemantics`: UpdateSemantics, which rebuilds the tree if stale;
      - `collectDiffs`: the identifiers CollectSemanticDiffs appends, starting
        from a node of the previous tree. */
  datatype Ops = Ops(
    process: (State, Driver, Event) -> Step,
    updateState: (State, Driver) -> State,
    apply: (WindowOption, Config) -> Config,
    replace: (EditorState, Range, string) -> EditorState,
    updateSemantics: State -> State,
    collectDiffs: (State, SemanticNode) -> seq<SemanticID>)
}
