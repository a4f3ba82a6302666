/** The value types of the toolkit that the callback core exchanges with the
    window and the platform driver: text ranges, editor state, events,
    configuration options, drivers and action sets. */
module Mado {

  /** A range of rune offsets into editable text (key.Range). `start` may exceed
      `end`: that is a reversed selection, and nothing here normalises it. */
  datatype Range = Range(start: int, end: int)

  /** The externally visible input-method state (mado.EditorState): the
      selection, the composing region and the snippet range. */
  datatype EditorState = EditorState(selection: Range, compose: Range, snippet: Range)

  /** Events handed to the window. `InputEvent` stands for every pointer, key,
      window or system event that the callback core forwards without looking
      inside. */
  datatype Event =
    | WakeupEvent
    | EditEvent(range: Range, text: string)
    | SelectionEvent(range: Range)
    | SnippetEvent(range: Range)
    | InputEvent(id: nat)

  /** A window option. Options are closures over the window configuration in
      the toolkit; here each is a tag whose effect on a `Config` the window
      collaborator interprets. `DecoHeightOpt` is the option the dispatcher
      itself appends. */
  datatype WindowOption = CustomOption(tag: nat) | DecoHeightOpt(height: int)

  /** The window configuration that options are folded over. Only the
      decoration flag is read by the core; every other setting is kept
      abstract, keyed by an option-defined number. */
  datatype Config = Config(decorated: bool, settings: map<nat, int>)

  /** The configuration the dispatcher starts a fold from: Go's zero value with
      only the decoration flag set. */
  function SeedConfig(decorated: bool): Config
  {
    Config(decorated, map[])
  }

  /** A platform driver handle; only its identity matters to the core. */
  datatype Driver = Driver(id: nat)

  /** A batch of system actions (a bit set in the toolkit). */
  datatype Actions = Actions(bits: nat)

  /** Accessibility node identifiers. */
  type SemanticID = nat

  /** An accessibility node: its identity, its parent, its children and an
      abstract description. */
  datatype SemanticNode = SemanticNode(id: SemanticID, parent: SemanticID, children: seq<SemanticID>, desc: nat)

  /** The node a failed lookup returns: every field at its zero value. */
  const ZeroNode := SemanticNode(0, 0, [], 0)
}
