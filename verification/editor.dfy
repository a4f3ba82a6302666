/** The input-method editing operations of the callback core. The selection
    and replace operations store their effect on the editor state and then
    report it through `Event`; `SetEditorSnippet` only reports a new snippet
    range, and `SetComposingRegion` only stores the composing region. A
    report made from inside event processing (the dispatcher busy) only
    joins the queue; one made at top level is drained before the next report
    is made. */
module Editor {
  import opened Base
  import opened Mado
  import Window
  import opened Dispatch

  /** The caret that follows text inserted over `sel`: collapsed, at the lower
      end of the selection plus the text's length in runes. */
  function InsertionCaret(sel: Range, text: string): (caret: Range)
    ensures caret.start == caret.end
    ensures caret.start - |text| <= sel.start && caret.start - |text| <= sel.end
    ensures caret.start - |text| == sel.start || caret.start - |text| == sel.end
  {
    var start := if sel.end < sel.start then sel.end else sel.start;
    Range(start + |text|, start + |text|)
  }

  /** Trace entry `j` processed a snippet report carrying the snippet range of
      the editor state the window had at that moment. */
  predicate SnippetReported(t: seq<Call>, j: int)
    requires 0 <= j < |t|
  {
    t[j].Processed? && t[j].event.SnippetEvent? && t[j].event.range == t[j].ime.snippet
  }

  /** The dispatcher after an `Event` call whose answer the caller ignores. */
  function Settled(o: Outcome<Dispatched>): Outcome<Callbacks>
  {
    match o
    case Ok(x) => Ok(x.next)
    case Panic(msg) => Panic(msg)
    case OutOfFuel => OutOfFuel
  }

  /** The dispatcher after the selection was stored as `r`. */
  function Selected(c: Callbacks, r: Range): Callbacks
  {
    c.(w := c.w.(ime := c.w.ime.(selection := r)))
  }

  /** The dispatcher after `r` was replaced by `text` in the editor state. */
  function Replaced(ops: Window.Ops, c: Callbacks, r: Range, text: string): Callbacks
  {
    c.(w := c.w.(ime := ops.replace(c.w.ime, r, text)))
  }

  /** A top-level replacement from `c` completed and left `n`: the edit
      report was drained and reconciled, then the report of the snippet the
      window then held was drained and reconciled. */
  ghost predicate ReplaceDrained(ops: Window.Ops, c: Callbacks, r: Range, text: string, n: Callbacks)
    requires c.d.Some?
  {
    exists x, y ::
      && TopLevel(ops, Replaced(ops, c, r, text), EditEvent(r, text), x)
      && x.next.d.Some?
      && TopLevel(ops, x.next, SnippetEvent(x.next.w.ime.snippet), y)
      && y.next == n
  }

  /** A top-level replacement from `c` runs out of budget: either draining the
      edit report does, or that drain completes and draining the snippet
      report does. */
  ghost predicate ReplaceRunsOut(ops: Window.Ops, c: Callbacks, r: Range, text: string, fuel: nat)
    requires c.d.Some?
  {
    || RunsOut(ops, c.d.value, Replaced(ops, c, r, text).w, c.waitEvents + [EditEvent(r, text)], fuel)
    || exists x ::
         && TopLevel(ops, Replaced(ops, c, r, text), EditEvent(r, text), x)
         && RunsOut(ops, c.d.value, x.next.w, x.next.waitEvents + [SnippetEvent(x.next.w.ime.snippet)], fuel)
  }

  /** The editor state as the platform input method reads it. */
  function EditorState(c: Callbacks): EditorState
  {
    c.w.ime
  }

  /** Stores the composing region; reports nothing and needs no driver. */
  function SetComposingRegion(c: Callbacks, r: Range): (next: Callbacks)
    ensures EditorState(next).compose == r
    ensures EditorState(next).selection == EditorState(c).selection
    ensures EditorState(next).snippet == EditorState(c).snippet
    ensures next.(w := c.w) == c && next.w.(ime := c.w.ime) == c.w
  {
    c.(w := c.w.(ime := c.w.ime.(compose := r)))
  }

  /** The editor state and the composing-region store behave as a single
      field: what is stored reads back, storing what was read changes
      nothing, and a later store overrides an earlier one. */
  lemma EditorStateReadsBack(c: Callbacks, r: Range, r2: Range)
    ensures EditorState(SetComposingRegion(c, r)).compose == r
    ensures SetComposingRegion(c, EditorState(c).compose) == c
    ensures SetComposingRegion(SetComposingRegion(c, r), r2) == SetComposingRegion(c, r2)
    ensures EditorState(SetComposingRegion(c, r)) == EditorState(c).(compose := r)
  {
  }

  /** Stores the selection exactly as given (a reversed range stays reversed)
      and reports it. */
  method SetEditorSelection(ops: Window.Ops, c: Callbacks, r: Range, fuel: nat) returns (res: Outcome<Callbacks>)
    ensures c.d.None? ==> res == Panic(NoDriverMessage)
    ensures c.d.Some? ==> !res.Panic?
    ensures c.d.Some? && c.busy ==>
      res == Ok(c.(w := c.w.(ime := c.w.ime.(selection := r)), waitEvents := c.waitEvents + [SelectionEvent(r)]))
    ensures res.Ok? ==> Valid(res.value) && res.value.d == c.d && res.value.busy == c.busy && c.trace <= res.value.trace
    ensures Valid(c) && !c.busy && res.Ok? ==>
      && |res.value.trace| > |c.trace|
      && res.value.trace[|c.trace|] == Processed(SelectionEvent(r), c.w.ime.(selection := r))
    // only a top-level drain can run out of budget
    ensures res.OutOfFuel? ==>
      c.d.Some? && !c.busy && RunsOut(ops, c.d.value, Selected(c, r).w, c.waitEvents + [SelectionEvent(r)], fuel)
    // a completed top-level call is the drain of the report and its reconciliation
    ensures c.d.Some? && !c.busy && res.Ok? ==>
      exists x :: TopLevel(ops, Selected(c, r), SelectionEvent(r), x) && res.value == x.next
    // a window that submits nothing never exhausts a budget above the queue length
    ensures Quiet(ops) && c.d.Some? && |c.waitEvents| < fuel ==> res.Ok?
  {
    var c1 := Selected(c, r);
    var a := Dispatch.Event(ops, c1, SelectionEvent(r), fuel);
    res := Settled(a);
  }

  /** Reports a new snippet range unless it equals the current one. The
      editor state itself is never written here. */
  method SetEditorSnippet(ops: Window.Ops, c: Callbacks, r: Range, fuel: nat) returns (res: Outcome<Callbacks>)
    ensures c.w.ime.snippet == r ==> res == Ok(c)
    ensures c.w.ime.snippet != r && c.d.None? ==> res == Panic(NoDriverMessage)
    ensures c.w.ime.snippet != r && c.d.Some? && c.busy ==>
      res == Ok(c.(waitEvents := c.waitEvents + [SnippetEvent(r)]))
    ensures res.Ok? ==> res.value.d == c.d && res.value.busy == c.busy && c.trace <= res.value.trace
    ensures Valid(c) && res.Ok? ==> Valid(res.value)
    ensures Valid(c) && !c.busy && c.w.ime.snippet != r && res.Ok? ==>
      && |res.value.trace| > |c.trace|
      && res.value.trace[|c.trace|] == Processed(SnippetEvent(r), c.w.ime)
    // only a top-level drain can run out of budget
    ensures res.OutOfFuel? ==>
      c.w.ime.snippet != r && c.d.Some? && !c.busy && RunsOut(ops, c.d.value, c.w, c.waitEvents + [SnippetEvent(r)], fuel)
    // a completed top-level report is the drain of the report and its reconciliation
    ensures c.w.ime.snippet != r && c.d.Some? && !c.busy && res.Ok? ==>
      exists x :: TopLevel(ops, c, SnippetEvent(r), x) && res.value == x.next
    // a window that submits nothing never exhausts a budget above the queue length
    ensures Quiet(ops) && c.d.Some? && |c.waitEvents| < fuel ==> res.Ok?
  {
    if EditorState(c).snippet == r {
      return Ok(c);
    }
    var a := Dispatch.Event(ops, c, SnippetEvent(r), fuel);
    res := Settled(a);
  }

  /** Replaces `r` by `text` in the window's editor, then reports the edit and
      then the snippet range as it stands after the edit was reported. */
  method EditorReplace(ops: Window.Ops, c: Callbacks, r: Range, text: string, fuel: nat) returns (res: Outcome<Callbacks>)
    ensures c.d.None? ==> res == Panic(NoDriverMessage)
    ensures c.d.Some? ==> !res.Panic?
    ensures c.d.Some? && c.busy ==>
      var ime := ops.replace(c.w.ime, r, text);
      res == Ok(c.(w := c.w.(ime := ime), waitEvents := c.waitEvents + [EditEvent(r, text), SnippetEvent(ime.snippet)]))
    ensures res.Ok? ==> Valid(res.value) && res.value.d == c.d && res.value.busy == c.busy && c.trace <= res.value.trace
    ensures Valid(c) && !c.busy && res.Ok? ==>
      var t := res.value.trace;
      && |t| > |c.trace|
      && t[|c.trace|] == Processed(EditEvent(r, text), ops.replace(c.w.ime, r, text))
      && exists j :: |c.trace| < j < |t| && SnippetReported(t, j)
    // only a top-level drain can run out of budget
    ensures res.OutOfFuel? ==> c.d.Some? && !c.busy && ReplaceRunsOut(ops, c, r, text, fuel)
    // a completed top-level call is the two drains, one after the other
    ensures c.d.Some? && !c.busy && res.Ok? ==> ReplaceDrained(ops, c, r, text, res.value)
    // a window that submits nothing never exhausts a budget above the queue length
    ensures Quiet(ops) && c.d.Some? && |c.waitEvents| < fuel ==> res.Ok?
  {
    var c1 := Replaced(ops, c, r, text);
    var a := Dispatch.Event(ops, c1, EditEvent(r, text), fuel);
    if !a.Ok? {
      return Settled(a);
    }
    var c2 := a.value.next;
    var b := Dispatch.Event(ops, c2, SnippetEvent(c2.w.ime.snippet), fuel);
    if !b.Ok? {
      if b.OutOfFuel? {
        assert TopLevel(ops, c1, EditEvent(r, text), a.value);
      }
      return Settled(b);
    }
    if c.d.Some? && !c.busy {
      assert TopLevel(ops, c1, EditEvent(r, text), a.value);
      assert TopLevel(ops, c2, SnippetEvent(c2.w.ime.snippet), b.value);
    }
    var c3 := b.value.next;
    if Valid(c) && !c.busy {
      assert c1.trace == c.trace;
      assert c3.trace[..|c2.trace|] == c2.trace;
      assert c3.trace[|c.trace|] == c2.trace[|c.trace|];
      assert SnippetReported(c3.trace, |c2.trace|);
    }
    if c.d.Some? && c.busy {
      assert c2 == c1.(waitEvents := c.waitEvents + [EditEvent(r, text)]);
      assert c3 == c2.(waitEvents := c2.waitEvents + [SnippetEvent(c1.w.ime.snippet)]);
      assert c3.waitEvents == c.waitEvents + [EditEvent(r, text), SnippetEvent(c1.w.ime.snippet)];
    }
    return Ok(c3);
  }

  /** Inserts `text` over the current selection and leaves a collapsed caret
      right after it. The caret is computed from the selection read before
      the replacement, whatever the replacement did to it. */
  method EditorInsert(ops: Window.Ops, c: Callbacks, text: string, fuel: nat) returns (res: Outcome<Callbacks>)
    ensures c.d.None? ==> res == Panic(NoDriverMessage)
    ensures c.d.Some? ==> !res.Panic?
    ensures c.d.Some? && c.busy ==>
      var sel := c.w.ime.selection;
      var ime := ops.replace(c.w.ime, sel, text);
      var caret := InsertionCaret(sel, text);
      res == Ok(c.(w := c.w.(ime := ime.(selection := caret)),
                   waitEvents := c.waitEvents + [EditEvent(sel, text), SnippetEvent(ime.snippet), SelectionEvent(caret)]))
    ensures res.Ok? ==> Valid(res.value) && res.value.d == c.d && res.value.busy == c.busy && c.trace <= res.value.trace
    ensures Valid(c) && !c.busy && res.Ok? ==>
      var sel := c.w.ime.selection;
      var caret := InsertionCaret(sel, text);
      var t := res.value.trace;
      && |t| > |c.trace|
      && t[|c.trace|] == Processed(EditEvent(sel, text), ops.replace(c.w.ime, sel, text))
      && exists j, k :: |c.trace| < j < k < |t| && SnippetReported(t, j)
                       && t[k].Processed? && t[k].event == SelectionEvent(caret) && t[k].ime.selection == caret
    // only a top-level drain can run out of budget
    ensures res.OutOfFuel? ==>
      var sel := c.w.ime.selection;
      var caret := InsertionCaret(sel, text);
      && c.d.Some? && !c.busy
      && (|| ReplaceRunsOut(ops, c, sel, text, fuel)
          || exists n :: ReplaceDrained(ops, c, sel, text, n)
                         && RunsOut(ops, c.d.value, Selected(n, caret).w, n.waitEvents + [SelectionEvent(caret)], fuel))
    // a completed top-level call is the replacement followed by the drain of
    // the selection report
    ensures c.d.Some? && !c.busy && res.Ok? ==>
      var sel := c.w.ime.selection;
      var caret := InsertionCaret(sel, text);
      exists n, z :: ReplaceDrained(ops, c, sel, text, n) && n.d.Some?
                     && TopLevel(ops, Selected(n, caret), SelectionEvent(caret), z) && res.value == z.next
    // a window that submits nothing never exhausts a budget above the queue length
    ensures Quiet(ops) && c.d.Some? && |c.waitEvents| < fuel ==> res.Ok?
  {
    var sel := EditorState(c).selection;
    var a := EditorReplace(ops, c, sel, text, fuel);
    if !a.Ok? {
      return a;
    }
    var c2 := a.value;
    var caret := InsertionCaret(sel, text);
    var b := SetEditorSelection(ops, c2, caret, fuel);
    if !b.Ok? {
      assert ReplaceDrained(ops, c, sel, text, c2);
      return b;
    }
    var c3 := b.value;
    if c.busy {
      var ime := ops.replace(c.w.ime, sel, text);
      assert c2 == c.(w := c.w.(ime := ime), waitEvents := c.waitEvents + [EditEvent(sel, text), SnippetEvent(ime.snippet)]);
      assert c3 == c2.(w := c2.w.(ime := c2.w.ime.(selection := caret)), waitEvents := c2.waitEvents + [SelectionEvent(caret)]);
      assert c3.waitEvents == c.waitEvents + [EditEvent(sel, text), SnippetEvent(ime.snippet), SelectionEvent(caret)];
      return Ok(c3);
    }
    assert ReplaceDrained(ops, c, sel, text, c2);
    var z :| TopLevel(ops, Selected(c2, caret), SelectionEvent(caret), z) && c3 == z.next;
    if Valid(c) {
      InsertionReports(|c.trace|, c2.trace, c3.trace, caret);
    }
    return Ok(c3);
  }

  /** Appending a processed selection report to a trace that already holds a
      snippet report after position `from` keeps both, in that order. */
  lemma InsertionReports(from: nat, t2: seq<Call>, t3: seq<Call>, caret: Range)
    requires from < |t2| < |t3| && t2 <= t3
    requires exists j :: from < j < |t2| && SnippetReported(t2, j)
    requires t3[|t2|].Processed? && t3[|t2|].event == SelectionEvent(caret) && t3[|t2|].ime.selection == caret
    ensures t3[from] == t2[from]
    ensures exists j, k :: from < j < k < |t3| && SnippetReported(t3, j)
                          && t3[k].Processed? && t3[k].event == SelectionEvent(caret) && t3[k].ime.selection == caret
  {
    var j :| from < j < |t2| && SnippetReported(t2, j);
    assert t3[..|t2|] == t2;
    assert t3[j] == t2[j];
    assert SnippetReported(t3, j);
  }

  /** Inserting "äöü" (three runes, six UTF-8 bytes) at an empty caret at 0
      puts the caret at 3, not 6; inserting "abc" at 3 puts it at 6. */
  lemma InsertionCaretCountsRunes()
    ensures InsertionCaret(Range(0, 0), "\U{E4}\U{F6}\U{FC}") == Range(3, 3)
    ensures InsertionCaret(Range(3, 3), "abc") == Range(6, 6)
    ensures InsertionCaret(Range(7, 2), "hi") == Range(4, 4)
  {
  }
}
