/** Tab trapping in modal dialogs: an event filter that keeps keyboard
    focus cycling through a fixed list of widgets. The focused widget is a
    parameter, and the `setFocus` the filter performs is returned as the
    widget to focus. Widgets are compared by identity, which is what
    Python's `in` and `list.index` do for them. */
module Focus {
  import opened Py

  /** The keys the filter can be shown. Qt reports Shift+Tab as `Backtab`,
      with the Shift modifier set. */
  datatype Key = Tab | Backtab | OtherKey

  datatype Event = KeyPress(key: Key, shift: bool) | OtherEvent

  /** What Qt delivers for a press of the Tab key, with or without Shift. */
  function TabPress(shift: bool): Event
  {
    if shift then KeyPress(Backtab, true) else KeyPress(Tab, false)
  }

  /** The widgets of the trap: the given list without its `None` entries,
      in order. */
  function TrapList<W>(ws: seq<Option<W>>): (r: seq<W>)
    ensures |r| <= |ws|
    ensures forall i :: 0 <= i < |r| ==> Some(r[i]) in ws
    ensures forall i :: 0 <= i < |ws| && ws[i].Some? ==> ws[i].value in r
  {
    if ws == [] then []
    else
      var rest := TrapList(ws[..|ws| - 1]);
      assert forall i :: 0 <= i < |ws| - 1 ==> ws[..|ws| - 1][i] == ws[i];
      match ws[|ws| - 1]
      case None => rest
      case Some(w) => rest + [w]
  }

  lemma TrapListSnoc<W>(ws: seq<Option<W>>, o: Option<W>)
    ensures TrapList(ws + [o]) == TrapList(ws) + (if o.Some? then [o.value] else [])
  {
    assert (ws + [o])[..|ws|] == ws;
  }

  /** `list.index`: the position of the first occurrence. */
  function IndexOf<W(==)>(ws: seq<W>, w: W): (i: nat)
    requires w in ws
    ensures i < |ws| && ws[i] == w && forall j :: 0 <= j < i ==> ws[j] != w
  {
    if ws[0] == w then 0 else IndexOf(ws[1..], w) + 1
  }

  /** The index Tab moves to, forwards or, with Shift, backwards, wrapping
      round at both ends (Python's `%` never returns a negative here). */
  function NextIndex(idx: nat, n: nat, backwards: bool): (r: nat)
    requires idx < n
    ensures r < n
    ensures !backwards ==> r == if idx == n - 1 then 0 else idx + 1
    ensures backwards ==> r == if idx == 0 then n - 1 else idx - 1
  {
    if backwards then
      ModWrap(idx - 1, n);
      (idx - 1) % n
    else
      ModWrap(idx + 1, n);
      (idx + 1) % n
  }

  /** Python's `%` one step outside `[0, n)` wraps round to the other end. */
  lemma ModWrap(a: int, n: int)
    requires n > 0 && -1 <= a <= n
    ensures a % n == if a == -1 then n - 1 else if a == n then 0 else a
  {
    if a == -1 {
      assert a == -1 * n + (n - 1);
    } else if a == n {
      assert a == 1 * n + 0;
    }
  }

  /** The filter's answer: whether it consumes the event, and the widget it
      focuses. */
  datatype Handled<W> = Handled(consumed: bool, focus: Option<W>)

  class TabTrapFilter<W(==)> {
    const widgets: seq<W>

    /** `_TabTrapFilter.__init__`: the `None` entries are dropped. */
    constructor(given: seq<Option<W>>)
      ensures widgets == TrapList(given)
    {
      widgets := TrapList(given);
    }

    /** `_TabTrapQObject.eventFilter`: a Tab press on a listed widget moves
        focus to the next one (the previous one with Shift) and is consumed;
        every other event passes through. */
    function EventFilter(event: Event, focused: Option<W>): (h: Handled<W>)
      ensures h.consumed <==> event.KeyPress? && event.key == Tab && focused.Some? && focused.value in widgets
      ensures !h.consumed ==> h.focus == None
      ensures h.consumed ==> h.focus.Some? && h.focus.value in widgets
      ensures h.consumed ==> h.focus.value == widgets[NextIndex(IndexOf(widgets, focused.value), |widgets|, event.shift)]
    {
      if event.KeyPress? && event.key == Tab && focused.Some? && focused.value in widgets then
        var idx := IndexOf(widgets, focused.value);
        Handled(true, Some(widgets[NextIndex(idx, |widgets|, event.shift)]))
      else Handled(false, None)
    }

    /** The filter as it was evidently meant: Shift+Tab, which arrives as
        `Backtab`, moves focus backwards. */
    function EventFilterCorrected(event: Event, focused: Option<W>): (h: Handled<W>)
      ensures h.consumed <==> event.KeyPress? && event.key in {Tab, Backtab} && focused.Some? && focused.value in widgets
      ensures !h.consumed ==> h.focus == None
      ensures h.consumed ==> h.focus.Some? && h.focus.value in widgets
    {
      if event.KeyPress? && (event.key == Tab || event.key == Backtab) && focused.Some? && focused.value in widgets then
        var idx := IndexOf(widgets, focused.value);
        Handled(true, Some(widgets[NextIndex(idx, |widgets|, event.key == Backtab || event.shift)]))
      else Handled(false, None)
    }
  }

  /** A plain Tab keeps focus inside the list: from the k-th widget (its
      first occurrence) it goes to the next, and from the last to the
      first. */
  lemma TabCycles<W>(f: TabTrapFilter<W>, k: nat)
    requires k < |f.widgets| && forall j :: 0 <= j < k ==> f.widgets[j] != f.widgets[k]
    ensures var h := f.EventFilter(TabPress(false), Some(f.widgets[k]));
      h.consumed && h.focus == Some(f.widgets[if k == |f.widgets| - 1 then 0 else k + 1])
  {
    var i := IndexOf(f.widgets, f.widgets[k]);
    assert i == k;
  }

  /** As written, Shift+Tab is not trapped: Qt delivers it as `Backtab`,
      which the filter passes through, so the backwards branch is never
      taken and focus may leave the list. */
  lemma ShiftTabEscapes<W>(f: TabTrapFilter<W>, w: W)
    requires w in f.widgets
    ensures !f.EventFilter(TabPress(true), Some(w)).consumed
  {
  }

  /** Corrected, both Tab and Shift+Tab keep focus inside the list, and
      Shift+Tab from the first widget goes to the last. */
  lemma CorrectedTrapsBoth<W>(f: TabTrapFilter<W>, w: W, shift: bool)
    requires w in f.widgets
    ensures var h := f.EventFilterCorrected(TabPress(shift), Some(w));
      h.consumed && h.focus.Some? && h.focus.value in f.widgets
    ensures f.widgets[0] == w && shift ==>
      f.EventFilterCorrected(TabPress(shift), Some(w)).focus == Some(f.widgets[|f.widgets| - 1])
  {
  }
}
