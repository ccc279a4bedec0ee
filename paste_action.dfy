/** Performing a paste: acquire the target file's text buffer, add one edit
    per clipboard fragment, perform and commit the edits when the editor
    says they can be performed, and release the buffer on every path. */
module PasteAction {
  import opened Options
  import opened JavaElements
  import opened PasteRules

  /** The edits the action builds. A member edit places one source string
      relative to an element in a given style; a compilation-unit edit merges
      one typed fragment into a unit. */
  datatype Edit =
    | MemberEdit(element: JavaElement, style: Style, sources: seq<string>, tabWidth: int)
    | PasteInCompilationUnitEdit(source: string, kind: ElementType, unit: JavaElement)

  /** The edit built for one fragment in a given mode. */
  function EditFor(mode: PasteMode, target: JavaElement, fragment: TypedSource, tabWidth: int): Edit
  {
    match mode
    case MergeIntoUnit => PasteInCompilationUnitEdit(fragment.source, fragment.kind, target)
    case MemberEdits(style) => MemberEdit(target, style, [fragment.source], tabWidth)
  }

  /** The edits built for a whole clipboard: one per fragment, in clipboard
      order. */
  function EditsFor(mode: PasteMode, target: JavaElement, elems: seq<TypedSource>, tabWidth: int): (r: seq<Edit>)
    ensures |r| == |elems|
    ensures forall i :: 0 <= i < |elems| ==> r[i] == EditFor(mode, target, elems[i], tabWidth)
  {
    if elems == [] then []
    else [EditFor(mode, target, elems[0], tabWidth)] + EditsFor(mode, target, elems[1..], tabWidth)
  }

  /** Every edit of a member-style paste targets the same element in the
      same style, and the i-th edit carries the i-th fragment's source. */
  lemma MemberEditsShareTargetAndStyle(style: Style, target: JavaElement, elems: seq<TypedSource>, tabWidth: int, i: nat)
    requires i < |elems|
    ensures var e := EditsFor(MemberEdits(style), target, elems, tabWidth)[i];
            e.MemberEdit? && e.element == target && e.style == style && e.sources == [elems[i].source]
  {
  }

  /** Every edit of a compilation-unit merge targets the unit and keeps the
      fragment's source and kind. */
  lemma MergeEditsKeepFragments(unit: JavaElement, elems: seq<TypedSource>, tabWidth: int, i: nat)
    requires i < |elems|
    ensures EditsFor(MergeIntoUnit, unit, elems, tabWidth)[i] ==
              PasteInCompilationUnitEdit(elems[i].source, elems[i].kind, unit)
  {
  }

  /** A text buffer, reduced to what the action observes: how many
      acquisitions are outstanding, the edits performed on its contents in
      order, and those edits as of the last commit to the file. */
  class TextBuffer {
    var acquisitions: nat
    var applied: seq<Edit>
    var saved: seq<Edit>

    constructor ()
      ensures acquisitions == 0 && applied == [] && saved == []
    {
      acquisitions := 0;
      applied := [];
      saved := [];
    }

    method Acquire()
      modifies this
      ensures acquisitions == old(acquisitions) + 1
      ensures applied == old(applied) && saved == old(saved)
    {
      acquisitions := acquisitions + 1;
    }

    method Release()
      requires acquisitions > 0
      modifies this
      ensures acquisitions == old(acquisitions) - 1
      ensures applied == old(applied) && saved == old(saved)
    {
      acquisitions := acquisitions - 1;
    }

    /** commitChanges: the file now holds the buffer's contents. */
    method Commit()
      modifies this
      ensures saved == applied
      ensures acquisitions == old(acquisitions) && applied == old(applied)
    {
      saved := applied;
    }
  }

  /** Collects edits against one buffer and performs them together. */
  class TextBufferEditor {
    const buffer: TextBuffer
    var edits: seq<Edit>

    constructor (buffer: TextBuffer)
      ensures this.buffer == buffer && edits == []
    {
      this.buffer := buffer;
      edits := [];
    }

    method Add(e: Edit)
      modifies this
      ensures edits == old(edits) + [e]
    {
      edits := edits + [e];
    }

    /** canPerformEdits is decided by the text-manipulation layer, which is
        given here as the predicate `performable` over the collected edits. */
    predicate CanPerformEdits(performable: seq<Edit> -> bool)
      reads this
    {
      performable(edits)
    }

    method PerformEdits()
      modifies buffer
      ensures buffer.applied == old(buffer.applied) + edits
      ensures buffer.acquisitions == old(buffer.acquisitions) && buffer.saved == old(buffer.saved)
    {
      buffer.applied := buffer.applied + edits;
    }
  }

  /** Adds one edit per fragment to the editor in the given mode, in
      clipboard order; the buffer is left alone. */
  method AddEdits(tbe: TextBufferEditor, mode: PasteMode, target: JavaElement, elems: seq<TypedSource>, tabWidth: int)
    requires tbe.edits == []
    modifies tbe
    ensures tbe.edits == EditsFor(mode, target, elems, tabWidth)
  {
    var i := 0;
    while i < |elems|
      invariant 0 <= i <= |elems|
      invariant |tbe.edits| == i
      invariant forall j :: 0 <= j < i ==> tbe.edits[j] == EditFor(mode, target, elems[j], tabWidth)
    {
      tbe.Add(EditFor(mode, target, elems[i], tabWidth));
      i := i + 1;
    }
  }

  /** The common body of paste and pasteInCompilationUnit: acquire, add the
      edits, perform and commit only when they can be performed, release. */
  method ApplyEdits(mode: PasteMode, target: JavaElement, elems: seq<TypedSource>, tabWidth: int,
                    performable: seq<Edit> -> bool, tb: TextBuffer) returns (committed: bool)
    modifies tb
    ensures committed <==> performable(EditsFor(mode, target, elems, tabWidth))
    ensures tb.acquisitions == old(tb.acquisitions)
    ensures committed ==> tb.applied == old(tb.applied) + EditsFor(mode, target, elems, tabWidth)
                          && tb.saved == tb.applied
    ensures !committed ==> tb.applied == old(tb.applied) && tb.saved == old(tb.saved)
  {
    tb.Acquire();
    var tbe := new TextBufferEditor(tb);
    AddEdits(tbe, mode, target, elems, tabWidth);
    if !tbe.CanPerformEdits(performable) {
      tb.Release();
      return false;
    }
    tbe.PerformEdits();
    tb.Commit();
    tb.Release();
    return true;
  }

  /** paste: one member edit per fragment relative to the selected element. */
  method Paste(style: Style, selected: JavaElement, elems: seq<TypedSource>, tabWidth: int,
               performable: seq<Edit> -> bool, tb: TextBuffer) returns (committed: bool)
    modifies tb
    ensures committed <==> performable(EditsFor(MemberEdits(style), selected, elems, tabWidth))
    ensures tb.acquisitions == old(tb.acquisitions)
    ensures committed ==> tb.applied == old(tb.applied) + EditsFor(MemberEdits(style), selected, elems, tabWidth)
                          && tb.saved == tb.applied
    ensures !committed ==> tb.applied == old(tb.applied) && tb.saved == old(tb.saved)
  {
    committed := ApplyEdits(MemberEdits(style), selected, elems, tabWidth, performable, tb);
  }

  /** pasteInCompilationUnit: one merge edit per fragment into the unit. */
  method PasteInCompilationUnit(unit: JavaElement, elems: seq<TypedSource>, tabWidth: int,
                                performable: seq<Edit> -> bool, tb: TextBuffer) returns (committed: bool)
    modifies tb
    ensures committed <==> performable(EditsFor(MergeIntoUnit, unit, elems, tabWidth))
    ensures tb.acquisitions == old(tb.acquisitions)
    ensures committed ==> tb.applied == old(tb.applied) + EditsFor(MergeIntoUnit, unit, elems, tabWidth)
                          && tb.saved == tb.applied
    ensures !committed ==> tb.applied == old(tb.applied) && tb.saved == old(tb.saved)
  {
    committed := ApplyEdits(MergeIntoUnit, unit, elems, tabWidth, performable, tb);
  }

  /** What perform did: nothing (no working-copy element), a failed
      assertion, or a paste in some mode, committed or not. */
  datatype PerformOutcome =
    | NoWorkingCopy
    | AssertionFailure
    | Pasted(mode: PasteMode, committed: bool)

  /** The outcome perform produces for a working-copy element and clipboard. */
  function ExpectedOutcome(workingCopy: Option<JavaElement>, clipboard: Option<seq<TypedSource>>,
                           tabWidth: int, performable: seq<Edit> -> bool): PerformOutcome
  {
    if workingCopy.None? || !workingCopy.value.present then NoWorkingCopy
    else if !InterestingClipboard(clipboard) then AssertionFailure
    else match Dispatch(workingCopy.value.kind, clipboard.value)
      case None => AssertionFailure
      case Some(mode) => Pasted(mode, performable(EditsFor(mode, workingCopy.value, clipboard.value, tabWidth)))
  }

  /** perform: `workingCopy` is the selected element's counterpart in the
      working copy of its unit, `tb` the text buffer of that unit's file. */
  method Perform(workingCopy: Option<JavaElement>, clipboard: Option<seq<TypedSource>>, tabWidth: int,
                 performable: seq<Edit> -> bool, tb: TextBuffer) returns (outcome: PerformOutcome)
    modifies tb
    ensures outcome == ExpectedOutcome(workingCopy, clipboard, tabWidth, performable)
    ensures tb.acquisitions == old(tb.acquisitions)
    ensures outcome.Pasted? && outcome.committed ==>
              tb.applied == old(tb.applied) + EditsFor(outcome.mode, workingCopy.value, clipboard.value, tabWidth)
              && tb.saved == tb.applied
    ensures !(outcome.Pasted? && outcome.committed) ==> tb.applied == old(tb.applied) && tb.saved == old(tb.saved)
  {
    if workingCopy.None? || !workingCopy.value.present {
      return NoWorkingCopy;
    }
    var target := workingCopy.value;
    // getClipboardContents asserts that the clipboard is interesting
    var interesting := IsAnythingInInterestingClipboard(clipboard);
    if !interesting {
      return AssertionFailure;
    }
    var elems := clipboard.value;
    var pasteIn := CanPasteIn(target.kind, elems);
    if pasteIn {
      if target.kind == CompilationUnit {
        var committed := PasteInCompilationUnit(target, elems, tabWidth, performable, tb);
        return Pasted(MergeIntoUnit, committed);
      } else {
        var committed := Paste(AddAtBeginning, target, elems, tabWidth, performable, tb);
        return Pasted(MemberEdits(AddAtBeginning), committed);
      }
    }
    var pasteAfter := CanPasteAfter(target.kind, elems);
    if pasteAfter {
      var committed := Paste(InsertAfter, target, elems, tabWidth, performable, tb);
      return Pasted(MemberEdits(InsertAfter), committed);
    }
    return AssertionFailure;
  }

  /** perform's assertion cannot fail after canOperateOn succeeded on the
      same element: the selection's working-copy counterpart has the
      selected element's kind, and the clipboard did not change. */
  lemma PerformAfterCanOperateOnPastes(clipboard: Option<seq<TypedSource>>, selected: SelectedObject,
                                       tabWidth: int, performable: seq<Edit> -> bool)
    requires Eligible(selected) && InterestingClipboard(clipboard)
    requires PasteInLegal(selected.element.kind, clipboard.value) || PasteAfterLegal(selected.element.kind, clipboard.value)
    requires selected.workingCopy.value.kind == selected.element.kind
    ensures ExpectedOutcome(selected.workingCopy, clipboard, tabWidth, performable).Pasted?
  {
  }
}
