/** Where clipboard fragments may be pasted relative to a selected element.
    Every decision reads only the kinds of the target and of the fragments,
    never the source text. */
module PasteRules {
  import opened Options
  import opened JavaElements

  // ---------------------------------------------------------------------
  // The placement table: the reference definition of legality
  // ---------------------------------------------------------------------

  const MemberKinds: set<ElementType> := {Field, Initializer, Method, Type}
  const TopLevelKinds: set<ElementType> := {ImportContainer, ImportDeclaration, Type}
  const UnitKinds: set<ElementType> := {ImportContainer, ImportDeclaration, PackageDeclaration, Type}

  /** The fragment kinds a target accepts for pasting INTO it; None when
      pasting into that target is never legal. */
  function PasteInTable(target: ElementType): Option<set<ElementType>>
  {
    match target
    case ImportContainer => Some({ImportDeclaration})
    case Type => Some(MemberKinds)
    case CompilationUnit => Some(UnitKinds)
    case _ => None
  }

  /** The fragment kinds a target accepts for pasting AFTER it; None when
      pasting after that target is never legal. A type accepts only types,
      although it is a member too. */
  function PasteAfterTable(target: ElementType): Option<set<ElementType>>
  {
    match target
    case ImportContainer => Some(TopLevelKinds)
    case ImportDeclaration => Some(TopLevelKinds)
    case PackageDeclaration => Some(TopLevelKinds)
    case Type => Some({Type})
    case Field => Some(MemberKinds)
    case Method => Some(MemberKinds)
    case Initializer => Some(MemberKinds)
    case _ => None
  }

  /** Every fragment's kind is in `kinds`. */
  predicate AllKindsIn(elements: seq<TypedSource>, kinds: set<ElementType>)
  {
    forall i :: 0 <= i < |elements| ==> elements[i].kind in kinds
  }

  /** The table applies to the target and admits every fragment. */
  predicate Fits(table: Option<set<ElementType>>, elements: seq<TypedSource>)
  {
    table.Some? && AllKindsIn(elements, table.value)
  }

  predicate PasteInLegal(target: ElementType, elements: seq<TypedSource>)
  {
    Fits(PasteInTable(target), elements)
  }

  predicate PasteAfterLegal(target: ElementType, elements: seq<TypedSource>)
  {
    Fits(PasteAfterTable(target), elements)
  }

  // ---------------------------------------------------------------------
  // The action's checks, as the action computes them
  // ---------------------------------------------------------------------

  /** Is every fragment of the given kind? (areAllValuesOfType) */
  method AreAllValuesOfType(elements: seq<TypedSource>, kind: ElementType) returns (b: bool)
    ensures b <==> forall i :: 0 <= i < |elements| ==> elements[i].kind == kind
  {
    var i := 0;
    while i < |elements|
      invariant 0 <= i <= |elements|
      invariant forall j :: 0 <= j < i ==> elements[j].kind == kind
    {
      if elements[i].kind != kind {
        return false;
      }
      i := i + 1;
    }
    return true;
  }

  /** Is every fragment a field, initializer, method or type? (areAllMembers) */
  method AreAllMembers(elements: seq<TypedSource>) returns (b: bool)
    ensures b <==> AllKindsIn(elements, MemberKinds)
  {
    var i := 0;
    while i < |elements|
      invariant 0 <= i <= |elements|
      invariant forall j :: 0 <= j < i ==> IsMember(elements[j].kind)
    {
      if !IsMember(elements[i].kind) {
        return false;
      }
      i := i + 1;
    }
    return true;
  }

  /** May a fragment of this kind follow an import container, an import or
      a package declaration? */
  function CanPasteAfterImportContainerOrDeclaration(kind: ElementType): (r: bool)
    ensures r <==> kind in TopLevelKinds
  {
    if kind == ImportContainer then true
    else if kind == ImportDeclaration then true
    else if kind == Type then true
    else false
  }

  /** May every fragment follow a top-level declaration? (canPasteAtTopLevel) */
  method CanPasteAtTopLevel(elements: seq<TypedSource>) returns (b: bool)
    ensures b <==> AllKindsIn(elements, TopLevelKinds)
  {
    var i := 0;
    while i < |elements|
      invariant 0 <= i <= |elements|
      invariant forall j :: 0 <= j < i ==> elements[j].kind in TopLevelKinds
    {
      if !CanPasteAfterImportContainerOrDeclaration(elements[i].kind) {
        return false;
      }
      i := i + 1;
    }
    return true;
  }

  /** May a fragment of this kind be pasted into a compilation unit? */
  function CanPasteInCompilationUnitKind(kind: ElementType): (r: bool)
    ensures r <==> kind in UnitKinds
  {
    if kind == ImportContainer then true
    else if kind == ImportDeclaration then true
    else if kind == PackageDeclaration then true
    else if kind == Type then true
    else false
  }

  /** May every fragment be pasted into a compilation unit?
      (canPasteInCompilationUnit over the array) */
  method CanPasteInCompilationUnit(elements: seq<TypedSource>) returns (b: bool)
    ensures b <==> AllKindsIn(elements, UnitKinds)
  {
    var i := 0;
    while i < |elements|
      invariant 0 <= i <= |elements|
      invariant forall j :: 0 <= j < i ==> elements[j].kind in UnitKinds
    {
      if !CanPasteInCompilationUnitKind(elements[i].kind) {
        return false;
      }
      i := i + 1;
    }
    return true;
  }

  /** canPasteIn: the target's kind selects the check, testing import
      container, then type, then compilation unit. */
  method CanPasteIn(target: ElementType, elements: seq<TypedSource>) returns (b: bool)
    ensures b <==> PasteInLegal(target, elements)
  {
    if target == ImportContainer {
      b := AreAllValuesOfType(elements, ImportDeclaration);
      return;
    }
    if target == Type {
      b := AreAllMembers(elements);
      return;
    }
    if target == CompilationUnit {
      b := CanPasteInCompilationUnit(elements);
      return;
    }
    return false;
  }

  /** canPasteAfter: the type test comes before the member test, so a type
      target only takes the type-only check. */
  method CanPasteAfter(target: ElementType, elements: seq<TypedSource>) returns (b: bool)
    ensures b <==> PasteAfterLegal(target, elements)
  {
    if target == CompilationUnit {
      return false;
    }
    if target == ImportContainer {
      b := CanPasteAtTopLevel(elements);
      return;
    }
    if target == ImportDeclaration {
      b := CanPasteAtTopLevel(elements);
      return;
    }
    if target == PackageDeclaration {
      b := CanPasteAtTopLevel(elements);
      return;
    }
    if target == Type {
      b := AreAllValuesOfType(elements, Type);
      return;
    }
    if IsMember(target) {
      b := AreAllMembers(elements);
      return;
    }
    return false;
  }

  /** canPaste: into the target, or else after it. */
  method CanPaste(target: ElementType, elements: seq<TypedSource>) returns (b: bool)
    ensures b <==> PasteInLegal(target, elements) || PasteAfterLegal(target, elements)
  {
    b := CanPasteIn(target, elements);
    if !b {
      b := CanPasteAfter(target, elements);
    }
  }

  // ---------------------------------------------------------------------
  // The clipboard and the selection
  // ---------------------------------------------------------------------

  /** A fragment copied from a whole class file or compilation unit is not
      pasted by this action. */
  predicate IsInterestingSourceReference(fragment: TypedSource)
    ensures IsMember(fragment.kind) ==> IsInterestingSourceReference(fragment)
    ensures !IsInterestingSourceReference(fragment) ==>
              forall target ::
                && (PasteInTable(target).Some? ==> fragment.kind !in PasteInTable(target).value)
                && (PasteAfterTable(target).Some? ==> fragment.kind !in PasteAfterTable(target).value)
  {
    if fragment.kind == ClassFile then false
    else if fragment.kind == CompilationUnit then false
    else true
  }

  /** The clipboard holds typed fragments, none of them a whole class file or
      compilation unit. */
  predicate InterestingClipboard(clipboard: Option<seq<TypedSource>>)
  {
    clipboard.Some? &&
    forall i :: 0 <= i < |clipboard.value| ==> clipboard.value[i].kind !in {ClassFile, CompilationUnit}
  }

  /** isAnythingInInterestingClipboard: `None` stands for a clipboard without
      typed-source contents. */
  method IsAnythingInInterestingClipboard(clipboard: Option<seq<TypedSource>>) returns (b: bool)
    ensures b <==> InterestingClipboard(clipboard)
  {
    if clipboard.None? {
      return false;
    }
    var elems := clipboard.value;
    var i := 0;
    while i < |elems|
      invariant 0 <= i <= |elems|
      invariant forall j :: 0 <= j < i ==> elems[j].kind !in {ClassFile, CompilationUnit}
    {
      if !IsInterestingSourceReference(elems[i]) {
        return false;
      }
      i := i + 1;
    }
    return true;
  }

  datatype FileFacts = FileFacts(readOnly: bool, accessible: bool)

  /** A selected object: something that is not a Java element, or a Java
      element with the file it lives in and its working-copy counterpart
      (None when the working copy has no such element). */
  datatype SelectedObject =
    | OtherObject
    | Element(element: JavaElement, file: FileFacts, workingCopy: Option<JavaElement>)

  /** The selected object passes every guard of canOperateOn before the
      legality check. */
  predicate Eligible(s: SelectedObject)
    ensures Eligible(s) ==>
              s.Element? && s.element.kind in {CompilationUnit, Type, Field, Method, Initializer,
                                 PackageDeclaration, ImportContainer, ImportDeclaration}
  {
    && s.Element?
    && s.element.kind != ClassFile
    && IsSourceReference(s.element.kind)
    && !s.element.readOnly
    && s.element.present
    && !s.file.readOnly
    && s.file.accessible
    && !(IsMember(s.element.kind) && s.element.binary)
    && s.workingCopy.Some?
    && s.workingCopy.value.present
  }

  /** canOperateOn: the guard chain, then canPaste on the selected element. */
  method CanOperateOn(clipboard: Option<seq<TypedSource>>, selection: seq<SelectedObject>) returns (b: bool)
    ensures b <==> && InterestingClipboard(clipboard)
                   && |selection| == 1
                   && Eligible(selection[0])
                   && (|| PasteInLegal(selection[0].element.kind, clipboard.value)
                       || PasteAfterLegal(selection[0].element.kind, clipboard.value))
  {
    var interesting := IsAnythingInInterestingClipboard(clipboard);
    if !interesting {
      return false;
    }
    if |selection| != 1 {
      return false;
    }
    var selected := selection[0];
    if selected.Element? && selected.element.kind == ClassFile {
      return false;
    }
    if selected.OtherObject? || !IsSourceReference(selected.element.kind) {
      return false;
    }
    if selected.element.readOnly {
      return false;
    }
    if !selected.element.present {
      return false;
    }
    if selected.file.readOnly {
      return false;
    }
    if !selected.file.accessible {
      return false;
    }
    if IsMember(selected.element.kind) && selected.element.binary {
      return false;
    }
    if selected.workingCopy.None? || !selected.workingCopy.value.present {
      return false;
    }
    b := CanPaste(selected.element.kind, clipboard.value);
  }

  // ---------------------------------------------------------------------
  // Properties of the placement rules
  // ---------------------------------------------------------------------

  /** A type accepts fields, methods and initializers when they are pasted
      into it, but not when they are pasted after it. */
  lemma TypeTargetRejectsMembersAfter(elements: seq<TypedSource>, i: nat)
    requires i < |elements| && elements[i].kind in {Field, Method, Initializer}
    ensures !PasteAfterLegal(Type, elements)
    ensures AllKindsIn(elements, MemberKinds) ==> PasteInLegal(Type, elements)
  {
  }

  /** Pasting after a compilation unit is never legal. */
  lemma NothingAfterCompilationUnit(elements: seq<TypedSource>)
    ensures !PasteAfterLegal(CompilationUnit, elements)
  {
  }

  /** An empty clipboard is accepted by every check that applies to the
      target, and by no other. */
  lemma EmptyClipboardLegality(target: ElementType)
    ensures PasteInLegal(target, []) <==> target in {ImportContainer, Type, CompilationUnit}
    ensures PasteAfterLegal(target, []) <==>
              target in {ImportContainer, ImportDeclaration, PackageDeclaration} || IsMember(target)
  {
  }

  /** Dropping fragments (keeping any of them, in any order) never turns a
      legal clipboard illegal. */
  lemma DroppingFragmentsKeepsLegality(target: ElementType, elements: seq<TypedSource>, kept: seq<TypedSource>)
    requires forall f :: f in kept ==> f in elements
    ensures PasteInLegal(target, elements) ==> PasteInLegal(target, kept)
    ensures PasteAfterLegal(target, elements) ==> PasteAfterLegal(target, kept)
  {
    forall j | 0 <= j < |kept|
      ensures exists i :: 0 <= i < |elements| && elements[i] == kept[j]
    {
      assert kept[j] in elements;
    }
  }

  /** One fragment a mode's table does not admit rejects the whole
      clipboard in that mode. */
  lemma OneBadFragmentRejects(target: ElementType, elements: seq<TypedSource>, i: nat)
    requires i < |elements|
    ensures (PasteInTable(target).Some? ==> elements[i].kind !in PasteInTable(target).value)
            ==> !PasteInLegal(target, elements)
    ensures (PasteAfterTable(target).Some? ==> elements[i].kind !in PasteAfterTable(target).value)
            ==> !PasteAfterLegal(target, elements)
  {
  }

  /** All fragments of a concatenation fit a kind set exactly when all
      fragments of both parts do. */
  lemma AllKindsInConcatenation(a: seq<TypedSource>, b: seq<TypedSource>, kinds: set<ElementType>)
    ensures AllKindsIn(a + b, kinds) <==> AllKindsIn(a, kinds) && AllKindsIn(b, kinds)
  {
    if AllKindsIn(a + b, kinds) {
      forall k | 0 <= k < |a| ensures a[k].kind in kinds {
        assert (a + b)[k] == a[k];
      }
      forall k | 0 <= k < |b| ensures b[k].kind in kinds {
        assert (a + b)[|a| + k] == b[k];
      }
    }
    if AllKindsIn(a, kinds) && AllKindsIn(b, kinds) {
      forall k | 0 <= k < |a + b| ensures (a + b)[k].kind in kinds {
        if k < |a| {
          assert (a + b)[k] == a[k];
        } else {
          assert (a + b)[k] == b[k - |a|];
        }
      }
    }
  }

  /** Legality of a mixed clipboard is the conjunction of the legality of
      its parts. */
  lemma LegalityOfConcatenation(target: ElementType, a: seq<TypedSource>, b: seq<TypedSource>)
    ensures PasteInLegal(target, a + b) <==> PasteInLegal(target, a) && PasteInLegal(target, b)
    ensures PasteAfterLegal(target, a + b) <==> PasteAfterLegal(target, a) && PasteAfterLegal(target, b)
  {
    if PasteInTable(target).Some? {
      AllKindsInConcatenation(a, b, PasteInTable(target).value);
    }
    if PasteAfterTable(target).Some? {
      AllKindsInConcatenation(a, b, PasteAfterTable(target).value);
    }
  }

  // ---------------------------------------------------------------------
  // Which edit style perform uses
  // ---------------------------------------------------------------------

  /** MemberEdit's placement styles. */
  datatype Style = AddAtBeginning | InsertAfter

  /** How the fragments are inserted: merged into a compilation unit, or one
      member edit per fragment in a given style. */
  datatype PasteMode = MergeIntoUnit | MemberEdits(style: Style)

  /** The mode perform chooses for a target, or None when neither check
      passes. Paste-in takes priority over paste-after: a mode is found
      exactly when canPaste holds, merging happens only into compilation
      units, and insertion after only when pasting in is illegal. */
  function Dispatch(target: ElementType, elements: seq<TypedSource>): (r: Option<PasteMode>)
    ensures r.Some? <==> PasteInLegal(target, elements) || PasteAfterLegal(target, elements)
    ensures r == Some(MergeIntoUnit) <==> target == CompilationUnit && AllKindsIn(elements, UnitKinds)
    ensures r == Some(MemberEdits(InsertAfter)) ==> !PasteInLegal(target, elements) && target != CompilationUnit
    ensures r == Some(MemberEdits(AddAtBeginning)) <==> target in {ImportContainer, Type} && PasteInLegal(target, elements)
  {
    if PasteInLegal(target, elements) then
      Some(if target == CompilationUnit then MergeIntoUnit else MemberEdits(AddAtBeginning))
    else if PasteAfterLegal(target, elements) then
      Some(MemberEdits(InsertAfter))
    else
      None
  }
}
