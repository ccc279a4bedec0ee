# Paste placement and syntax-colouring list model (Eclipse JDT UI)

This project models two pieces of the Eclipse Java tooling UI in Dafny and proves properties of them.

**Pasting source references from the clipboard** (`java_elements.dfy`, `paste_rules.dfy`, `paste_action.dfy`).
The clipboard holds typed source fragments. Each fragment is a source string tagged with the kind of Java element it came from.
The action decides whether the fragments may be pasted *into* the selected element or *after* it.
The decision reads only the kinds of the fragments and the target, never the text.
It then builds one edit per fragment. It uses a compilation-unit merge edit, or a member edit in the `ADD_AT_BEGINNING` or `INSERT_AFTER` style.
It performs and commits the edits only when the editor says they can be performed, and it always releases the text buffer.
- The legality checks are `while` loops with early returns, as in the source.
  Each is proved against a placement table: for each target kind, the fragment kinds it admits.
  The table is written as a `match` and is independent of the source's `if` chains.
- The `IType`-before-`IMember` order in `canPasteAfter` is modelled as written.
  As a result, a type accepts only types after it, although it accepts every member kind inside it.
- `canOperateOn` is a guard chain over a record of facts about the selection, followed by `canPaste`.
- `paste`, `pasteInCompilationUnit` and `perform` are methods over small `TextBuffer` and `TextBufferEditor` classes.
  The buffer's text is abstracted as the sequence of edits applied to it.

**The Java editor colouring preference block** (`coloring_model.dfy`, `coloring_block.dfy`).
The block builds its highlighting list from 13 fixed syntax entries followed by the semantic highlightings.
A syntax entry's style keys are its colour key plus a suffix.
A tree content provider files the list's index ranges under three categories: Javadoc [0,4), Comments [4,7) and Java [7,size).
The block registers five overlay keys per item, plus an enable key for each semantic item.
It enables or disables the style controls for the selected item, and it installs and uninstalls a semantic highlighting manager.
- The index-range functions are pure functions over the list value.
- The block itself is a class whose methods update the list, the controls and the manager fields.

Two rules of the code are easy to misread:
- Pasting after a type accepts only `TYPE` fragments, not every member kind.
- A package declaration is a legal paste-after target, with the same rule as an import.

## Model

| member | source | states |
|---|---|---|
| `JavaElements.IsMember` | org.eclipse.jdt.ui/ui/org/eclipse/jdt/internal/ui/reorg/PasteSourceReferencesFromClipboardAction.java:313-323 | every member kind (field, initializer, method, type) is a source reference other than a class file or compilation unit |
| `PasteRules.IsInterestingSourceReference` | org.eclipse.jdt.ui/ui/org/eclipse/jdt/internal/ui/reorg/PasteSourceReferencesFromClipboardAction.java:105-111 | every member fragment is interesting; an uninteresting fragment (class file or compilation unit) is admitted by no target in either mode |
| `PasteRules.Eligible` | org.eclipse.jdt.ui/ui/org/eclipse/jdt/internal/ui/reorg/PasteSourceReferencesFromClipboardAction.java:50-81 | a selection passing the guards is a Java element whose kind is one of the eight editable source kinds (never a class file) |
| `PasteRules.AreAllValuesOfType` | org.eclipse.jdt.ui/ui/org/eclipse/jdt/internal/ui/reorg/PasteSourceReferencesFromClipboardAction.java:297-303 | true exactly when every fragment has the given kind (empty array: true) |
| `PasteRules.AreAllMembers` | org.eclipse.jdt.ui/ui/org/eclipse/jdt/internal/ui/reorg/PasteSourceReferencesFromClipboardAction.java:305-323 | true exactly when every fragment is a field, initializer, method or type |
| `PasteRules.CanPasteAfterImportContainerOrDeclaration` | org.eclipse.jdt.ui/ui/org/eclipse/jdt/internal/ui/reorg/PasteSourceReferencesFromClipboardAction.java:242-250 | a kind may follow a top-level declaration exactly when it is an import container, import declaration or type |
| `PasteRules.CanPasteAtTopLevel` | org.eclipse.jdt.ui/ui/org/eclipse/jdt/internal/ui/reorg/PasteSourceReferencesFromClipboardAction.java:230-236 | true exactly when every fragment is an import container, import declaration or type |
| `PasteRules.CanPasteInCompilationUnitKind` | org.eclipse.jdt.ui/ui/org/eclipse/jdt/internal/ui/reorg/PasteSourceReferencesFromClipboardAction.java:283-293 | a kind may go into a unit exactly when it is an import container, import declaration, package declaration or type |
| `PasteRules.CanPasteInCompilationUnit` | org.eclipse.jdt.ui/ui/org/eclipse/jdt/internal/ui/reorg/PasteSourceReferencesFromClipboardAction.java:275-281 | true exactly when every fragment may go into a compilation unit |
| `PasteRules.CanPasteIn` | org.eclipse.jdt.ui/ui/org/eclipse/jdt/internal/ui/reorg/PasteSourceReferencesFromClipboardAction.java:256-273 | equals the paste-in table: an import container takes only imports, a type only members, a unit only imports/containers/package declarations/types; any other target nothing |
| `PasteRules.CanPasteAfter` | org.eclipse.jdt.ui/ui/org/eclipse/jdt/internal/ui/reorg/PasteSourceReferencesFromClipboardAction.java:207-228 | equals the paste-after table: never after a unit; imports, import containers and package declarations take top-level kinds; a type only types; other members any member kind; anything else nothing |
| `PasteRules.CanPaste` | org.eclipse.jdt.ui/ui/org/eclipse/jdt/internal/ui/reorg/PasteSourceReferencesFromClipboardAction.java:118-120 | true exactly when paste-in or paste-after is legal |
| `PasteRules.IsAnythingInInterestingClipboard` | org.eclipse.jdt.ui/ui/org/eclipse/jdt/internal/ui/reorg/PasteSourceReferencesFromClipboardAction.java:94-111 | true exactly when the clipboard has typed contents and no fragment is a class file or compilation unit |
| `PasteRules.CanOperateOn` | org.eclipse.jdt.ui/ui/org/eclipse/jdt/internal/ui/reorg/PasteSourceReferencesFromClipboardAction.java:45-88 | false for an uninteresting clipboard, a selection size other than 1, a class file, a non-source element, read-only or missing element, read-only or inaccessible file, binary member, or missing working-copy element; otherwise paste-in or paste-after legality of the selected element |
| `PasteRules.TypeTargetRejectsMembersAfter` | org.eclipse.jdt.ui/ui/org/eclipse/jdt/internal/ui/reorg/PasteSourceReferencesFromClipboardAction.java:217-228 | a field, method or initializer fragment makes paste-after on a type illegal, while an all-member clipboard may still be pasted into the type |
| `PasteRules.NothingAfterCompilationUnit` | org.eclipse.jdt.ui/ui/org/eclipse/jdt/internal/ui/reorg/PasteSourceReferencesFromClipboardAction.java:207-209 | paste-after on a compilation unit is illegal for every clipboard |
| `PasteRules.EmptyClipboardLegality` | org.eclipse.jdt.ui/ui/org/eclipse/jdt/internal/ui/reorg/PasteSourceReferencesFromClipboardAction.java:207-265 | an empty clipboard is legal in exactly the modes that apply to the target |
| `PasteRules.DroppingFragmentsKeepsLegality` | org.eclipse.jdt.ui/ui/org/eclipse/jdt/internal/ui/reorg/PasteSourceReferencesFromClipboardAction.java:297-311 | any clipboard made of fragments of a legal clipboard is legal in the same mode |
| `PasteRules.OneBadFragmentRejects` | org.eclipse.jdt.ui/ui/org/eclipse/jdt/internal/ui/reorg/PasteSourceReferencesFromClipboardAction.java:297-311 | one fragment a mode's table does not admit makes the clipboard illegal in that mode |
| `PasteRules.LegalityOfConcatenation` | org.eclipse.jdt.ui/ui/org/eclipse/jdt/internal/ui/reorg/PasteSourceReferencesFromClipboardAction.java:230-236 | a concatenated clipboard is legal in a mode exactly when both parts are |
| `PasteRules.Dispatch` | org.eclipse.jdt.ui/ui/org/eclipse/jdt/internal/ui/reorg/PasteSourceReferencesFromClipboardAction.java:149-157 | a mode is chosen exactly when canPaste holds; the merge exactly for a legal paste into a unit; `ADD_AT_BEGINNING` exactly for a legal paste into an import container or type; `INSERT_AFTER` only when paste-in is illegal and the target is not a unit |
| `PasteAction.EditsFor` | org.eclipse.jdt.ui/ui/org/eclipse/jdt/internal/ui/reorg/PasteSourceReferencesFromClipboardAction.java:174-177 | one edit per fragment, the i-th edit built from the i-th fragment |
| `PasteAction.MemberEditsShareTargetAndStyle` | org.eclipse.jdt.ui/ui/org/eclipse/jdt/internal/ui/reorg/PasteSourceReferencesFromClipboardAction.java:172-177 | every member edit has the same target and style and carries its fragment's source |
| `PasteAction.MergeEditsKeepFragments` | org.eclipse.jdt.ui/ui/org/eclipse/jdt/internal/ui/reorg/PasteSourceReferencesFromClipboardAction.java:194-196 | every merge edit targets the unit and keeps its fragment's source and kind |
| `PasteAction.AddEdits` | org.eclipse.jdt.ui/ui/org/eclipse/jdt/internal/ui/reorg/PasteSourceReferencesFromClipboardAction.java:174-177 | the editor ends up holding exactly the clipboard's edits, in clipboard order |
| `PasteAction.ApplyEdits` | org.eclipse.jdt.ui/ui/org/eclipse/jdt/internal/ui/reorg/PasteSourceReferencesFromClipboardAction.java:188-205 | commits exactly when the edits can be performed; then the buffer gains the edits and is saved; otherwise it is unchanged; acquisitions are back to their old count |
| `PasteAction.Paste` | org.eclipse.jdt.ui/ui/org/eclipse/jdt/internal/ui/reorg/PasteSourceReferencesFromClipboardAction.java:166-186 | as ApplyEdits, with one member edit per fragment in the given style |
| `PasteAction.PasteInCompilationUnit` | org.eclipse.jdt.ui/ui/org/eclipse/jdt/internal/ui/reorg/PasteSourceReferencesFromClipboardAction.java:188-205 | as ApplyEdits, with one merge edit per fragment |
| `PasteAction.Perform` | org.eclipse.jdt.ui/ui/org/eclipse/jdt/internal/ui/reorg/PasteSourceReferencesFromClipboardAction.java:144-158 | no-op without a working-copy element; assertion failure for an uninteresting clipboard or when neither mode is legal; otherwise the dispatched mode's paste, with the buffer released and changed only when committed |
| `PasteAction.PerformAfterCanOperateOnPastes` | org.eclipse.jdt.ui/ui/org/eclipse/jdt/internal/ui/reorg/PasteSourceReferencesFromClipboardAction.java:129-158 | when the guards passed and canPaste held for the same kind, perform's assertion cannot fail |
| `ColoringModel.ListModel` | org.eclipse.jdt.ui/ui/org/eclipse/jdt/internal/ui/preferences/JavaEditorColoringConfigurationBlock.java:365-379 | the list has 13 syntax items carrying the table's names and colour keys in table order, then one semantic item per semantic highlighting, in order, with its colour and enable keys |
| `ColoringModel.SyntaxStyleKeysDerived` | org.eclipse.jdt.ui/ui/org/eclipse/jdt/internal/ui/preferences/JavaEditorColoringConfigurationBlock.java:366 | a syntax item's bold, italic, strikethrough and underline keys are its colour key plus the matching suffix |
| `ColoringModel.GetElements` | org.eclipse.jdt.ui/ui/org/eclipse/jdt/internal/ui/preferences/JavaEditorColoringConfigurationBlock.java:225-227 | three distinct top elements, all of them category strings |
| `ColoringModel.GetChildren` | org.eclipse.jdt.ui/ui/org/eclipse/jdt/internal/ui/preferences/JavaEditorColoringConfigurationBlock.java:241-252 | children are drawn from the list and never outnumber it; an element that is not a category has none |
| `ColoringModel.GetParent` | org.eclipse.jdt.ui/ui/org/eclipse/jdt/internal/ui/preferences/JavaEditorColoringConfigurationBlock.java:254-263 | a string has no parent; an item always has one, and it is a top element |
| `ColoringModel.HasChildren` | org.eclipse.jdt.ui/ui/org/eclipse/jdt/internal/ui/preferences/JavaEditorColoringConfigurationBlock.java:265-267 | every top element has children and no item does |
| `ColoringModel.CategoriesPartitionList` | org.eclipse.jdt.ui/ui/org/eclipse/jdt/internal/ui/preferences/JavaEditorColoringConfigurationBlock.java:241-252 | the Javadoc, Comments and Java children, concatenated, are the whole list |
| `ColoringModel.ElementsAreTheCategories` | org.eclipse.jdt.ui/ui/org/eclipse/jdt/internal/ui/preferences/JavaEditorColoringConfigurationBlock.java:225-267 | the top elements are exactly the three categories; every string has children per hasChildren, but only the categories get any; items get none |
| `ColoringModel.IndexOf` | org.eclipse.jdt.ui/ui/org/eclipse/jdt/internal/ui/preferences/JavaEditorColoringConfigurationBlock.java:257 | -1 exactly for an absent item, otherwise the first index holding it |
| `ColoringModel.ItemIsChildOfItsParent` | org.eclipse.jdt.ui/ui/org/eclipse/jdt/internal/ui/preferences/JavaEditorColoringConfigurationBlock.java:254-263 | every item of the list has a category as parent and is among that category's children |
| `ColoringModel.ChildHasThatParent` | org.eclipse.jdt.ui/ui/org/eclipse/jdt/internal/ui/preferences/JavaEditorColoringConfigurationBlock.java:241-263 | in a list of distinct items, each child of a category has that category as parent |
| `ColoringModel.AbsentItemFallsUnderJavadoc` | org.eclipse.jdt.ui/ui/org/eclipse/jdt/internal/ui/preferences/JavaEditorColoringConfigurationBlock.java:257-259 | an item not in the list gets the Javadoc category as parent, which does not list it |
| `ColoringModel.ItemOverlayKeys` | org.eclipse.jdt.ui/ui/org/eclipse/jdt/internal/ui/preferences/JavaEditorColoringConfigurationBlock.java:389-397 | an item contributes five keys, six for a semantic item: its STRING colour key first, then BOOLEAN keys only |
| `ColoringModel.OverlayKeys` | org.eclipse.jdt.ui/ui/org/eclipse/jdt/internal/ui/preferences/JavaEditorColoringConfigurationBlock.java:388-398 | at least one key per item, the first being the first item's STRING colour key |
| `ColoringModel.OverlayKeyCount` | org.eclipse.jdt.ui/ui/org/eclipse/jdt/internal/ui/preferences/JavaEditorColoringConfigurationBlock.java:388-398 | the overlay keys number five per item plus one per semantic item |
| `ColoringModel.StringKeysAreColorKeys` | org.eclipse.jdt.ui/ui/org/eclipse/jdt/internal/ui/preferences/JavaEditorColoringConfigurationBlock.java:388-398 | the STRING keys are exactly the items' colour keys in list order |
| `ColoringModel.SelectedItem` | org.eclipse.jdt.ui/ui/org/eclipse/jdt/internal/ui/preferences/JavaEditorColoringConfigurationBlock.java:848-854 | an item is returned exactly when an item (not a category or nothing) is selected |
| `ColoringBlock.JavaEditorColoringConfigurationBlock.constructor` | org.eclipse.jdt.ui/ui/org/eclipse/jdt/internal/ui/preferences/JavaEditorColoringConfigurationBlock.java:360-382 | the list is the syntax items then the semantic items, and the store gains exactly the list's overlay keys |
| `ColoringBlock.JavaEditorColoringConfigurationBlock.CreateOverlayStoreKeys` | org.eclipse.jdt.ui/ui/org/eclipse/jdt/internal/ui/preferences/JavaEditorColoringConfigurationBlock.java:384-403 | the keys are, item by item in list order, STRING colour then BOOLEAN bold, italic, strikethrough, underline, and BOOLEAN enable for semantic items |
| `ColoringBlock.JavaEditorColoringConfigurationBlock.HandleSyntaxColorListSelection` | org.eclipse.jdt.ui/ui/org/eclipse/jdt/internal/ui/preferences/JavaEditorColoringConfigurationBlock.java:488-523 | no item: all six controls disabled, values kept; semantic item: enable box enabled and ticked per its preference, style controls enabled per that preference; syntax item: style controls enabled, enable box disabled and ticked; controls show the item's stored values |
| `ColoringBlock.JavaEditorColoringConfigurationBlock.Initialize` | org.eclipse.jdt.ui/ui/org/eclipse/jdt/internal/ui/preferences/JavaEditorColoringConfigurationBlock.java:460-465 | the Java category is selected; as no item is, every style control and the enable check box are disabled and keep their values |
| `ColoringBlock.JavaEditorColoringConfigurationBlock.SelectionChanged` | org.eclipse.jdt.ui/ui/org/eclipse/jdt/internal/ui/preferences/JavaEditorColoringConfigurationBlock.java:629-633 | after a selection change the controls match the new selection: with no item selected they keep their values, otherwise they show the item's stored colour and style flags, and the enable box is ticked per the enable preference for a semantic item and always for a syntax item |
| `ColoringBlock.JavaEditorColoringConfigurationBlock.InstallSemanticHighlighting` | org.eclipse.jdt.ui/ui/org/eclipse/jdt/internal/ui/preferences/JavaEditorColoringConfigurationBlock.java:771-776 | creates a manager only when none is installed, so a second install changes nothing; no manager is leaked |
| `ColoringBlock.JavaEditorColoringConfigurationBlock.UninstallSemanticHighlighting` | org.eclipse.jdt.ui/ui/org/eclipse/jdt/internal/ui/preferences/JavaEditorColoringConfigurationBlock.java:784-789 | uninstalls the installed manager, if any, and leaves none installed; without one it does nothing |

## Left out

- `run`, `BusyIndicator`, clipboard and display access, and `ExceptionHandler` are UI plumbing. The clipboard is an input: `None` for no typed contents, otherwise the fragment sequence.
- The clipboard is read once per operation. The source re-reads it in each helper, and a concurrent change between reads is not modelled.
- CanOperateOn: does not model the `JavaModelException` catch that returns false. The model queries (`isReadOnly`, `exists`, `isBinary`, working-copy lookup) are given as facts that cannot fail.
- The working-copy lookup (`getWorkingCopyElement`), `SourceReferenceUtil.getFile` and the formatter's tab width are external; they are inputs.
- The internals of `TextBuffer`, `TextBufferEditor`, `MemberEdit` and `PasteInCompilationUnitEdit` are not modelled. The buffer is reduced to its acquisition count, the applied edits and the committed edits. `canPerformEdits` is the predicate `performable` over the collected edits. `TextBuffer.acquire(file)` is `Acquire` on that file's buffer.
- Paste, PasteInCompilationUnit, Perform: do not model a `CoreException` thrown by `performEdits` or `commitChanges`. The release in `finally` is modelled on both normal exits.
- `canOperateOn` tests `canPaste` on the selected element, while `perform` tests the working-copy element. The model keeps both as written. `PerformAfterCanOperateOnPastes` assumes the two have the same kind.
- IJavaElement's numeric kind codes are not modelled. The code only compares kinds for equality.
- The colouring block's widgets, layout, preview viewer, listeners other than the list selection listener, font metrics and dialog units are not part of this model. Neither are `loadPreviewContentFromFile`, `createTemporaryCorePreferenceStore`, `createHighlightedRange`/`createPreviewerRanges` and the label provider.
- `performDefaults`, `dispose` and `initialize`'s call to the superclass go through `AbstractConfigurationBlock`, which is not part of this model.
- The message and preference-constant strings (category names, display names, colour keys, style suffixes) are defined outside the shown files. Stand-in strings are used; the proofs do not depend on their values.
- The manager's `install` arguments (viewer, colour manager, store, ranges) are not modelled. A manager is identified by its creation number.
- A key with no stored value reads as `false` (boolean) or black (colour), the defaults of the preference API. Before the first selection the check boxes are enabled and unticked, as new SWT check boxes are.
- `List.indexOf` compares items by identity in the source. The model compares item values, so `ChildHasThatParent` requires the items to be distinct.
