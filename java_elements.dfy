/** The Java model's element kinds and the typed source fragments the paste
    action reads from the clipboard. */
module JavaElements {

  /** The element-type constants of the Java model (IJavaElement). The paste
      action only ever compares them for equality, so their numeric codes
      play no part here. */
  datatype ElementType =
    | JavaModel
    | JavaProject
    | PackageFragmentRoot
    | PackageFragment
    | CompilationUnit
    | ClassFile
    | Type
    | Field
    | Method
    | Initializer
    | PackageDeclaration
    | ImportContainer
    | ImportDeclaration

  /** The member kinds. A fragment kind satisfies isMember exactly when it is
      one of these, and a selected element is an IMember exactly when its kind
      is one of these (IType, IField, IMethod and IInitializer all extend
      IMember). */
  predicate IsMember(kind: ElementType)
    ensures IsMember(kind) ==> IsSourceReference(kind) && kind != CompilationUnit && kind != ClassFile
  {
    kind == Field || kind == Initializer || kind == Method || kind == Type
  }

  /** The kinds whose elements implement ISourceReference. */
  predicate IsSourceReference(kind: ElementType)
  {
    kind in {CompilationUnit, ClassFile, Type, Field, Method, Initializer,
             PackageDeclaration, ImportContainer, ImportDeclaration}
  }

  /** A fragment on the clipboard: its source text and the kind of the
      element it was copied from. */
  datatype TypedSource = TypedSource(source: string, kind: ElementType)

  /** A handle on a Java element, with the facts the paste action queries;
      `present` is exists(). */
  datatype JavaElement = JavaElement(
    kind: ElementType,
    readOnly: bool,
    present: bool,
    binary: bool)
}
