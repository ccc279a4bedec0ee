/** The list model behind the Java editor's syntax-coloring preferences: the
    highlighting items, the three categories the tree shows them under, and
    the overlay preference keys the items contribute. */
module ColoringModel {
  import opened Options

  // ---------------------------------------------------------------------
  // Items and the list model
  // ---------------------------------------------------------------------

  /** Preference-key suffixes. The real strings are PreferenceConstants'
      EDITOR_*_SUFFIX constants, which are not part of this model; these
      stand-ins only need to be fixed strings. */
  const BoldSuffix: string := "_bold"
  const ItalicSuffix: string := "_italic"
  const StrikethroughSuffix: string := "_strikethrough"
  const UnderlineSuffix: string := "_underline"

  /** One row of the fixed syntax table: display name and colour key. */
  datatype SyntaxEntry = SyntaxEntry(displayName: string, colorKey: string)

  /** The 13 syntax entries in table order: four Javadoc entries, three
      comment entries, six Java entries. The strings are the names of the
      message and preference constants, standing in for their values. */
  const SyntaxColorListModel: seq<SyntaxEntry> := [
    SyntaxEntry("JavaEditorPreferencePage_javaDocKeywords", "EDITOR_JAVADOC_KEYWORD_COLOR"),
    SyntaxEntry("JavaEditorPreferencePage_javaDocHtmlTags", "EDITOR_JAVADOC_TAG_COLOR"),
    SyntaxEntry("JavaEditorPreferencePage_javaDocLinks", "EDITOR_JAVADOC_LINKS_COLOR"),
    SyntaxEntry("JavaEditorPreferencePage_javaDocOthers", "EDITOR_JAVADOC_DEFAULT_COLOR"),
    SyntaxEntry("JavaEditorPreferencePage_multiLineComment", "EDITOR_MULTI_LINE_COMMENT_COLOR"),
    SyntaxEntry("JavaEditorPreferencePage_singleLineComment", "EDITOR_SINGLE_LINE_COMMENT_COLOR"),
    SyntaxEntry("JavaEditorPreferencePage_javaCommentTaskTags", "EDITOR_TASK_TAG_COLOR"),
    SyntaxEntry("JavaEditorPreferencePage_keywords", "EDITOR_JAVA_KEYWORD_COLOR"),
    SyntaxEntry("JavaEditorPreferencePage_returnKeyword", "EDITOR_JAVA_KEYWORD_RETURN_COLOR"),
    SyntaxEntry("JavaEditorPreferencePage_operators", "EDITOR_JAVA_OPERATOR_COLOR"),
    SyntaxEntry("JavaEditorPreferencePage_annotations", "EDITOR_JAVA_ANNOTATION_COLOR"),
    SyntaxEntry("JavaEditorPreferencePage_strings", "EDITOR_STRING_COLOR"),
    SyntaxEntry("JavaEditorPreferencePage_others", "EDITOR_JAVA_DEFAULT_COLOR")
  ]

  /** An item of the highlighting colour list: a syntax item, or a semantic
      item that also has an enable key. */
  datatype HighlightingItem =
    | SyntaxItem(displayName: string, colorKey: string, boldKey: string, italicKey: string,
                 strikethroughKey: string, underlineKey: string)
    | SemanticItem(displayName: string, colorKey: string, boldKey: string, italicKey: string,
                   strikethroughKey: string, underlineKey: string, enableKey: string)

  /** A semantic highlighting with the preference keys SemanticHighlightings
      assigns to it. */
  datatype SemanticHighlighting = SemanticHighlighting(
    displayName: string, colorKey: string, boldKey: string, italicKey: string,
    strikethroughKey: string, underlineKey: string, enabledKey: string)

  /** A syntax entry's item: the style keys are the colour key with a suffix. */
  function SyntaxItemFor(entry: SyntaxEntry): HighlightingItem
  {
    SyntaxItem(entry.displayName, entry.colorKey,
               entry.colorKey + BoldSuffix, entry.colorKey + ItalicSuffix,
               entry.colorKey + StrikethroughSuffix, entry.colorKey + UnderlineSuffix)
  }

  function SemanticItemFor(h: SemanticHighlighting): HighlightingItem
  {
    SemanticItem(h.displayName, h.colorKey, h.boldKey, h.italicKey,
                 h.strikethroughKey, h.underlineKey, h.enabledKey)
  }

  /** The list model the block builds: 13 syntax items, carrying the
      table's names and colour keys in table order, followed by one semantic
      item per semantic highlighting, in order. */
  function ListModel(semantics: seq<SemanticHighlighting>): (r: seq<HighlightingItem>)
    ensures |r| == 13 + |semantics|
    ensures forall i :: 0 <= i < |r| ==> (r[i].SyntaxItem? <==> i < 13)
    ensures forall i :: 0 <= i < 13 ==>
              r[i].displayName == SyntaxColorListModel[i].displayName &&
              r[i].colorKey == SyntaxColorListModel[i].colorKey
    ensures forall i :: 0 <= i < |semantics| ==>
              r[13 + i].enableKey == semantics[i].enabledKey &&
              r[13 + i].colorKey == semantics[i].colorKey
  {
    seq(|SyntaxColorListModel|, i requires 0 <= i < |SyntaxColorListModel| => SyntaxItemFor(SyntaxColorListModel[i]))
    + seq(|semantics|, i requires 0 <= i < |semantics| => SemanticItemFor(semantics[i]))
  }

  /** A list holding the syntax items, then the semantic items, is the list
      model. */
  lemma ListModelFromParts(semantics: seq<SemanticHighlighting>, items: seq<HighlightingItem>)
    requires |items| == |SyntaxColorListModel| + |semantics|
    requires forall j :: 0 <= j < |SyntaxColorListModel| ==> items[j] == SyntaxItemFor(SyntaxColorListModel[j])
    requires forall j :: 0 <= j < |semantics| ==> items[|SyntaxColorListModel| + j] == SemanticItemFor(semantics[j])
    ensures items == ListModel(semantics)
  {
    var expected := ListModel(semantics);
    forall j | 0 <= j < |items|
      ensures items[j] == expected[j]
    {
      if j >= |SyntaxColorListModel| {
        assert items[|SyntaxColorListModel| + (j - |SyntaxColorListModel|)] == SemanticItemFor(semantics[j - |SyntaxColorListModel|]);
      }
    }
  }

  /** Each syntax item's bold, italic, strikethrough and underline keys are
      its colour key with the matching suffix appended. */
  lemma SyntaxStyleKeysDerived(semantics: seq<SemanticHighlighting>, i: nat)
    requires i < 13
    ensures var item := ListModel(semantics)[i];
            && item.boldKey == item.colorKey + BoldSuffix
            && item.italicKey == item.colorKey + ItalicSuffix
            && item.strikethroughKey == item.colorKey + StrikethroughSuffix
            && item.underlineKey == item.colorKey + UnderlineSuffix
  {
  }

  // ---------------------------------------------------------------------
  // The tree shown over the list: categories and items
  // ---------------------------------------------------------------------

  /** Category labels. The real strings are messages that are not part of
      this model; these stand-ins are distinct. */
  const JavaCategory: string := "Java"
  const JavadocCategory: string := "Javadoc"
  const CommentsCategory: string := "Comments"

  /** An element of the tree: a string (a category label) or an item. */
  datatype TreeElement = Label(text: string) | Entry(item: HighlightingItem)

  /** getElements: the three categories, Java first. */
  function GetElements(): (r: seq<TreeElement>)
    ensures |r| == 3
    ensures forall k :: 0 <= k < |r| ==> r[k].Label?
    ensures forall j, k :: 0 <= j < k < |r| ==> r[j] != r[k]
  {
    [Label(JavaCategory), Label(JavadocCategory), Label(CommentsCategory)]
  }

  /** getChildren: each category owns a fixed index range of the list; any
      other element has no children. `|list| >= 7` is what subList needs,
      and the list always holds the 13 syntax items. */
  function GetChildren(list: seq<HighlightingItem>, parent: TreeElement): (r: seq<HighlightingItem>)
    requires |list| >= 7
    ensures |r| <= |list|
    ensures forall k :: 0 <= k < |r| ==> r[k] in list
    ensures parent !in GetElements() ==> r == []
  {
    match parent
    case Label(entry) =>
      if entry == JavaCategory then list[7..]
      else if entry == JavadocCategory then list[..4]
      else if entry == CommentsCategory then list[4..7]
      else []
    case Entry(_) => []
  }

  /** List.indexOf: the first index holding the item, or -1. */
  function IndexOf(list: seq<HighlightingItem>, item: HighlightingItem): (r: int)
    ensures -1 <= r < |list|
    ensures r == -1 <==> item !in list
    ensures 0 <= r ==> list[r] == item && item !in list[..r]
  {
    if list == [] then -1
    else if list[0] == item then 0
    else
      var k := IndexOf(list[1..], item);
      if k == -1 then -1
      else
        assert list[..k + 1] == [list[0]] + list[1..][..k];
        k + 1
  }

  /** getParent: a label has no parent; an item's parent is chosen by its
      index, and an item that is not in the list (index -1) falls under
      Javadoc. */
  function GetParent(list: seq<HighlightingItem>, element: TreeElement): (r: Option<TreeElement>)
    ensures r.None? <==> element.Label?
    ensures r.Some? ==> r.value in GetElements()
  {
    match element
    case Label(_) => None
    case Entry(item) =>
      var index := IndexOf(list, item);
      if index < 4 then Some(Label(JavadocCategory))
      else if index >= 7 then Some(Label(JavaCategory))
      else Some(Label(CommentsCategory))
  }

  /** hasChildren: exactly the strings, so every category has children and
      no item does. */
  predicate HasChildren(element: TreeElement)
    ensures element in GetElements() ==> HasChildren(element)
    ensures element.Entry? ==> !HasChildren(element)
  {
    element.Label?
  }

  /** The categories' children, Javadoc then Comments then Java, are the
      whole list in order. */
  lemma CategoriesPartitionList(list: seq<HighlightingItem>)
    requires |list| >= 7
    ensures GetChildren(list, Label(JavadocCategory)) + GetChildren(list, Label(CommentsCategory))
            + GetChildren(list, Label(JavaCategory)) == list
  {
    assert list[..4] + list[4..7] + list[7..] == list;
  }

  /** getElements gives exactly the three categories, each of which has
      children; an item has none, and neither does a string that is not a
      category. */
  lemma ElementsAreTheCategories(list: seq<HighlightingItem>, e: TreeElement)
    requires |list| >= 7
    ensures e in GetElements() <==> e.Label? && e.text in {JavaCategory, JavadocCategory, CommentsCategory}
    ensures e in GetElements() ==> HasChildren(e)
    ensures !HasChildren(e) ==> GetChildren(list, e) == []
    ensures e.Label? && e.text !in {JavaCategory, JavadocCategory, CommentsCategory} ==>
              HasChildren(e) && GetChildren(list, e) == []
  {
  }

  /** Every item of the list is a child of its parent, which is one of the
      categories. */
  lemma ItemIsChildOfItsParent(list: seq<HighlightingItem>, item: HighlightingItem)
    requires |list| >= 7 && item in list
    ensures GetParent(list, Entry(item)).Some?
    ensures GetParent(list, Entry(item)).value in GetElements()
    ensures item in GetChildren(list, GetParent(list, Entry(item)).value)
  {
    var k := IndexOf(list, item);
    if k < 4 {
      assert list[..4][k] == item;
    } else if k >= 7 {
      assert list[7..][k - 7] == item;
    } else {
      assert list[4..7][k - 4] == item;
    }
  }

  /** No two positions of the list hold the same item (the source's items
      are distinct objects). */
  predicate Distinct(list: seq<HighlightingItem>)
  {
    forall i, j :: 0 <= i < j < |list| ==> list[i] != list[j]
  }

  /** In a list of distinct items, the item at index k is found at k. */
  lemma IndexOfDistinct(list: seq<HighlightingItem>, k: nat)
    requires Distinct(list) && k < |list|
    ensures IndexOf(list, list[k]) == k
  {
  }

  /** In a list of distinct items, every child of a category has that
      category as its parent. */
  lemma ChildHasThatParent(list: seq<HighlightingItem>, c: TreeElement, item: HighlightingItem)
    requires |list| >= 7 && Distinct(list)
    requires c in GetElements() && item in GetChildren(list, c)
    ensures GetParent(list, Entry(item)) == Some(c)
  {
    if c == Label(JavadocCategory) {
      var k :| 0 <= k < 4 && list[..4][k] == item;
      IndexOfDistinct(list, k);
    } else if c == Label(CommentsCategory) {
      var k :| 0 <= k < 3 && list[4..7][k] == item;
      IndexOfDistinct(list, k + 4);
    } else {
      var k :| 0 <= k < |list| - 7 && list[7..][k] == item;
      IndexOfDistinct(list, k + 7);
    }
  }

  /** An item that is not in the list is filed under Javadoc, although no
      category lists it. */
  lemma AbsentItemFallsUnderJavadoc(list: seq<HighlightingItem>, item: HighlightingItem)
    requires |list| >= 7 && item !in list
    ensures GetParent(list, Entry(item)) == Some(Label(JavadocCategory))
    ensures item !in GetChildren(list, Label(JavadocCategory))
  {
  }

  // ---------------------------------------------------------------------
  // Overlay preference keys
  // ---------------------------------------------------------------------

  /** The overlay store's type descriptors that the block uses. */
  datatype TypeDescriptor = StringType | BooleanType

  datatype OverlayKey = OverlayKey(descriptor: TypeDescriptor, key: string)

  /** The keys one item contributes, in the order the block adds them. */
  function ItemOverlayKeys(item: HighlightingItem): (r: seq<OverlayKey>)
    ensures |r| == (if item.SemanticItem? then 6 else 5)
    ensures r[0] == OverlayKey(StringType, item.colorKey)
    ensures forall k :: 1 <= k < |r| ==> r[k].descriptor == BooleanType
  {
    [OverlayKey(StringType, item.colorKey),
     OverlayKey(BooleanType, item.boldKey),
     OverlayKey(BooleanType, item.italicKey),
     OverlayKey(BooleanType, item.strikethroughKey),
     OverlayKey(BooleanType, item.underlineKey)]
    + (if item.SemanticItem? then [OverlayKey(BooleanType, item.enableKey)] else [])
  }

  /** The keys of a list of items, item by item in list order, starting with
      the first item's colour key (OverlayKeyCount gives their number). */
  function OverlayKeys(items: seq<HighlightingItem>): (r: seq<OverlayKey>)
    ensures |items| <= |r|
    ensures items != [] ==> r[0] == OverlayKey(StringType, items[0].colorKey)
  {
    if items == [] then []
    else OverlayKeys(items[..|items| - 1]) + ItemOverlayKeys(items[|items| - 1])
  }

  /** The number of semantic items in a list. */
  function SemanticCount(items: seq<HighlightingItem>): (n: nat)
    ensures n <= |items|
  {
    if items == [] then 0
    else SemanticCount(items[..|items| - 1]) + (if items[|items| - 1].SemanticItem? then 1 else 0)
  }

  /** Five keys per item and one more per semantic item. */
  lemma {:induction false} OverlayKeyCount(items: seq<HighlightingItem>)
    ensures |OverlayKeys(items)| == 5 * |items| + SemanticCount(items)
  {
    if items != [] {
      OverlayKeyCount(items[..|items| - 1]);
    }
  }

  /** The keys declared as STRING, in order. */
  function StringKeys(keys: seq<OverlayKey>): seq<string>
  {
    if keys == [] then []
    else (if keys[0].descriptor == StringType then [keys[0].key] else []) + StringKeys(keys[1..])
  }

  lemma {:induction false} StringKeysOfConcatenation(a: seq<OverlayKey>, b: seq<OverlayKey>)
    ensures StringKeys(a + b) == StringKeys(a) + StringKeys(b)
  {
    if a != [] {
      assert (a + b)[1..] == a[1..] + b;
      StringKeysOfConcatenation(a[1..], b);
    } else {
      assert a + b == b;
    }
  }

  /** Keys that are all BOOLEAN contribute no STRING key. */
  lemma {:induction false} BooleanKeysHaveNoStringKeys(keys: seq<OverlayKey>)
    requires forall i :: 0 <= i < |keys| ==> keys[i].descriptor == BooleanType
    ensures StringKeys(keys) == []
  {
    if keys != [] {
      BooleanKeysHaveNoStringKeys(keys[1..]);
    }
  }

  /** The colour keys of the items, in list order. */
  function ColorKeys(items: seq<HighlightingItem>): (r: seq<string>)
    ensures |r| == |items|
    ensures forall i :: 0 <= i < |items| ==> r[i] == items[i].colorKey
  {
    if items == [] then [] else [items[0].colorKey] + ColorKeys(items[1..])
  }

  /** The STRING keys are exactly the colour keys, one per item in list
      order; every other key is BOOLEAN. */
  lemma {:induction false} StringKeysAreColorKeys(items: seq<HighlightingItem>)
    ensures StringKeys(OverlayKeys(items)) == ColorKeys(items)
  {
    if items != [] {
      var init, last := items[..|items| - 1], items[|items| - 1];
      StringKeysAreColorKeys(init);
      StringKeysOfConcatenation(OverlayKeys(init), ItemOverlayKeys(last));
      var lastKeys := ItemOverlayKeys(last);
      assert StringKeys(lastKeys) == [last.colorKey] by {
        BooleanKeysHaveNoStringKeys(lastKeys[1..]);
      }
      assert ColorKeys(items) == ColorKeys(init) + [last.colorKey];
    }
  }

  // ---------------------------------------------------------------------
  // Selection and the preference values the controls show
  // ---------------------------------------------------------------------

  /** getHighlightingColorListItem over the first selected element: None
      for an empty selection or a category. */
  function SelectedItem(first: Option<TreeElement>): (r: Option<HighlightingItem>)
    ensures r.Some? <==> first.Some? && first.value.Entry?
    ensures r.Some? ==> first == Some(Entry(r.value))
  {
    match first
    case None => None
    case Some(Label(_)) => None
    case Some(Entry(item)) => Some(item)
  }

  /** A boolean preference: false when the store has no value for the key. */
  function GetBoolean(booleans: map<string, bool>, key: string): bool
  {
    key in booleans && booleans[key]
  }

  /** May the style controls be edited for this selection: always for a
      syntax item, for a semantic item only while it is enabled, never when
      no item is selected. */
  predicate StylesEditable(item: Option<HighlightingItem>, booleans: map<string, bool>)
  {
    item.Some? && (item.value.SyntaxItem? || GetBoolean(booleans, item.value.enableKey))
  }
}
