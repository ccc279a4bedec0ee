/** The syntax-coloring configuration block, without its widgets: it builds
    the highlighting list, registers the list's keys with the overlay
    preference store, keeps the style controls' enablement in step with the
    selected item, and installs and uninstalls semantic highlighting on its
    previewer. */
module ColoringBlock {
  import opened Options
  import opened ColoringModel

  datatype RGB = RGB(red: int, green: int, blue: int)

  /** The colour a store gives for a key it has no value for. */
  const DefaultColor: RGB := RGB(0, 0, 0)

  /** The overlay preference store the block is given: the keys registered
      with it and the boolean and colour values it holds. */
  class OverlayPreferenceStore {
    var keys: seq<OverlayKey>
    var booleans: map<string, bool>
    var colors: map<string, RGB>

    constructor ()
      ensures keys == [] && booleans == map[] && colors == map[]
    {
      keys := [];
      booleans := map[];
      colors := map[];
    }

    method AddKeys(added: seq<OverlayKey>)
      modifies this`keys
      ensures keys == old(keys) + added
    {
      keys := keys + added;
    }

    function GetColor(key: string): RGB
      reads this
    {
      if key in colors then colors[key] else DefaultColor
    }
  }

  /** A check box: whether it can be clicked and whether it is ticked. */
  datatype Button = Button(enabled: bool, selected: bool)

  /** The foreground colour editor: whether its button is enabled and the
      colour it shows. */
  datatype ColorEditor = ColorEditor(enabled: bool, value: RGB)

  class JavaEditorColoringConfigurationBlock {
    const store: OverlayPreferenceStore
    /** The highlighting list: syntax items, then semantic items. */
    var listModel: seq<HighlightingItem>
    /** The first element selected in the list viewer, if any. */
    var selection: Option<TreeElement>

    var colorEditor: ColorEditor
    var boldCheckBox: Button
    var italicCheckBox: Button
    var strikethroughCheckBox: Button
    var underlineCheckBox: Button
    var enableCheckbox: Button

    /** The semantic highlighting manager installed on the previewer, by
        creation number; None when there is none. */
    var manager: Option<nat>
    /** How many managers have been created. */
    var managersCreated: nat
    /** The managers uninstalled so far, in order. */
    var uninstalledManagers: seq<nat>

    /** Managers are created one at a time: each earlier manager has been
        uninstalled, in creation order, and only the latest may still be
        installed. */
    ghost predicate ManagersValid()
      reads this
    {
      && |uninstalledManagers| == (if manager.Some? then managersCreated - 1 else managersCreated)
      && (manager.Some? ==> managersCreated > 0 && manager.value == managersCreated - 1)
      && forall i :: 0 <= i < |uninstalledManagers| ==> uninstalledManagers[i] == i
    }

    /** Builds the list from the syntax table and the semantic
        highlightings, then registers the list's overlay keys with the
        store. The controls start as new check boxes do: enabled and
        unticked. */
    constructor (store: OverlayPreferenceStore, semantics: seq<SemanticHighlighting>)
      modifies store`keys
      ensures ManagersValid()
      ensures this.store == store
      ensures listModel == ListModel(semantics)
      ensures store.keys == old(store.keys) + OverlayKeys(ListModel(semantics))
      ensures selection == None && manager == None && managersCreated == 0
    {
      var items: seq<HighlightingItem> := [];
      var i := 0;
      while i < |SyntaxColorListModel|
        invariant 0 <= i <= |SyntaxColorListModel|
        invariant |items| == i
        invariant forall j :: 0 <= j < i ==> items[j] == SyntaxItemFor(SyntaxColorListModel[j])
      {
        var entry := SyntaxColorListModel[i];
        items := items + [SyntaxItem(entry.displayName, entry.colorKey,
                                     entry.colorKey + BoldSuffix, entry.colorKey + ItalicSuffix,
                                     entry.colorKey + StrikethroughSuffix, entry.colorKey + UnderlineSuffix)];
        i := i + 1;
      }
      i := 0;
      while i < |semantics|
        invariant 0 <= i <= |semantics|
        invariant |items| == |SyntaxColorListModel| + i
        invariant forall j :: 0 <= j < |SyntaxColorListModel| ==> items[j] == SyntaxItemFor(SyntaxColorListModel[j])
        invariant forall j :: 0 <= j < i ==> items[|SyntaxColorListModel| + j] == SemanticItemFor(semantics[j])
      {
        var h := semantics[i];
        items := items + [SemanticItem(h.displayName, h.colorKey, h.boldKey, h.italicKey,
                                       h.strikethroughKey, h.underlineKey, h.enabledKey)];
        i := i + 1;
      }
      ListModelFromParts(semantics, items);
      this.store := store;
      listModel := items;
      selection := None;
      colorEditor := ColorEditor(true, DefaultColor);
      boldCheckBox := Button(true, false);
      italicCheckBox := Button(true, false);
      strikethroughCheckBox := Button(true, false);
      underlineCheckBox := Button(true, false);
      enableCheckbox := Button(true, false);
      manager := None;
      managersCreated := 0;
      uninstalledManagers := [];
      new;
      var keys := CreateOverlayStoreKeys();
      store.AddKeys(keys);
    }

    /** createOverlayStoreKeys: for each item in list order, a STRING colour
        key, then BOOLEAN bold, italic, strikethrough and underline keys, and
        a BOOLEAN enable key for a semantic item. */
    method CreateOverlayStoreKeys() returns (keys: seq<OverlayKey>)
      ensures keys == OverlayKeys(listModel)
    {
      keys := [];
      var i := 0;
      var n := |listModel|;
      while i < n
        invariant 0 <= i <= n
        invariant keys == OverlayKeys(listModel[..i])
      {
        var item := listModel[i];
        keys := keys + [OverlayKey(StringType, item.colorKey)];
        keys := keys + [OverlayKey(BooleanType, item.boldKey)];
        keys := keys + [OverlayKey(BooleanType, item.italicKey)];
        keys := keys + [OverlayKey(BooleanType, item.strikethroughKey)];
        keys := keys + [OverlayKey(BooleanType, item.underlineKey)];
        if item.SemanticItem? {
          keys := keys + [OverlayKey(BooleanType, item.enableKey)];
        }
        assert listModel[..i + 1][..i] == listModel[..i];
        i := i + 1;
      }
      assert listModel[..n] == listModel;
    }

    /** The controls show the selected item: style controls are enabled
        exactly when the item's styles are editable, the enable check box
        exactly when the item is semantic. */
    ghost predicate ControlsMatchSelection()
      reads this, store
    {
      var item := SelectedItem(selection);
      var editable := StylesEditable(item, store.booleans);
      && colorEditor.enabled == editable
      && boldCheckBox.enabled == editable
      && italicCheckBox.enabled == editable
      && strikethroughCheckBox.enabled == editable
      && underlineCheckBox.enabled == editable
      && enableCheckbox.enabled == (item.Some? && item.value.SemanticItem?)
    }

    /** handleSyntaxColorListSelection: with no item selected every control
        is disabled and keeps its value; otherwise the controls show the
        item's preferences, a semantic item's style controls follow its
        enable preference, and a syntax item's enable check box is disabled
        and ticked. */
    method HandleSyntaxColorListSelection()
      modifies this`colorEditor, this`boldCheckBox, this`italicCheckBox,
               this`strikethroughCheckBox, this`underlineCheckBox, this`enableCheckbox
      ensures ControlsMatchSelection()
      ensures SelectedItem(selection).None? ==>
                && colorEditor.value == old(colorEditor.value)
                && boldCheckBox.selected == old(boldCheckBox.selected)
                && italicCheckBox.selected == old(italicCheckBox.selected)
                && strikethroughCheckBox.selected == old(strikethroughCheckBox.selected)
                && underlineCheckBox.selected == old(underlineCheckBox.selected)
                && enableCheckbox.selected == old(enableCheckbox.selected)
      ensures SelectedItem(selection).Some? ==>
                var item := SelectedItem(selection).value;
                && colorEditor.value == store.GetColor(item.colorKey)
                && boldCheckBox.selected == GetBoolean(store.booleans, item.boldKey)
                && italicCheckBox.selected == GetBoolean(store.booleans, item.italicKey)
                && strikethroughCheckBox.selected == GetBoolean(store.booleans, item.strikethroughKey)
                && underlineCheckBox.selected == GetBoolean(store.booleans, item.underlineKey)
                && enableCheckbox.selected ==
                     (if item.SemanticItem? then GetBoolean(store.booleans, item.enableKey) else true)
    {
      var item := SelectedItem(selection);
      if item.None? {
        enableCheckbox := Button(false, enableCheckbox.selected);
        colorEditor := ColorEditor(false, colorEditor.value);
        boldCheckBox := Button(false, boldCheckBox.selected);
        italicCheckBox := Button(false, italicCheckBox.selected);
        strikethroughCheckBox := Button(false, strikethroughCheckBox.selected);
        underlineCheckBox := Button(false, underlineCheckBox.selected);
        return;
      }
      var it := item.value;
      var prefs := store.booleans;
      var editable, enableBox;
      if it.SemanticItem? {
        var enable := GetBoolean(prefs, it.enableKey);
        editable, enableBox := enable, Button(true, enable);
      } else {
        editable, enableBox := true, Button(false, true);
      }
      colorEditor := ColorEditor(editable, store.GetColor(it.colorKey));
      boldCheckBox := Button(editable, GetBoolean(prefs, it.boldKey));
      italicCheckBox := Button(editable, GetBoolean(prefs, it.italicKey));
      strikethroughCheckBox := Button(editable, GetBoolean(prefs, it.strikethroughKey));
      underlineCheckBox := Button(editable, GetBoolean(prefs, it.underlineKey));
      enableCheckbox := enableBox;
    }

    /** initialize: the list viewer starts with the Java category selected;
        setting the selection notifies the selection listener, so every
        control ends up disabled and keeps its value. */
    method Initialize()
      modifies this`selection, this`colorEditor, this`boldCheckBox, this`italicCheckBox,
               this`strikethroughCheckBox, this`underlineCheckBox, this`enableCheckbox
      ensures selection == Some(Label(JavaCategory))
      ensures ControlsMatchSelection()
      ensures !colorEditor.enabled && !boldCheckBox.enabled && !italicCheckBox.enabled
              && !strikethroughCheckBox.enabled && !underlineCheckBox.enabled && !enableCheckbox.enabled
      ensures && colorEditor.value == old(colorEditor.value)
              && boldCheckBox.selected == old(boldCheckBox.selected)
              && italicCheckBox.selected == old(italicCheckBox.selected)
              && strikethroughCheckBox.selected == old(strikethroughCheckBox.selected)
              && underlineCheckBox.selected == old(underlineCheckBox.selected)
              && enableCheckbox.selected == old(enableCheckbox.selected)
    {
      SelectionChanged(Some(Label(JavaCategory)));
    }

    /** The list viewer's selection changes to `first`; its listener then
        refreshes the controls. */
    method SelectionChanged(first: Option<TreeElement>)
      modifies this`selection, this`colorEditor, this`boldCheckBox, this`italicCheckBox,
               this`strikethroughCheckBox, this`underlineCheckBox, this`enableCheckbox
      ensures selection == first
      ensures ControlsMatchSelection()
      ensures SelectedItem(first).None? ==>
                && colorEditor.value == old(colorEditor.value)
                && boldCheckBox.selected == old(boldCheckBox.selected)
                && italicCheckBox.selected == old(italicCheckBox.selected)
                && strikethroughCheckBox.selected == old(strikethroughCheckBox.selected)
                && underlineCheckBox.selected == old(underlineCheckBox.selected)
                && enableCheckbox.selected == old(enableCheckbox.selected)
      ensures SelectedItem(first).Some? ==>
                var item := SelectedItem(first).value;
                && colorEditor.value == store.GetColor(item.colorKey)
                && boldCheckBox.selected == GetBoolean(store.booleans, item.boldKey)
                && italicCheckBox.selected == GetBoolean(store.booleans, item.italicKey)
                && strikethroughCheckBox.selected == GetBoolean(store.booleans, item.strikethroughKey)
                && underlineCheckBox.selected == GetBoolean(store.booleans, item.underlineKey)
                && enableCheckbox.selected ==
                     (if item.SemanticItem? then GetBoolean(store.booleans, item.enableKey) else true)
    {
      selection := first;
      HandleSyntaxColorListSelection();
    }

    /** installSemanticHighlighting: creates and installs a manager only when
        none is installed, so installing twice is installing once. */
    method InstallSemanticHighlighting()
      requires ManagersValid()
      modifies this`manager, this`managersCreated
      ensures ManagersValid()
      ensures manager.Some?
      ensures old(manager).Some? ==> manager == old(manager) && managersCreated == old(managersCreated)
      ensures old(manager).None? ==> manager == Some(old(managersCreated))
                                     && managersCreated == old(managersCreated) + 1
    {
      if manager.None? {
        manager := Some(managersCreated);
        managersCreated := managersCreated + 1;
      }
    }

    /** uninstallSemanticHighlighting: uninstalls and forgets the installed
        manager; without one it does nothing. */
    method UninstallSemanticHighlighting()
      requires ManagersValid()
      modifies this`manager, this`uninstalledManagers
      ensures ManagersValid()
      ensures manager.None?
      ensures uninstalledManagers ==
                old(uninstalledManagers) + (if old(manager).Some? then [old(manager).value] else [])
    {
      if manager.Some? {
        uninstalledManagers := uninstalledManagers + [manager.value];
        manager := None;
      }
    }
  }
}
