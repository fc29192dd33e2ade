/**
  The props a `TabPanel` hands to its box: the ARIA wiring that ties it to its
  tab and hides it unless its value is the selected one, then the panel style
  props, then whatever the caller passed; its children go last.
 */
module TabPanel {
  import opened Js
  import Tab

  /** `{ value } = { ...context }; value === valueProp`. */
  predicate IsSelected(context: Value, valueProp: Value) {
    StrictEquals(Get(Spread(context), "value"), valueProp)
  }

  /** The attributes `TabPanel` writes itself, before the style props and the
      caller's props are spread over them. */
  function PanelAttributes(configName: string, valueProp: Value, context: Value): (r: Props)
    ensures r.Keys == {"aria-labelledby", "aria-hidden", "id", "role", "tabIndex"}
    ensures r["id"] == Str(configName + ":TabPanel-" + ToString(valueProp))
    ensures r["aria-labelledby"] == Str(configName + ":Tab-" + ToString(valueProp))
    ensures r["aria-hidden"] == Bool(!IsSelected(context, valueProp))
    ensures r["role"] == Str("tabpanel")
    ensures r["tabIndex"] == Num(-1)
  {
    var isSelected := IsSelected(context, valueProp);
    var tabId := configName + ":Tab-" + ToString(valueProp);
    var tabPanelId := configName + ":TabPanel-" + ToString(valueProp);
    map[
      "aria-labelledby" := Str(tabId),
      "aria-hidden" := Bool(!isSelected),
      "id" := Str(tabPanelId),
      "role" := Str("tabpanel"),
      "tabIndex" := Num(-1)
    ]
  }

  /** The props `TabPanel` passes on once `children` and `value` are taken out. */
  function Rest(props: Props): Props {
    props - {"children", "value"}
  }

  /** The spread order of the panel's props for any attribute map: attributes,
      style props, remaining props, and `children` last. */
  lemma SpreadOrder(attrs: Props, props: Props, styleProps: Props)
    ensures var r := Merge(Merge(Merge(attrs, styleProps), Rest(props)), map["children" := Get(props, "children")]);
      && r.Keys == attrs.Keys + styleProps.Keys + (props.Keys - {"children", "value"}) + {"children"}
      && r["children"] == Get(props, "children")
      && (forall k :: k in props && k != "value" ==> r[k] == props[k])
      && (forall k :: k in styleProps && k !in props && k != "children" ==> r[k] == styleProps[k])
      && (forall k :: k !in styleProps && k !in props && k in attrs && k != "children" ==> r[k] == attrs[k])
  {
  }

  /** The props the box receives. The JSX child `{children}` is handed to
      `createElement` separately, so `children` is set after every spread. */
  function PanelProps(configName: string, props: Props, context: Value, styleProps: Props): (r: Props)
    ensures r.Keys == PanelAttributes(configName, Get(props, "value"), context).Keys
                      + styleProps.Keys + (props.Keys - {"children", "value"}) + {"children"}
    ensures r["children"] == Get(props, "children")
    // the caller's own props win over the attributes and the style props
    ensures forall k :: k in props && k != "value" ==> r[k] == props[k]
    ensures forall k :: k in styleProps && k !in props && k != "children" ==> r[k] == styleProps[k]
    // an attribute neither source mentions is the panel's own
    ensures forall k :: k !in styleProps && k !in props && k in PanelAttributes(configName, Get(props, "value"), context)
                      ==> r[k] == PanelAttributes(configName, Get(props, "value"), context)[k]
  {
    var attrs := PanelAttributes(configName, Get(props, "value"), context);
    assert "children" !in attrs;
    SpreadOrder(attrs, props, styleProps);
    Merge(Merge(Merge(attrs, styleProps), Rest(props)), map["children" := Get(props, "children")])
  }

  /** A tab's `aria-controls` is the `id` of the panel with the same value. */
  lemma TabControlsPanel(configName: string, valueProp: Value, disabled: Value, context: Value)
    ensures PanelAttributes(configName, valueProp, context)["id"]
         == Tab.TabAttributes(configName, valueProp, disabled, context)["aria-controls"]
  {
  }

  /** A panel's `aria-labelledby` is the `id` of the tab with the same value. */
  lemma PanelLabelledByTab(configName: string, valueProp: Value, disabled: Value, context: Value)
    ensures PanelAttributes(configName, valueProp, context)["aria-labelledby"]
         == Tab.TabAttributes(configName, valueProp, disabled, context)["id"]
  {
  }

  /** Whatever the selected value, a tab is in the focus order exactly when the
      panel with the same value is shown. */
  lemma FocusableTabShowsPanel(configName: string, valueProp: Value, disabled: Value, context: Value)
    ensures Tab.TabAttributes(configName, valueProp, disabled, context)["tabIndex"] == Num(0)
        <==> PanelAttributes(configName, valueProp, context)["aria-hidden"] == Bool(false)
  {
  }

  /** The same matching holds for the rendered props whenever neither the style
      props nor the caller's props override the ids. */
  lemma RenderedIdsMatch(configName: string, tabProps: Props, panelProps: Props, context: Value,
                         tabStyle: Props, panelStyle: Props)
    requires Get(tabProps, "value") == Get(panelProps, "value")
    requires "id" !in tabStyle && "id" !in tabProps && "aria-controls" !in tabStyle && "aria-controls" !in tabProps
    requires "id" !in panelStyle && "id" !in panelProps && "aria-labelledby" !in panelStyle && "aria-labelledby" !in panelProps
    ensures PanelProps(configName, panelProps, context, panelStyle)["id"]
         == Tab.TabProps(configName, tabProps, context, tabStyle)["aria-controls"]
    ensures PanelProps(configName, panelProps, context, panelStyle)["aria-labelledby"]
         == Tab.TabProps(configName, tabProps, context, tabStyle)["id"]
  {
  }

  /** Tabs whose values are distinct strings, or distinct numbers, get distinct
      ids, and so do their panels. */
  lemma DistinctValuesDistinctIds(configName: string, v1: Value, v2: Value, context: Value)
    requires (v1.Str? && v2.Str?) || (v1.Num? && v2.Num?)
    requires v1 != v2
    ensures PanelAttributes(configName, v1, context)["id"] != PanelAttributes(configName, v2, context)["id"]
    ensures PanelAttributes(configName, v1, context)["aria-labelledby"] != PanelAttributes(configName, v2, context)["aria-labelledby"]
  {
    if ToString(v1) == ToString(v2) {
      ToStringInjectiveOnKind(v1, v2);
    }
    PrefixKeepsDistinct(configName + ":TabPanel-", ToString(v1), ToString(v2));
    PrefixKeepsDistinct(configName + ":Tab-", ToString(v1), ToString(v2));
  }

  /** Under one configuration name, no tab id is ever a panel id: the two
      differ at the character after ":Tab". */
  lemma TabIdIsNeverPanelId(configName: string, v1: Value, v2: Value, context: Value)
    ensures PanelAttributes(configName, v1, context)["aria-labelledby"] != PanelAttributes(configName, v2, context)["id"]
  {
    var tabId := configName + ":Tab-" + ToString(v1);
    var panelId := configName + ":TabPanel-" + ToString(v2);
    assert tabId[|configName| + 4] == '-';
    assert panelId[|configName| + 4] == 'P';
  }

  /** The id text depends on the value only through `String(value)`, while
      selection uses `===`: the number 1 and the string "1" share their tab and
      panel ids but not their selection, so two such tabs would render duplicate
      ids. */
  lemma NumberAndStringShareIds(configName: string, disabled: Value)
    ensures PanelAttributes(configName, Num(1), Obj(map["value" := Num(1)]))["id"]
         == PanelAttributes(configName, Str("1"), Obj(map["value" := Num(1)]))["id"]
    ensures PanelAttributes(configName, Num(1), Obj(map["value" := Num(1)]))["aria-labelledby"]
         == PanelAttributes(configName, Str("1"), Obj(map["value" := Num(1)]))["aria-labelledby"]
    ensures Tab.TabAttributes(configName, Num(1), disabled, Obj(map["value" := Num(1)]))["id"]
         == Tab.TabAttributes(configName, Str("1"), disabled, Obj(map["value" := Num(1)]))["id"]
    ensures PanelAttributes(configName, Num(1), Obj(map["value" := Num(1)]))["aria-hidden"] == Bool(false)
    ensures PanelAttributes(configName, Str("1"), Obj(map["value" := Num(1)]))["aria-hidden"] == Bool(true)
  {
    assert ToString(Num(1)) == "1";
  }
}
