/**
  The props a `Tab` hands to its button: the ARIA wiring that ties it to its
  panel and to the selected value of the enclosing `Tabs`, then the tab style
  props, then whatever the caller passed.
 */
module Tab {
  import opened Js

  /** `{ value } = { ...context }; value === valueProp`. Without a `Tabs`
      provider the context is `undefined` and its value reads as `undefined`. */
  predicate IsSelected(context: Value, valueProp: Value) {
    StrictEquals(Get(Spread(context), "value"), valueProp)
  }

  /** The attributes `Tab` writes itself, before the style props and the
      caller's props are spread over them. */
  function TabAttributes(configName: string, valueProp: Value, disabled: Value, context: Value): (r: Props)
    ensures r.Keys == {"aria-controls", "aria-disabled", "aria-selected", "disabled", "id", "role", "tabIndex"}
    ensures r["id"] == Str(configName + ":Tab-" + ToString(valueProp))
    ensures r["aria-controls"] == Str(configName + ":TabPanel-" + ToString(valueProp))
    ensures r["aria-selected"] == Bool(IsSelected(context, valueProp))
    ensures r["tabIndex"] == Num(0) <==> IsSelected(context, valueProp)
    ensures r["tabIndex"] == Num(-1) <==> !IsSelected(context, valueProp)
    ensures r["aria-disabled"] == r["disabled"] == disabled
    ensures r["role"] == Str("tab")
  {
    var isSelected := IsSelected(context, valueProp);
    var tabId := configName + ":Tab-" + ToString(valueProp);
    var tabPanelId := configName + ":TabPanel-" + ToString(valueProp);
    map[
      "aria-controls" := Str(tabPanelId),
      "aria-disabled" := disabled,
      "aria-selected" := Bool(isSelected),
      "disabled" := disabled,
      "id" := Str(tabId),
      "role" := Str("tab"),
      "tabIndex" := Num(if isSelected then 0 else -1)
    ]
  }

  /** The props `Tab` passes on once `disabled` and `value` are taken out. */
  function Rest(props: Props): Props {
    props - {"disabled", "value"}
  }

  /** The props the button receives: its own attributes, overridden by the tab
      style props, overridden in turn by the caller's remaining props. */
  function TabProps(configName: string, props: Props, context: Value, styleProps: Props): (r: Props)
    ensures r.Keys == TabAttributes(configName, Get(props, "value"), Get(props, "disabled"), context).Keys
                      + styleProps.Keys + (props.Keys - {"disabled", "value"})
    // the caller's own props win over everything else
    ensures forall k :: k in props && k != "disabled" && k != "value" ==> r[k] == props[k]
    // a style prop wins over the tab's attributes unless the caller set the key too
    ensures forall k :: k in styleProps && (k !in props || k == "disabled" || k == "value") ==> r[k] == styleProps[k]
    // an attribute neither source mentions is the tab's own
    ensures forall k :: k !in styleProps && k !in props && k in TabAttributes(configName, Get(props, "value"), Get(props, "disabled"), context)
                      ==> r[k] == TabAttributes(configName, Get(props, "value"), Get(props, "disabled"), context)[k]
    // `disabled` cannot come from the caller's remaining props
    ensures "disabled" !in styleProps ==> r["disabled"] == Get(props, "disabled")
  {
    var disabled := Get(props, "disabled");
    var valueProp := Get(props, "value");
    Merge(Merge(TabAttributes(configName, valueProp, disabled, context), styleProps), Rest(props))
  }
}
