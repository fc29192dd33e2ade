/**
  `InputGroupAddon`: the size and variant an addon renders with, taken from its
  own props, else from the enclosing input group, else from the defaults, and
  the props it hands to its box.
 */
module InputGroupAddon {
  import opened Js

  const DefaultSize: Value := Str("md")
  const DefaultVariant: Value := Str("outline")

  /** `(sizeProp ?? inputGroupSize) ?? defaultSize`, where the group size is read
      through `{ ...inputGroupContext }` (a missing group reads as `{}`). The
      addon's own size wins whenever it is not nullish, falsy or not; otherwise
      the group's non-nullish size; otherwise "md". The result is never nullish. */
  function ResolveSize(sizeProp: Value, context: Value): (size: Value)
    ensures !IsNullish(size)
    ensures !IsNullish(sizeProp) ==> size == sizeProp
    ensures IsNullish(sizeProp) && !IsNullish(Get(Spread(context), "size")) ==> size == Get(Spread(context), "size")
    ensures IsNullish(sizeProp) && IsNullish(Get(Spread(context), "size")) ==> size == DefaultSize
  {
    var inputGroupSize := Get(Spread(context), "size");
    Coalesce(Coalesce(sizeProp, inputGroupSize), DefaultSize)
  }

  /** `(variantProp ?? inputGroupVariant) ?? defaultVariant`, resolved the same
      way with "outline" as the last resort. */
  function ResolveVariant(variantProp: Value, context: Value): (variant: Value)
    ensures !IsNullish(variant)
    ensures !IsNullish(variantProp) ==> variant == variantProp
    ensures IsNullish(variantProp) && !IsNullish(Get(Spread(context), "variant")) ==> variant == Get(Spread(context), "variant")
    ensures IsNullish(variantProp) && IsNullish(Get(Spread(context), "variant")) ==> variant == DefaultVariant
  {
    var inputGroupVariant := Get(Spread(context), "variant");
    Coalesce(Coalesce(variantProp, inputGroupVariant), DefaultVariant)
  }

  /** The props the box receives: the addon style props for the resolved size
      and variant (`styleOf` stands for the style hook), overridden by the
      caller's props with `size` and `variant` taken out. */
  function AddonProps(props: Props, context: Value, styleOf: (Value, Value) -> Props): (r: Props)
    ensures var styleProps := styleOf(ResolveSize(Get(props, "size"), context), ResolveVariant(Get(props, "variant"), context));
            && r.Keys == styleProps.Keys + (props.Keys - {"size", "variant"})
            && (forall k :: k in props && k != "size" && k != "variant" ==> r[k] == props[k])
            && (forall k :: k in styleProps && (k !in props || k == "size" || k == "variant") ==> r[k] == styleProps[k])
  {
    var size := ResolveSize(Get(props, "size"), context);
    var variant := ResolveVariant(Get(props, "variant"), context);
    var rest := props - {"size", "variant"};
    Merge(styleOf(size, variant), rest)
  }

  /** An addon outside any input group renders exactly like one inside a group
      that sets neither size nor variant. */
  lemma MissingGroupIsEmptyGroup(props: Props, group: Props, styleOf: (Value, Value) -> Props)
    requires IsNullish(Get(group, "size")) && IsNullish(Get(group, "variant"))
    ensures ResolveSize(Get(props, "size"), Undefined) == ResolveSize(Get(props, "size"), Obj(group))
    ensures ResolveVariant(Get(props, "variant"), Undefined) == ResolveVariant(Get(props, "variant"), Obj(group))
    ensures AddonProps(props, Undefined, styleOf) == AddonProps(props, Obj(group), styleOf)
  {
  }

  /** `??` tests only for null and undefined: an empty string or a zero given as
      the addon's own size or variant is kept over the group's value. */
  lemma FalsyValuesAreKept(context: Value)
    ensures ResolveSize(Str(""), context) == Str("")
    ensures ResolveSize(Num(0), context) == Num(0)
    ensures ResolveSize(Bool(false), context) == Bool(false)
    ensures ResolveVariant(Str(""), context) == Str("")
    ensures ResolveVariant(Num(0), context) == Num(0)
    ensures ResolveVariant(Bool(false), context) == Bool(false)
  {
  }
}
