/**
  The style props of the modal's parts: container, overlay, content, close
  button, header, body and footer. Each producer builds object literals, picks
  entries out of tables keyed by the colour mode, the placement or the size,
  and spreads them together. What the hooks return (the colour mode, the colour
  style, the theme) arrives as parameters.
 */
module ModalStyles {
  import opened Js

  const DefaultSize: Value := Str("auto")

  /** The container covers the viewport as a fixed, scrollable flex box stacked
      at the modal layer. */
  function ContainerStyle(): (r: Props)
    ensures r.Keys == {"position", "left", "right", "top", "bottom", "display", "overflow", "zIndex"}
    ensures r["position"] == Str("fixed") && r["display"] == Str("flex")
    ensures r["overflow"] == Str("auto") && r["zIndex"] == Str("modal")
    ensures r["left"] == r["right"] == r["top"] == r["bottom"] == Num(0)
  {
    map[
      "position" := Str("fixed"),
      "left" := Num(0),
      "right" := Num(0),
      "top" := Num(0),
      "bottom" := Num(0),
      "display" := Str("flex"),
      "overflow" := Str("auto"),
      "zIndex" := Str("modal")
    ]
  }

  /** The overlay fills its parent; its background is the same translucent
      black in both colour modes and `undefined` in any other mode. */
  function OverlayStyle(colorMode: Value): (r: Props)
    ensures r.Keys == {"position", "left", "top", "width", "height", "backgroundColor"}
    ensures r["position"] == Str("absolute") && r["left"] == r["top"] == Num(0)
    ensures r["width"] == r["height"] == Str("100%")
    ensures colorMode == Str("dark") || colorMode == Str("light") ==> r["backgroundColor"] == Str("rgba(0, 0, 0, .7)")
    ensures colorMode != Str("dark") && colorMode != Str("light") ==> r["backgroundColor"] == Undefined
  {
    var backgroundColor := Index(map[
      "dark" := Str("rgba(0, 0, 0, .7)"),
      "light" := Str("rgba(0, 0, 0, .7)")
    ], colorMode);
    map[
      "position" := Str("absolute"),
      "left" := Num(0),
      "top" := Num(0),
      "width" := Str("100%"),
      "height" := Str("100%"),
      "backgroundColor" := backgroundColor
    ]
  }

  /** Only the overlay's background depends on the colour mode. */
  lemma OverlayModeAffectsOnlyBackground(mode1: Value, mode2: Value)
    ensures OverlayStyle(mode1) - {"backgroundColor"} == OverlayStyle(mode2) - {"backgroundColor"}
  {
  }

  /** The keys the base part of the content style sets. */
  const BaseKeys: set<string> := {"display", "flexDirection", "overflow", "position"}

  /** The keys the colour-mode entry of the content style sets. */
  const ColorKeys: set<string> := {"color", "bg", "borderWidth", "borderStyle", "borderColor", "boxShadow"}

  /** The keys any size entry of the content style may set. */
  const SizeKeys: set<string> := {"width", "height", "minHeight", "maxHeight", "maxWidth"}

  /** The base, colour, placement and size parts of the content style write
      to different keys. */
  lemma KeyGroupsDisjoint()
    ensures BaseKeys !! ColorKeys && BaseKeys !! {"margin"} && BaseKeys !! SizeKeys
    ensures ColorKeys !! {"margin"} && ColorKeys !! SizeKeys && {"margin"} !! SizeKeys
  {
    forall k | k in ColorKeys ensures k !in SizeKeys {
    }
  }

  /** The five fixed-width sizes. */
  const FixedSizes: set<Value> := {Str("xs"), Str("sm"), Str("md"), Str("lg"), Str("xl")}

  /** A size value the size table has an entry for, once an `undefined` size has
      been replaced by the default. */
  predicate KnownSize(size: Value) {
    size == Undefined || size == Str("auto") || size == Str("full") || size in FixedSizes
  }

  /** The base of the content style: a clipped column flex box, positioned so
      that the close button can sit in its corner. */
  function ContentBaseStyle(): (r: Props)
    ensures r.Keys == BaseKeys
    ensures r["display"] == Str("flex") && r["flexDirection"] == Str("column")
    ensures r["overflow"] == Str("clip") && r["position"] == Str("relative")
  {
    map[
      "display" := Str("flex"),
      "flexDirection" := Str("column"),
      "overflow" := Str("clip"),
      "position" := Str("relative")
    ]
  }

  /** The colour-mode part of the content style, as spread: text, background
      and border colours for each mode, the same one-pixel solid border and the
      colour style's thick shadow in both, and nothing for any other mode. */
  function ContentColorModeStyle(colorMode: Value, colorStyle: Value): (r: Props)
    ensures r.Keys <= ColorKeys
    ensures colorMode == Str("light") || colorMode == Str("dark") ==>
      (r.Keys == ColorKeys
       && r["borderWidth"] == Num(1) && r["borderStyle"] == Str("solid")
       && r["boxShadow"] == Member(Member(colorStyle, "shadow"), "thick"))
    ensures colorMode == Str("light") ==>
      (r.Keys == ColorKeys
       && r["color"] == Str("black:primary") && r["bg"] == Str("white") && r["borderColor"] == Str("gray:30"))
    ensures colorMode == Str("dark") ==>
      (r.Keys == ColorKeys
       && r["color"] == Str("white:primary") && r["bg"] == Str("gray:90") && r["borderColor"] == Str("gray:80"))
    ensures colorMode != Str("light") && colorMode != Str("dark") ==> r == map[]
  {
    var boxShadow := Member(Member(colorStyle, "shadow"), "thick");
    var table := map[
      "light" := Obj(map[
        "color" := Str("black:primary"),
        "bg" := Str("white"),
        "borderWidth" := Num(1),
        "borderStyle" := Str("solid"),
        "borderColor" := Str("gray:30"),
        "boxShadow" := boxShadow
      ]),
      "dark" := Obj(map[
        "color" := Str("white:primary"),
        "bg" := Str("gray:90"),
        "borderWidth" := Num(1),
        "borderStyle" := Str("solid"),
        "borderColor" := Str("gray:80"),
        "boxShadow" := boxShadow
      ])
    ];
    IndexPlainNames(table, colorMode);
    Spread(Index(table, colorMode))
  }

  /** The placement part of the content style, as spread: "center" centres the
      box with automatic margins and any other placement adds nothing. */
  function ContentPlacementStyle(placement: Value): (r: Props)
    ensures r.Keys <= {"margin"}
    ensures placement == Str("center") ==> r == map["margin" := Str("auto")]
    ensures placement != Str("center") ==> r == map[]
  {
    var table := map["center" := Obj(map["margin" := Str("auto")])];
    IndexPlainNames(table, placement);
    Spread(Index(table, placement))
  }

  /** The size part of the content style, as spread. An `undefined` size means
      "auto"; a size the table does not name adds nothing. */
  function ContentSizeStyle(scrollBehavior: Value, size: Value): (r: Props)
    ensures r.Keys <= SizeKeys
    ensures !KnownSize(size) ==> r == map[]
  {
    // a destructuring default replaces `undefined` only
    var size := if size == Undefined then DefaultSize else size;
    var table := SizeTable(scrollBehavior);
    IndexPlainNames(table, size);
    Spread(Index(table, size))
  }

  /** Without a size, or with "auto", the content takes its natural width and
      height, capped at the viewport exactly when it scrolls inside (the caps
      are present but `undefined` otherwise). */
  lemma ContentSizeAuto(scrollBehavior: Value, size: Value)
    requires size == Undefined || size == Str("auto")
    ensures var r := ContentSizeStyle(scrollBehavior, size);
      && r.Keys == {"width", "height", "maxWidth", "maxHeight"}
      && r["width"] == Str("auto") && r["height"] == Str("auto")
      && (r["maxWidth"] == Str("100vw") <==> scrollBehavior == Str("inside"))
      && (r["maxHeight"] == Str("100vh") <==> scrollBehavior == Str("inside"))
      && (scrollBehavior != Str("inside") ==> r["maxWidth"] == Undefined && r["maxHeight"] == Undefined)
  {
    assert ContentSizeStyle(scrollBehavior, size) == ContentSizeStyle(scrollBehavior, Str("auto"));
  }

  /** The five fixed sizes set a width of 352, 512, 672, 832 or 992, a minimum
      height of 240 for "xs" and 320 for the others, and cap the height at 80%
      of the viewport exactly when the content scrolls inside. */
  lemma ContentSizeFixed(scrollBehavior: Value, size: Value)
    requires size in FixedSizes
    ensures var r := ContentSizeStyle(scrollBehavior, size);
      && r.Keys == {"width", "minHeight", "maxHeight"}
      && (size == Str("xs") ==> r["width"] == Num(352) && r["minHeight"] == Num(240))
      && (size == Str("sm") ==> r["width"] == Num(512) && r["minHeight"] == Num(320))
      && (size == Str("md") ==> r["width"] == Num(672) && r["minHeight"] == Num(320))
      && (size == Str("lg") ==> r["width"] == Num(832) && r["minHeight"] == Num(320))
      && (size == Str("xl") ==> r["width"] == Num(992) && r["minHeight"] == Num(320))
      && (r["maxHeight"] == Str("80vh") <==> scrollBehavior == Str("inside"))
      && (scrollBehavior != Str("inside") ==> r["maxHeight"] == Undefined)
  {
  }

  /** "full" fills the width and stretches the height, capped at the viewport
      exactly when the content scrolls inside. */
  lemma ContentSizeFull(scrollBehavior: Value)
    ensures var r := ContentSizeStyle(scrollBehavior, Str("full"));
      && r.Keys == {"width", "minHeight", "maxWidth", "maxHeight"}
      && r["width"] == Str("100%") && r["minHeight"] == Str("stretch")
      && (r["maxWidth"] == Str("100vw") <==> scrollBehavior == Str("inside"))
      && (r["maxHeight"] == Str("100vh") <==> scrollBehavior == Str("inside"))
      && (scrollBehavior != Str("inside") ==> r["maxWidth"] == Undefined && r["maxHeight"] == Undefined)
  {
  }

  /** The size table: one entry per size name; its `maxHeight` and `maxWidth`
      depend on whether the content scrolls inside. */
  function SizeTable(scrollBehavior: Value): (t: Props)
    ensures t.Keys == {"xs", "sm", "md", "lg", "xl", "full", "auto"}
  {
    var inside := scrollBehavior == Str("inside");
    var fixedMaxHeight := if inside then Str("80vh") else Undefined;
    map[
      "xs" := Obj(map["width" := Num(352), "minHeight" := Num(240), "maxHeight" := fixedMaxHeight]),
      "sm" := Obj(map["width" := Num(512), "minHeight" := Num(320), "maxHeight" := fixedMaxHeight]),
      "md" := Obj(map["width" := Num(672), "minHeight" := Num(320), "maxHeight" := fixedMaxHeight]),
      "lg" := Obj(map["width" := Num(832), "minHeight" := Num(320), "maxHeight" := fixedMaxHeight]),
      "xl" := Obj(map["width" := Num(992), "minHeight" := Num(320), "maxHeight" := fixedMaxHeight]),
      "full" := Obj(map[
        "maxWidth" := if inside then Str("100vw") else Undefined,
        "maxHeight" := if inside then Str("100vh") else Undefined,
        "minHeight" := Str("stretch"),
        "width" := Str("100%")
      ]),
      "auto" := Obj(map[
        "width" := Str("auto"),
        "height" := Str("auto"),
        "maxWidth" := if inside then Str("100vw") else Undefined,
        "maxHeight" := if inside then Str("100vh") else Undefined
      ])
    ]
  }

  /** The content style: base, colour mode, placement and size spread in that
      order. No later part writes a base key, so the base style is there
      whatever the inputs. */
  function ContentStyle(colorMode: Value, colorStyle: Value, placement: Value, scrollBehavior: Value, size: Value): (r: Props)
    ensures BaseKeys <= r.Keys
    ensures r["display"] == Str("flex") && r["flexDirection"] == Str("column")
    ensures r["overflow"] == Str("clip") && r["position"] == Str("relative")
  {
    var baseStyle := ContentBaseStyle();
    var colorModeStyle := ContentColorModeStyle(colorMode, colorStyle);
    var placementStyle := ContentPlacementStyle(placement);
    var sizeStyle := ContentSizeStyle(scrollBehavior, size);
    KeyGroupsDisjoint();
    MergeDisjoint4(baseStyle, colorModeStyle, placementStyle, sizeStyle);
    Merge(Merge(Merge(baseStyle, colorModeStyle), placementStyle), sizeStyle)
  }

  /** The four parts of the content style write disjoint keys, so every key of
      every part comes through the spread unchanged and nothing else is added. */
  lemma ContentStyleKeepsParts(colorMode: Value, colorStyle: Value, placement: Value, scrollBehavior: Value, size: Value)
    ensures var r := ContentStyle(colorMode, colorStyle, placement, scrollBehavior, size);
            var color := ContentColorModeStyle(colorMode, colorStyle);
            var place := ContentPlacementStyle(placement);
            var sized := ContentSizeStyle(scrollBehavior, size);
      && r.Keys == BaseKeys + color.Keys + place.Keys + sized.Keys
      && (forall k :: k in color ==> r[k] == color[k])
      && (forall k :: k in place ==> r[k] == place[k])
      && (forall k :: k in sized ==> r[k] == sized[k])
  {
    KeyGroupsDisjoint();
    MergeDisjoint4(ContentBaseStyle(), ContentColorModeStyle(colorMode, colorStyle),
                   ContentPlacementStyle(placement), ContentSizeStyle(scrollBehavior, size));
  }

  /** A placement other than "center" styles the content exactly as no
      placement at all. */
  lemma ContentOnlyCenterPlacementCounts(colorMode: Value, colorStyle: Value, placement: Value, scrollBehavior: Value, size: Value)
    requires placement != Str("center")
    ensures ContentStyle(colorMode, colorStyle, placement, scrollBehavior, size)
         == ContentStyle(colorMode, colorStyle, Undefined, scrollBehavior, size)
  {
  }

  /** The colour style reaches the colour-mode part only through its thick
      shadow. */
  lemma ColorModeStyleOnlyShadow(colorMode: Value, style1: Value, style2: Value)
    ensures ContentColorModeStyle(colorMode, style1).Keys == ContentColorModeStyle(colorMode, style2).Keys
    ensures forall k :: k in ContentColorModeStyle(colorMode, style1) && k != "boxShadow" ==>
      ContentColorModeStyle(colorMode, style1)[k] == ContentColorModeStyle(colorMode, style2)[k]
  {
  }

  /** Leaving the size out is the same as asking for "auto". */
  lemma ContentDefaultSizeIsAuto(colorMode: Value, colorStyle: Value, placement: Value, scrollBehavior: Value)
    ensures ContentStyle(colorMode, colorStyle, placement, scrollBehavior, Undefined)
         == ContentStyle(colorMode, colorStyle, placement, scrollBehavior, Str("auto"))
  {
    assert ContentSizeStyle(scrollBehavior, Undefined) == ContentSizeStyle(scrollBehavior, Str("auto"));
  }

  /** The close button: its colour follows the colour mode; pressing and
      focusing keep the base colour, focus-and-hover takes the hover colour, and
      both focus states draw the same border and inset ring in the theme's
      `blue:60`. */
  function CloseButtonStyle(colorMode: Value, theme: Props): (r: Props)
    ensures var focusBorderColor := LodashGet(Get(theme, "colors"), "blue:60");
      && {"color", "_hover", "_active", "_focus", "_focusHover", "_focusActive"} <= r.Keys
      && Member(r["_active"], "color") == r["color"]
      && Member(r["_focus"], "color") == r["color"]
      && Member(r["_focusActive"], "color") == r["color"]
      && Member(r["_focusHover"], "color") == Member(r["_hover"], "color")
      && Member(r["_focus"], "borderColor") == Member(r["_focusActive"], "borderColor") == focusBorderColor
      && Member(r["_focus"], "boxShadow") == Member(r["_focusActive"], "boxShadow")
         == Str("inset 0 0 0 1px " + ToString(focusBorderColor))
    ensures colorMode == Str("dark") ==>
      r["color"] == Str("white:tertiary") && Member(r["_hover"], "color") == Str("white:emphasis")
    ensures colorMode == Str("light") ==>
      r["color"] == Str("black:tertiary") && Member(r["_hover"], "color") == Str("black:primary")
    ensures colorMode != Str("dark") && colorMode != Str("light") ==>
      r["color"] == Undefined && Member(r["_hover"], "color") == Undefined
  {
    var colors := Get(theme, "colors");
    var color := Index(map["dark" := Str("white:tertiary"), "light" := Str("black:tertiary")], colorMode);
    var hoverColor := Index(map["dark" := Str("white:emphasis"), "light" := Str("black:primary")], colorMode);
    var activeColor := color;
    var focusColor := color;
    var focusHoverColor := hoverColor;
    var focusActiveColor := activeColor;
    var focusBorderColor := LodashGet(colors, "blue:60");
    map[
      "position" := Str("absolute"),
      "top" := Str("2x"),
      "right" := Str("2x"),
      "border" := Num(1),
      "borderColor" := Str("transparent"),
      "color" := color,
      "transition" := Str("all .2s"),
      "lineHeight" := Num(1),
      "height" := Str("8x"),
      "width" := Str("8x"),
      "minWidth" := Str("8x"),
      "px" := Num(0),
      "py" := Num(0),
      "_hover" := Obj(map["color" := hoverColor]),
      "_active" := Obj(map["color" := activeColor]),
      "_focus" := Obj(map[
        "borderColor" := focusBorderColor,
        "boxShadow" := Str("inset 0 0 0 1px " + ToString(focusBorderColor)),
        "color" := focusColor
      ]),
      "_focusHover" := Obj(map["color" := focusHoverColor]),
      "_focusActive" := Obj(map[
        "borderColor" := focusBorderColor,
        "boxShadow" := Str("inset 0 0 0 1px " + ToString(focusBorderColor)),
        "color" := focusActiveColor
      ])
    ]
  }

  /** The header pads its title (more on the right, to leave room for the
      close button) and is the positioning parent of the close button. */
  function HeaderStyle(): (r: Props)
    ensures r.Keys == {"pt", "pb", "pl", "pr", "position", "fontSize", "lineHeight"}
    ensures r["position"] == Str("relative")
    ensures r["pt"] == Str("4x") && r["pb"] == r["pl"] == Str("6x") && r["pr"] == Str("12x")
    ensures r["fontSize"] == r["lineHeight"] == Str("xl")
  {
    map[
      "pt" := Str("4x"),
      "pb" := Str("6x"),
      "pl" := Str("6x"),
      "pr" := Str("12x"),
      "position" := Str("relative"),
      "fontSize" := Str("xl"),
      "lineHeight" := Str("xl")
    ]
  }

  /** The body grows to fill the content box and scrolls vertically exactly
      when the content scrolls inside. */
  function BodyStyle(theme: Props, scrollBehavior: Value): (r: Props)
    ensures {"px", "pb", "flex", "height", "overflowY", "_firstOfType"} == r.Keys
    ensures r["overflowY"] == Str("auto") <==> scrollBehavior == Str("inside")
    ensures scrollBehavior != Str("inside") ==> r["overflowY"] == Undefined
    ensures r["flex"] == Num(1) && r["height"] == Str("auto")
  {
    var sizes := Get(theme, "sizes");
    var lineHeights := Get(theme, "lineHeights");
    map[
      "px" := Str("6x"),
      "pb" := Str("6x"),
      "flex" := Num(1),
      "height" := Str("auto"),
      "overflowY" := if scrollBehavior == Str("inside") then Str("auto") else Undefined,
      "_firstOfType" := Obj(map[
        "marginTop" := Str("calc(" + ToString(LodashGet(sizes, "4x")) + " + "
                          + ToString(LodashGet(lineHeights, "xl")) + " + "
                          + ToString(LodashGet(sizes, "3x")) + ")")
      ])
    ]
  }

  /** The footer lays its buttons out to the right, under a faint top border
      whose colour follows the colour mode. */
  function FooterStyle(colorMode: Value, theme: Props): (r: Props)
    ensures {"display", "justifyContent", "px", "py", "borderTop", "borderTopColor", "_firstOfType"} == r.Keys
    ensures r["display"] == Str("flex") && r["justifyContent"] == Str("flex-end")
    ensures colorMode == Str("dark") ==> r["borderTopColor"] == Str("rgba(255, 255, 255, 0.12)")
    ensures colorMode == Str("light") ==> r["borderTopColor"] == Str("rgba(0, 0, 0, 0.12)")
    ensures colorMode != Str("dark") && colorMode != Str("light") ==> r["borderTopColor"] == Undefined
  {
    var sizes := Get(theme, "sizes");
    var lineHeights := Get(theme, "lineHeights");
    var borderColor := Index(map[
      "dark" := Str("rgba(255, 255, 255, 0.12)"),
      "light" := Str("rgba(0, 0, 0, 0.12)")
    ], colorMode);
    map[
      "display" := Str("flex"),
      "justifyContent" := Str("flex-end"),
      "px" := Str("6x"),
      "py" := Str("4x"),
      "borderTop" := Num(1),
      "borderTopColor" := borderColor,
      "_firstOfType" := Obj(map[
        "marginTop" := Str("calc(" + ToString(LodashGet(sizes, "4x")) + " + "
                          + ToString(LodashGet(lineHeights, "xl")) + " + "
                          + ToString(LodashGet(sizes, "3x")) + ")")
      ])
    ]
  }

  /** Whichever of body and footer comes first gets the same top margin: the
      header's top padding `4x`, its line height `xl` and bottom padding `3x`
      from the theme, added in that order inside one `calc()`. */
  lemma FirstOfTypeMarginsAgree(theme: Props, scrollBehavior: Value, colorMode: Value)
    ensures Member(BodyStyle(theme, scrollBehavior)["_firstOfType"], "marginTop")
         == Member(FooterStyle(colorMode, theme)["_firstOfType"], "marginTop")
         == Str("calc(" + ToString(Member(Get(theme, "sizes"), "4x")) + " + "
                + ToString(Member(Get(theme, "lineHeights"), "xl")) + " + "
                + ToString(Member(Get(theme, "sizes"), "3x")) + ")")
  {
  }
}
