/**
  The interactivity style-prop registry: the table of style props that the
  interactivity style function recognises, each with the rule the style engine
  applies to it.
 */
module Interactivity {
  import opened Js

  /** How a registry entry is written: `true` (the shorthand) or an object
      naming the output CSS property and, optionally, the theme scale. */
  datatype Rule =
    | Shorthand
    | Style(property: string, scale: Option<string>)

  /** The theme scale a rule resolves values against, if any. */
  function ScaleOf(rule: Rule): Option<string> {
    match rule
    case Shorthand => None
    case Style(_, scale) => scale
  }

  /** The registry, a constant built once. */
  const Config: map<string, Rule> := map[
    "appearance" := Shorthand,
    "caretColor" := Style("caretColor", Some("colors")),
    "cursor" := Shorthand,
    "pointerEvents" := Shorthand,
    "resize" := Shorthand,
    "userSelect" := Shorthand
  ]

  /** The six prop names the registry knows. */
  const Names: set<string> :=
    {"appearance", "caretColor", "cursor", "pointerEvents", "resize", "userSelect"}

  /** Looking a prop name up in the registry: a rule for exactly the six
      registered names, `caretColor` mapped to the `colors` scale, and the other
      five registered with the shorthand and no scale. */
  function Lookup(name: string): (r: Option<Rule>)
    ensures r.Some? <==> name in Names
    ensures name == "caretColor" ==> r == Some(Style("caretColor", Some("colors")))
    ensures name in Names && name != "caretColor" ==> r == Some(Shorthand) && ScaleOf(r.value) == None
  {
    if name in Config then Some(Config[name]) else None
  }

  /** The registry has exactly six entries. */
  lemma ConfigSize()
    ensures Config.Keys == Names
    ensures |Config| == 6
  {
    assert Config.Keys == Names;
    assert |Names| == 6 by {
      var five := Names - {"userSelect"};
      var four := five - {"resize"};
      var three := four - {"pointerEvents"};
      var two := three - {"cursor"};
      assert two == {"appearance", "caretColor"};
    }
  }

  /** Only `caretColor` resolves against a theme scale. */
  lemma OnlyCaretColorHasScale(name: string)
    requires name in Config
    ensures ScaleOf(Config[name]).Some? <==> name == "caretColor"
  {
  }
}
