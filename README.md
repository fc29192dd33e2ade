# Modal, tab and input-addon props in tonic-ui, modelled in Dafny

This project models the table-driven code in tonic-ui's React package that decides
which style props and attributes a component hands to the layer that renders it:

- the modal style producers (`useModalContainerStyle` … `useModalFooterStyle`):
  object literals, tables keyed by colour mode, placement or size, and
  object spreads (module `ModalStyles`);
- the attribute computation of `Tab` and `TabPanel`: selection, the ids that
  link a tab to its panel, ARIA attributes, `tabIndex`, and the order of the
  prop spreads (modules `Tab` and `TabPanel`);
- the size and variant fallback of `InputGroupAddon` and its forwarded props
  (module `InputGroupAddon`);
- the interactivity style-prop registry (module `Interactivity`).

All of this code is pure, so the model is made of functions and lemmas. Module
`Js` holds the pieces of JavaScript semantics the code relies on. A value is
`undefined`, `null`, a boolean, an integer, a string or an object. Props are a
map from property name to value. `{ ...a, ...b }` is `Merge(a, b)`, where the
later object wins. Spreading a non-object adds nothing. `a ?? b` is `Coalesce`.
`v?.k` is `Member`. `${v}` is `ToString`. `table[key]` on an object literal is
`Index`: the key is first turned into a property name, so a `null` size looks
up `"null"` and finds nothing. A key written with the value `undefined` stays in
the object with that value, as object spread keeps it.

What the React hooks return is passed in as parameters: the colour mode, the
colour style, the theme, the tabs context, the input-group context and the
style props of `useTabStyle`, `useTabPanelStyle` and `useInputGroupAddonStyle`.
`config.name` is the `configName` parameter. lodash `get` with a key that
contains no `.` or `[` reads one property (`Js.LodashGet`).

## Model

| member | source | states |
|---|---|---|
| `ModalStyles.ContainerStyle` | packages/react/src/modal/styles.js:8-19 | the container is fixed, pinned to all four edges at 0, a flex box that scrolls (`overflow` auto), at z-index `modal` |
| `ModalStyles.OverlayStyle` | packages/react/src/modal/styles.js:21-36 | the overlay fills its parent at (0, 0); its background is 'rgba(0, 0, 0, .7)' for both `dark` and `light` and `undefined` for any other colour mode |
| `ModalStyles.OverlayModeAffectsOnlyBackground` | packages/react/src/modal/styles.js:22-35 | every overlay key except `backgroundColor` is the same for any two colour modes |
| `ModalStyles.ContentBaseStyle` | packages/react/src/modal/styles.js:45-50 | the base of the content: `display` flex, `flexDirection` column, `overflow` clip, `position` relative |
| `ModalStyles.ContentColorModeStyle` | packages/react/src/modal/styles.js:51-68 | light: black:primary text on white with a gray:30 border; dark: white:primary on gray:90 with a gray:80 border; both: `borderWidth` 1, `borderStyle` solid and `boxShadow` = `colorStyle?.shadow?.thick`; any other mode: no key at all |
| `ModalStyles.ColorModeStyleOnlyShadow` | packages/react/src/modal/styles.js:51-68 | two colour styles give the same colour-mode part except for `boxShadow` |
| `ModalStyles.ContentPlacementStyle` | packages/react/src/modal/styles.js:69-74 | placement 'center' adds exactly `margin: 'auto'`; any other placement adds nothing |
| `ModalStyles.ContentSizeStyle` | packages/react/src/modal/styles.js:75-124 | the size part writes only width/height/min/max keys; a size the table does not name (including `null`) adds nothing |
| `ModalStyles.ContentSizeAuto` | packages/react/src/modal/styles.js:118-123 | no size or 'auto': `width` and `height` 'auto', `maxWidth` '100vw' and `maxHeight` '100vh' exactly when scrollBehavior is 'inside', otherwise both present and `undefined` |
| `ModalStyles.ContentSizeFixed` | packages/react/src/modal/styles.js:76-100 | xs/sm/md/lg/xl: `width` 352/512/672/832/992, `minHeight` 240 for xs and 320 otherwise, `maxHeight` '80vh' exactly when scrollBehavior is 'inside', otherwise `undefined` |
| `ModalStyles.ContentSizeFull` | packages/react/src/modal/styles.js:101-117 | full: `width` '100%', `minHeight` 'stretch', `maxWidth` '100vw' and `maxHeight` '100vh' exactly when scrollBehavior is 'inside' |
| `ModalStyles.KeyGroupsDisjoint` | packages/react/src/modal/styles.js:45-124 | the base, colour-mode, placement and size parts write to pairwise different keys |
| `ModalStyles.ContentStyle` | packages/react/src/modal/styles.js:126-131 | `display` flex, `flexDirection` column, `overflow` clip and `position` relative are in the content style whatever the mode, placement, size or scroll behaviour |
| `ModalStyles.ContentStyleKeepsParts` | packages/react/src/modal/styles.js:126-131 | the spread of base, colour mode, placement and size keeps every key of every part with its value and adds no other key |
| `ModalStyles.ContentOnlyCenterPlacementCounts` | packages/react/src/modal/styles.js:69-74 | any placement other than 'center' gives the same content style as no placement |
| `ModalStyles.ContentDefaultSizeIsAuto` | packages/react/src/modal/styles.js:38-42 | leaving the size out gives the same content style as size 'auto' |
| `ModalStyles.CloseButtonStyle` | packages/react/src/modal/styles.js:134-185 | `_active`, `_focus` and `_focusActive` keep the base colour; `_focusHover` takes the hover colour; `_focus` and `_focusActive` share the border colour `colors['blue:60']` and the ring 'inset 0 0 0 1px ' + that colour; base and hover colours per mode, `undefined` in any other mode |
| `ModalStyles.HeaderStyle` | packages/react/src/modal/styles.js:187-197 | the header pads 4x/6x/6x/12x (top/bottom/left/right), is positioned relative and uses the `xl` font size and line height |
| `ModalStyles.BodyStyle` | packages/react/src/modal/styles.js:199-216 | the body fills (`flex` 1, height auto); `overflowY` is 'auto' exactly when scrollBehavior is 'inside', otherwise present and `undefined` |
| `ModalStyles.FooterStyle` | packages/react/src/modal/styles.js:218-239 | the footer is a flex row aligned to the end; its top border colour is the light or dark translucent colour, `undefined` in any other mode |
| `ModalStyles.FirstOfTypeMarginsAgree` | packages/react/src/modal/styles.js:204-237 | body and footer give `_firstOfType` the same `marginTop`: `calc(` sizes 4x ` + ` lineHeights xl ` + ` sizes 3x `)`, in that order |
| `Tab.TabAttributes` | packages/react/src/tabs/Tab.js:19-33 | `id` is name + ':Tab-' + value and `aria-controls` name + ':TabPanel-' + value; `aria-selected` is whether the context value `===` the tab's value; `tabIndex` is 0 exactly when selected and -1 otherwise; `aria-disabled` and `disabled` are the `disabled` prop; `role` is 'tab' |
| `Tab.TabProps` | packages/react/src/tabs/Tab.js:24-36 | attributes, then style props, then the remaining props: a remaining prop wins over both, a style prop wins over an attribute, an attribute neither overrides is kept; `disabled` can only be overridden by the style props |
| `TabPanel.PanelAttributes` | packages/react/src/tabs/TabPanel.js:19-31 | `id` is name + ':TabPanel-' + value and `aria-labelledby` name + ':Tab-' + value; `aria-hidden` is exactly "not selected"; `tabIndex` is always -1; `role` is 'tabpanel' |
| `TabPanel.PanelProps` | packages/react/src/tabs/TabPanel.js:24-36 | attributes, then style props, then the remaining props, with later sources winning; `children` is always the panel's own `children` prop |
| `TabPanel.TabControlsPanel` | packages/react/src/tabs/TabPanel.js:20-28 | for the same name and value, the panel's `id` is the tab's `aria-controls` |
| `TabPanel.PanelLabelledByTab` | packages/react/src/tabs/TabPanel.js:20-26 | for the same name and value, the panel's `aria-labelledby` is the tab's `id` |
| `TabPanel.FocusableTabShowsPanel` | packages/react/src/tabs/TabPanel.js:19-27 | for any context, a tab has `tabIndex` 0 exactly when the panel with the same value has `aria-hidden` false |
| `TabPanel.RenderedIdsMatch` | packages/react/src/tabs/TabPanel.js:24-33 | the two-way id link survives the prop spreads when no style prop or caller prop overrides those keys |
| `TabPanel.DistinctValuesDistinctIds` | packages/react/src/tabs/TabPanel.js:20-21 | two different string values, or two different numbers, give different tab ids and different panel ids |
| `TabPanel.TabIdIsNeverPanelId` | packages/react/src/tabs/TabPanel.js:20-21 | under one name, no tab id equals any panel id |
| `TabPanel.NumberAndStringShareIds` | packages/react/src/tabs/TabPanel.js:19-21 | the number 1 and the string '1' give the same panel `id`, the same `aria-labelledby` and the same tab `id`, yet only one of them is selected when the context value is 1 |
| `Js.NatToDecimalInjective` | packages/react/src/tabs/Tab.js:20-21 | different non-negative numbers render to different text in a template string |
| `Js.Merge` | packages/react/src/tabs/Tab.js:34-35 | a spread keeps the keys of both objects, and on a shared key the later object wins |
| `InputGroupAddon.ResolveSize` | packages/react/src/input/InputGroupAddon.js:17-22 | the addon's size if not null/undefined, else the group's size if not null/undefined, else 'md'; never null or undefined |
| `InputGroupAddon.ResolveVariant` | packages/react/src/input/InputGroupAddon.js:17-23 | the same chain for the variant, with 'outline' last; never null or undefined |
| `InputGroupAddon.AddonProps` | packages/react/src/input/InputGroupAddon.js:9-31 | `size` and `variant` are not forwarded; the remaining props win over the style props for the resolved size and variant |
| `InputGroupAddon.MissingGroupIsEmptyGroup` | packages/react/src/input/InputGroupAddon.js:17-23 | outside any input group, an addon resolves and renders exactly as in a group with no size and no variant |
| `InputGroupAddon.FalsyValuesAreKept` | packages/react/src/input/InputGroupAddon.js:22-23 | '' , 0 and false given as the addon's own size or variant are kept, because `??` skips only null and undefined |
| `Interactivity.Lookup` | packages/react/src/shared/styled-system/config/interactivity.js:3-13 | a rule exists exactly for appearance, caretColor, cursor, pointerEvents, resize and userSelect; caretColor maps to property 'caretColor' on scale 'colors'; the other five are the `true` shorthand with no scale |
| `Interactivity.ConfigSize` | packages/react/src/shared/styled-system/config/interactivity.js:3-13 | the registry has exactly those six keys |
| `Interactivity.OnlyCaretColorHasScale` | packages/react/src/shared/styled-system/config/interactivity.js:4-12 | among the registered props, only caretColor has a theme scale |

## Left out

- The style engine (`system`, `Box`, `ButtonBase`) and the resolution of tokens such as 'gray:30' or '4x' against the theme are not part of this model. Token strings are opaque values, and the registry is modelled as a constant rather than as the argument of `system(config)`.
- React hooks and lodash are foreign calls. Their results are parameters, and `useInputGroupAddonStyle` is a function parameter of `AddonProps`.
- `ref` and `key` are handled by React itself and are not modelled.
- Object key order is not modelled. A spread decides which value a key has, and the model keeps exactly that.
- Js.StrictEquals: objects are compared by their contents, not by reference. Numbers are integers only, so NaN (never `===` itself) and fractions are outside the model.
- Js.ToString: renders every integer in plain decimal. JavaScript switches to exponent form from 1e21 upwards.
- Js.Index: names inherited from `Object.prototype` (such as 'constructor' or 'toString') read as `undefined` here. In JavaScript, `{ dark: …, light: … }['constructor']` is a function.
- Js.Spread: spreading a string, which would add one key per character, is not modelled. No code path modelled here spreads a string.
- Js.LodashGet: covers only keys without `.` or `[`, which are the only keys these files pass.
- `useTheme()` is destructured directly, so an absent theme would throw. The model takes the theme as an object.
- ModalStyles.ContentColorModeStyle: only the colour-mode part is proved to differ in nothing but `boxShadow` for two colour styles. The same statement about the whole content style follows from `ContentStyleKeepsParts` but is not stated as a separate lemma, because its proof was too costly.
- The modal, tab and portal components around these functions are not part of this model. They handle events, transitions, refs and DOM mounting.
