# Simple Icons widget for Framer — a Dafny model

The widget (`simple-icons.tsx`) renders one brand icon of the `simple-icons`
package inside Framer. This project models it in one Dafny module,
`SimpleIcons` (`simple_icons.dfy`), and proves properties of that model.

- **Dataset.** The package's namespace object is a `Dataset`. It holds the
  export names in iteration order and a map from each export name to an
  `IconRecord(slug, title, hex)`. `Values` is `Object.values(icons)`.
- **Catalog build.** `BuildCatalog` is the module-level loop. It pushes each
  record's slug and title onto the two option lists. The lists have equal
  length, and position `i` of both comes from the `i`-th record.
- **Key derivation.** `IconKey` is `getIconKey`: `"si"`, then the slug's first
  character upper-cased (ASCII only), then the rest of the slug. `SlugOfKey`
  inverts it for slugs that do not start with a capital letter, so distinct
  lower-case slugs get distinct keys.
- **Brand colour.** `BrandColor` is `getIconBrandColor`. It returns `None`
  where the source dereferences `undefined` and throws.
- **Fill, URL, control.** `ResolveFill` is the colour ternary. `EffectiveFill`
  is the fill of one render. `IconUrl` is the jsDelivr URL and `IconOfUrl` its
  inverse. `CustomColorHidden` is the `hidden` predicate of the `customColor`
  control, and `DEFAULT_PROPS` holds the three defaults.
- **Effects.** The three `useEffect` hooks become a class `Widget`, driven by
  events in sequence:
  - `Mount` is the first render. It issues the first fetch.
  - `SetProps` is a re-render with new properties. It issues a fetch when the
    URL changed. It re-colours the existing element when `color` or
    `customColor` changed.
  - `ResolveFetch(k, isSvg)` completes any pending fetch. Its body parses
    to an `svg` element, or to a non-svg root for an error body. It sets
    `svgElement` with no staleness check. It then removes the first svg in
    the container and appends the new element, coloured.
  - `FailFetch(k)` is a rejected fetch. It changes nothing else.

  Completions may come in any order. `StaleFetchScenario` shows that the last
  fetch to resolve decides the icon shown. An element parsed from an error body
  is never removed again: `RemoveFirstSvg` keeps every non-svg child, and
  `ResolveFetch` keeps every non-svg child it found. `ErrorBodyScenario` shows
  one such element beside the next icon.

### Notes on the code's behaviour

- Line 42 computes the brand colour on every render, before the ternary. So
  an unknown icon throws even when `color` is `"custom"`, and the custom
  colour decides the fill only for known icons. In the model, `EffectiveFill`
  is `None` for an unknown icon in both modes, and the `Widget` becomes
  `crashed`. React then unmounts the instance, so later events change nothing.
- The brand colour is `'#'` followed by whatever the record's `hex` holds.
  Nothing in the code checks its format, so the model assumes none. The
  browser's `style.fill` setter does check it: see "## Left out".
- The record of a slug is found only under the key that `getIconKey`
  derives from it.
- When `icon` and `color` change in one render, the re-colour effect paints
  the element still shown (the old icon) with the new render's fill. For any
  colour other than `"custom"`, that is the new icon's brand colour.
  `SetProps` states this.
- The code does not check the response status. The URL names the `@latest`
  package, so an icon the bundled dataset still lists may be gone upstream
  and give a 404. Its body parses to a root that is not an `svg`. With the
  `html` error root that Chromium and WebKit produce, that element is
  coloured and appended, and no later removal matches it.

## Model

| member | source | states |
|---|---|---|
| `SimpleIcons.Values` | simple-icons.tsx:8 | `Object.values` yields one record per export name, at that name's position in the iteration order |
| `SimpleIcons.ValuesCoverDataset` | simple-icons.tsx:8 | every record of the dataset appears in the enumeration, at the position of its key |
| `SimpleIcons.BuildCatalog` | simple-icons.tsx:6-11 | `iconSlugs` and `iconNames` both have one entry per record; position `i` of each holds the slug and the title of the same record, in iteration order |
| `SimpleIcons.UpperAscii` | simple-icons.tsx:15 | upper-casing maps `a`–`z` to `A`–`Z` and leaves every other character unchanged |
| `SimpleIcons.ToUpperAscii` | simple-icons.tsx:15 | `toUpperCase` keeps the length and upper-cases each character in place |
| `SimpleIcons.IconKey` | simple-icons.tsx:13-17 | the key is `"si"`, then the slug's first character upper-cased, then the rest of the slug unchanged; its length is the slug's plus 2 |
| `SimpleIcons.KeyRoundTrip` | simple-icons.tsx:13-17 | for a slug that does not start with a capital, the slug is recovered from its key |
| `SimpleIcons.KeyInjective` | simple-icons.tsx:13-17 | two slugs that do not start with a capital share a key if and only if they are equal |
| `SimpleIcons.KeyForgetsInitialCase` | simple-icons.tsx:15 | `github` and `Github` derive the same key `siGithub` |
| `SimpleIcons.BrandColor` | simple-icons.tsx:19-22 | the colour exists exactly when the derived key is exported; it is `'#'` followed by that record's hex, one character longer than the hex |
| `SimpleIcons.CatalogSlugsHaveBrandColor` | simple-icons.tsx:19-22 | when every record is exported under its own slug's key, each slug offered by the icon control has a brand colour: `'#'` plus its record's hex |
| `SimpleIcons.CustomColorHidden` | simple-icons.tsx:105-107 | the custom colour control is hidden exactly when `color` is not `"custom"` |
| `SimpleIcons.ResolveFill` | simple-icons.tsx:64 | the fill is the custom colour when its control is shown (`color` is `"custom"`) and the brand colour when it is hidden (any other `color` value) |
| `SimpleIcons.HiddenExactlyWhenIgnored` | simple-icons.tsx:105-107 | the custom colour control is hidden exactly when `color` is not `"custom"`, which is exactly when the custom colour has no effect on the fill; when shown, the custom colour alone decides the fill |
| `SimpleIcons.EffectiveFill` | simple-icons.tsx:42 | a render succeeds exactly when the icon's key is exported; its fill is then `customColor` when `color` is `"custom"`, and the icon's brand colour for any other `color` value |
| `SimpleIcons.FillIndependence` | simple-icons.tsx:64 | in custom mode the fill does not depend on which known icon is chosen; in any other mode it does not depend on `customColor` |
| `SimpleIcons.IconUrl` | simple-icons.tsx:39 | the URL is the jsDelivr prefix, then the icon, then `.svg`; it ends with the icon followed by `.svg` |
| `SimpleIcons.UrlRoundTrip` | simple-icons.tsx:39 | the icon is recovered from its URL |
| `SimpleIcons.UrlChangesExactlyWithIcon` | simple-icons.tsx:44-54 | the URL, the dependency of the fetch effect, changes exactly when the icon changes |
| `SimpleIcons.DefaultsShowFramerInBrandColor` | simple-icons.tsx:29-31 | with the defaults the widget fetches `framer.svg`, fills it with Framer's brand colour and hides the custom colour control |
| `SimpleIcons.SvgElement.constructor` | simple-icons.tsx:49-51 | a parsed response is a new element that remembers the URL it came from and whether its root is an `svg`, and has no fill yet |
| `SimpleIcons.FirstSvg` | simple-icons.tsx:58 | `querySelector('svg')` finds the first child that is an svg: none before it is one, and it is one unless no child is |
| `SimpleIcons.RemoveFirstSvg` | simple-icons.tsx:58-61 | removing the svg that `querySelector('svg')` finds keeps every non-svg child, adds nothing, and shortens the container by one exactly when it holds an svg |
| `SimpleIcons.RemoveFirstSvgLeavesNone` | simple-icons.tsx:58-61 | when only the last child can be an svg, removing the first svg leaves no svg, and removes that last child exactly when it is an svg |
| `SimpleIcons.Widget.CurrentFill` | simple-icons.tsx:73 | the fill of the current render is the effective fill of the current properties |
| `SimpleIcons.Widget.Mount` | simple-icons.tsx:28-54 | the first render throws exactly when the icon is unknown; otherwise exactly one fetch, for the icon's URL, is pending, and no element is shown |
| `SimpleIcons.Widget.SetProps` | simple-icons.tsx:70-76 | a re-render issues one fetch for the new URL exactly when the icon changed; it re-colours the existing element with the current fill exactly when `color` or `customColor` changed; it never changes the container's children or the element; an unknown icon crashes the widget and changes nothing else |
| `SimpleIcons.Widget.ResolveFetch` | simple-icons.tsx:46-68 | any pending fetch may resolve, to an svg or a non-svg element; its fresh element becomes `svgElement` whatever the current icon, filled with the current fill; the container loses its first svg, which can only be the element shown before, and gains the new element at the end; every non-svg child stays; no child but the last is ever an svg |
| `SimpleIcons.Widget.FailFetch` | simple-icons.tsx:46-53 | a rejected fetch leaves the pending list without it and changes nothing else |
| `SimpleIcons.StaleFetchScenario` | simple-icons.tsx:46-51 | after switching from github to framer, when the framer fetch resolves first and the github fetch second, github is shown while the `icon` property is framer |
| `SimpleIcons.ErrorBodyScenario` | simple-icons.tsx:46-66 | when the github fetch yields a non-svg element and the framer fetch then yields an svg, the container holds two children, the framer icon last |

## Left out

- The network fetch, `response.text()` and `DOMParser` are I/O and browser APIs. A resolved fetch yields a fresh element that carries only the URL it came from and whether its root is an `svg`; which bodies parse to which root is an input of the event. A hung fetch simply stays pending.
- SimpleIcons.Widget.ResolveFetch: a non-svg root that contains `svg` descendants is not modelled; `querySelector('svg')` would match such a descendant and remove it from inside that root. The model also assumes that every parsed root has an inline `style`. Gecko's `parsererror` root has none, so there `Object.assign` at line 63 throws and line 66 never appends the element.
- React's hook runtime, scheduling and rendering are not modelled, nor is `useRef`. Each event runs one re-render and the effects whose dependencies changed, in one step. The container is taken to exist, as it does once the component is mounted.
- Unmounting is modelled only through the crash of a render with an unknown icon. Prop changes and fetch completions after that change nothing, which is React's behaviour for an unmounted component.
- `querySelector('svg')` searches all descendants of the container. The model's container holds only the elements the effects append, svg or not. `querySelector('svg')` matches the first svg among them (`FirstSvg`). The detached state of a removed element is not tracked.
- `toUpperCase` is modelled for ASCII only. A non-ASCII first character of a slug is left unchanged, whereas full Unicode case mapping can change it or even lengthen it.
- SimpleIcons.IconKey: a string here is a sequence of Unicode scalar values, while `charAt(0)` and `slice(1)` work on UTF-16 code units. A slug starting with a character outside the Basic Multilingual Plane would split differently, and `|key| == |slug| + 2` counts scalar values, not code units.
- `console.log` (line 52) is output only.
- Styling beyond the single `fill` property is not modelled.
- `SvgElement.fill` is the last value the effects assign to `style.fill`. The browser ignores a value that is not a valid CSS paint and keeps the previous fill; that check is not modelled.
- The contents and packaging of the `simple-icons` dataset are abstract. No format of `hex` is assumed, and the iteration order is an input.
- Framer's `addPropertyControls` registration and its control UI (lines 82-109) are not modelled. The `hidden` predicate and the default values are.
