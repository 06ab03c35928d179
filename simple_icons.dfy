/** A model of the Simple Icons widget for Framer (simple-icons.tsx).

    The widget renders one brand icon from the `simple-icons` dataset.  Its pure
    part derives lookup keys, brand colours, fills and CDN URLs from strings; its
    imperative part builds the two option lists once, and reacts to property
    changes and fetch completions by mutating a DOM element and a container.
 */
module SimpleIcons {

  datatype Option<T> = None | Some(value: T)

  // ---------------------------------------------------------------------------
  // The dataset
  // ---------------------------------------------------------------------------

  /** One icon of the `simple-icons` package; `hex` has no leading '#'. */
  datatype IconRecord = IconRecord(slug: string, title: string, hex: string)

  /** The package's namespace object: its export names in iteration order, and
      the record each name is bound to. */
  datatype Dataset = Dataset(order: seq<string>, entries: map<string, IconRecord>)
  {
    /** `order` enumerates every export name exactly once. */
    ghost predicate Wf() {
      && (forall i :: 0 <= i < |order| ==> order[i] in entries)
      && (forall key :: key in entries ==> key in order)
      && (forall i, j :: 0 <= i < j < |order| ==> order[i] != order[j])
    }
  }

  /** `Object.values(icons)`: the records in iteration order. */
  function Values(d: Dataset): (values: seq<IconRecord>)
    requires d.Wf()
    ensures |values| == |d.order|
    ensures forall i :: 0 <= i < |values| ==> values[i] == d.entries[d.order[i]]
  {
    seq(|d.order|, i requires 0 <= i < |d.order| => d.entries[d.order[i]])
  }

  /** Every record of the dataset is enumerated, at the position of its key. */
  lemma ValuesCoverDataset(d: Dataset, key: string)
    requires d.Wf() && key in d.entries
    ensures exists i :: 0 <= i < |Values(d)| && d.order[i] == key && Values(d)[i] == d.entries[key]
  {
  }

  // ---------------------------------------------------------------------------
  // Catalog build (simple-icons.tsx:6-11)
  // ---------------------------------------------------------------------------

  /** The module-level loop that pushes each record's slug and title onto the
      two option lists of the icon control. */
  method BuildCatalog(d: Dataset) returns (iconSlugs: seq<string>, iconNames: seq<string>)
    requires d.Wf()
    ensures |iconSlugs| == |iconNames| == |d.order|
    ensures forall i :: 0 <= i < |d.order| ==>
              iconSlugs[i] == d.entries[d.order[i]].slug && iconNames[i] == d.entries[d.order[i]].title
  {
    var values := Values(d);
    iconSlugs, iconNames := [], [];
    for n := 0 to |values|
      invariant |iconSlugs| == |iconNames| == n
      invariant forall i :: 0 <= i < n ==> iconSlugs[i] == values[i].slug && iconNames[i] == values[i].title
    {
      iconSlugs := iconSlugs + [values[n].slug];
      iconNames := iconNames + [values[n].title];
    }
  }

  // ---------------------------------------------------------------------------
  // Key derivation (simple-icons.tsx:13-17)
  // ---------------------------------------------------------------------------

  predicate IsAsciiUpper(c: char) { 'A' <= c <= 'Z' }
  predicate IsAsciiLower(c: char) { 'a' <= c <= 'z' }

  /** `toUpperCase` on one character, restricted to ASCII letters. */
  function UpperAscii(c: char): (u: char)
    ensures IsAsciiLower(c) ==> IsAsciiUpper(u) && u as int == c as int - 32
    ensures !IsAsciiLower(c) ==> u == c
  {
    if IsAsciiLower(c) then (c as int - 32) as char else c
  }

  /** `String.prototype.toUpperCase`, restricted to ASCII letters. */
  function ToUpperAscii(s: string): (u: string)
    ensures |u| == |s|
    ensures forall i :: 0 <= i < |s| ==> u[i] == UpperAscii(s[i])
  {
    if |s| == 0 then "" else [UpperAscii(s[0])] + ToUpperAscii(s[1..])
  }

  /** `toLowerCase` on one character, restricted to ASCII letters. */
  function LowerAscii(c: char): (l: char)
    ensures IsAsciiUpper(c) ==> IsAsciiLower(l) && l as int == c as int + 32
    ensures !IsAsciiUpper(c) ==> l == c
  {
    if IsAsciiUpper(c) then (c as int + 32) as char else c
  }

  /** `slug.charAt(0)`: the first character, or "" for the empty slug. */
  function CharAt0(s: string): string {
    if |s| == 0 then "" else [s[0]]
  }

  /** `slug.slice(1)`: everything after the first character. */
  function Slice1(s: string): string {
    if |s| == 0 then "" else s[1..]
  }

  /** `getIconKey`: the export name under which the package binds a slug's record. */
  function IconKey(slug: string): (key: string)
    ensures |key| == |slug| + 2
    ensures key[..2] == "si"
    ensures |slug| > 0 ==> key[2] == UpperAscii(slug[0]) && key[3..] == slug[1..]
  {
    "si" + ToUpperAscii(CharAt0(slug)) + Slice1(slug)
  }

  /** The inverse of `IconKey` for slugs that do not start with a capital. */
  function SlugOfKey(key: string): (slug: Option<string>)
    ensures slug.Some? <==> |key| >= 2 && key[..2] == "si"
  {
    if |key| < 2 || key[..2] != "si" then None
    else if |key| == 2 then Some("")
    else Some([LowerAscii(key[2])] + key[3..])
  }

  /** A slug as the dataset has them: empty, or not starting with a capital. */
  predicate LowerInitial(slug: string) {
    |slug| == 0 || !IsAsciiUpper(slug[0])
  }

  lemma KeyRoundTrip(slug: string)
    requires LowerInitial(slug)
    ensures SlugOfKey(IconKey(slug)) == Some(slug)
  {
    var key := IconKey(slug);
    if |slug| > 0 {
      assert LowerAscii(UpperAscii(slug[0])) == slug[0];
      assert [LowerAscii(key[2])] + key[3..] == [slug[0]] + slug[1..] == slug;
    }
  }

  /** Distinct dataset slugs never share an export name. */
  lemma KeyInjective(a: string, b: string)
    requires LowerInitial(a) && LowerInitial(b)
    ensures IconKey(a) == IconKey(b) <==> a == b
  {
  }

  /** Without the lower-case assumption the key loses the first letter's case. */
  lemma KeyForgetsInitialCase()
    ensures IconKey("github") == IconKey("Github") == "siGithub"
  {
  }

  // ---------------------------------------------------------------------------
  // Brand colour lookup (simple-icons.tsx:19-22)
  // ---------------------------------------------------------------------------

  /** `getIconBrandColor`: `'#' + icons[getIconKey(slug)].hex`.  For a key that
      the package does not export the source dereferences `undefined` and
      throws; that is `None` here. */
  function BrandColor(d: Dataset, slug: string): (color: Option<string>)
    ensures color.Some? <==> IconKey(slug) in d.entries
    ensures color.Some? ==>
              && |color.value| == |d.entries[IconKey(slug)].hex| + 1
              && color.value[0] == '#'
              && color.value[1..] == d.entries[IconKey(slug)].hex
  {
    var key := IconKey(slug);
    if key in d.entries then Some("#" + d.entries[key].hex) else None
  }

  /** The package binds each record under the key derived from its own slug. */
  ghost predicate KeyedBySlug(d: Dataset) {
    forall key :: key in d.entries ==> key == IconKey(d.entries[key].slug)
  }

  /** Every slug offered by the icon control has a brand colour: that of its
      own record. */
  lemma CatalogSlugsHaveBrandColor(d: Dataset, i: int)
    requires d.Wf() && KeyedBySlug(d) && 0 <= i < |d.order|
    ensures BrandColor(d, Values(d)[i].slug) == Some("#" + Values(d)[i].hex)
  {
  }

  // ---------------------------------------------------------------------------
  // Fill resolution, URL and the `customColor` control (simple-icons.tsx:29-39,
  // 64, 73, 86-107)
  // ---------------------------------------------------------------------------

  const CUSTOM := "custom"

  /** The component's properties. */
  datatype Props = Props(icon: string, color: string, customColor: string)

  /** The default values of the three properties. */
  const DEFAULT_PROPS := Props("framer", "brand", "#757575")

  /** `hidden({color})` of the `customColor` control. */
  predicate CustomColorHidden(color: string): (hidden: bool)
    ensures hidden <==> color != CUSTOM
  {
    color != CUSTOM
  }

  /** The ternary `color === 'custom' ? customColor : brandColor`: the custom
      colour when its control is shown, the brand colour when it is hidden. */
  function ResolveFill(color: string, customColor: string, brandColor: string): (fill: string)
    ensures !CustomColorHidden(color) ==> fill == customColor
    ensures CustomColorHidden(color) ==> fill == brandColor
  {
    if color == CUSTOM then customColor else brandColor
  }

  /** The custom colour control is hidden exactly when the custom colour has no
      say in the fill, and shown exactly when it alone decides the fill. */
  lemma HiddenExactlyWhenIgnored(color: string)
    ensures CustomColorHidden(color) <==> forall c, b :: ResolveFill(color, c, b) == b
    ensures !CustomColorHidden(color) <==> forall c, b :: ResolveFill(color, c, b) == c
  {
    if !CustomColorHidden(color) {
      assert ResolveFill(color, "a", "b") != "b";
    } else {
      assert ResolveFill(color, "a", "b") != "a";
    }
  }

  /** The fill a render of the widget applies.  A render computes the brand
      colour first, so an unknown icon throws (`None`) whatever the colour. */
  function EffectiveFill(d: Dataset, p: Props): (fill: Option<string>)
    ensures fill.Some? <==> IconKey(p.icon) in d.entries
    ensures fill.Some? && p.color == CUSTOM ==> fill.value == p.customColor
    ensures fill.Some? && p.color != CUSTOM ==> fill == BrandColor(d, p.icon)
  {
    match BrandColor(d, p.icon)
    case None => None
    case Some(brand) => Some(ResolveFill(p.color, p.customColor, brand))
  }

  /** In custom mode the fill does not depend on the icon (among known icons);
      in any other mode it does not depend on the custom colour. */
  lemma FillIndependence(d: Dataset, p: Props, q: Props)
    requires IconKey(p.icon) in d.entries && IconKey(q.icon) in d.entries
    ensures (p.color == q.color == CUSTOM && p.customColor == q.customColor) ==>
              EffectiveFill(d, p) == EffectiveFill(d, q)
    ensures (p.color != CUSTOM && q.color != CUSTOM && p.icon == q.icon) ==>
              EffectiveFill(d, p) == EffectiveFill(d, q)
  {
  }

  const CDN_PREFIX := "https://cdn.jsdelivr.net/npm/simple-icons@latest/icons/"
  const SVG_SUFFIX := ".svg"

  /** The jsDelivr URL of an icon's SVG file. */
  function IconUrl(icon: string): (url: string)
    ensures |url| == |CDN_PREFIX| + |icon| + |SVG_SUFFIX|
    ensures url[..|CDN_PREFIX|] == CDN_PREFIX
    ensures url[|CDN_PREFIX|..|CDN_PREFIX| + |icon|] == icon
    ensures url[|url| - |icon| - |SVG_SUFFIX|..] == icon + SVG_SUFFIX
  {
    CDN_PREFIX + icon + SVG_SUFFIX
  }

  /** The icon an URL of the CDN layout names, if it has that layout. */
  function IconOfUrl(url: string): (icon: Option<string>)
    ensures icon.Some? ==> |icon.value| == |url| - |CDN_PREFIX| - |SVG_SUFFIX|
  {
    if |url| >= |CDN_PREFIX| + |SVG_SUFFIX|
       && url[..|CDN_PREFIX|] == CDN_PREFIX
       && url[|url| - |SVG_SUFFIX|..] == SVG_SUFFIX
    then Some(url[|CDN_PREFIX|..|url| - |SVG_SUFFIX|])
    else None
  }

  lemma UrlRoundTrip(icon: string)
    ensures IconOfUrl(IconUrl(icon)) == Some(icon)
  {
  }

  /** The URL, and hence the fetch effect, changes exactly when the icon does. */
  lemma UrlChangesExactlyWithIcon(a: string, b: string)
    ensures IconUrl(a) == IconUrl(b) <==> a == b
  {
  }

  /** A widget left at its defaults fetches framer.svg, paints it in Framer's
      brand colour and hides the custom colour control. */
  lemma DefaultsShowFramerInBrandColor(d: Dataset)
    ensures CustomColorHidden(DEFAULT_PROPS.color)
    ensures IconUrl(DEFAULT_PROPS.icon) == CDN_PREFIX + "framer.svg"
    ensures EffectiveFill(d, DEFAULT_PROPS) == BrandColor(d, "framer")
  {
  }

  // ---------------------------------------------------------------------------
  // The widget's effects as a state machine (simple-icons.tsx:39-78)
  // ---------------------------------------------------------------------------

  /** The `documentElement` that DOMParser yields for one fetched response.
      It is an `svg` element for an SVG body; for an HTTP error body or a
      malformed document it is the parser's error root instead. */
  class SvgElement {
    /** The URL whose response this element was parsed from. */
    const source: string
    /** The element is an `svg`, so `querySelector('svg')` matches it. */
    const isSvg: bool
    /** `style.fill` */
    var fill: string

    constructor (source: string, isSvg: bool)
      ensures this.source == source && this.isSvg == isSvg && fill == ""
    {
      this.source := source;
      this.isSvg := isSvg;
      fill := "";
    }
  }

  /** `querySelector('svg')` on the container: the index of the first svg
      child, or `|children|` when there is none. */
  function FirstSvg(children: seq<SvgElement>): (i: nat)
    ensures i <= |children|
    ensures forall j :: 0 <= j < i ==> !children[j].isSvg
    ensures i < |children| ==> children[i].isSvg
  {
    if |children| == 0 then 0
    else if children[0].isSvg then 0
    else 1 + FirstSvg(children[1..])
  }

  /** The container after `existingSvgElement.remove()`, when one was found. */
  function RemoveFirstSvg(children: seq<SvgElement>): (rest: seq<SvgElement>)
    ensures forall x :: x in children && !x.isSvg ==> x in rest
    ensures forall x :: x in rest ==> x in children
    ensures |rest| == if FirstSvg(children) < |children| then |children| - 1 else |children|
  {
    var i := FirstSvg(children);
    if i < |children| then children[..i] + children[i + 1..] else children
  }

  /** When at most the last child is an svg, removing the first svg leaves no
      svg at all, and only that last child can have gone. */
  lemma RemoveFirstSvgLeavesNone(children: seq<SvgElement>)
    requires forall j :: 0 <= j < |children| - 1 ==> !children[j].isSvg
    ensures forall j :: 0 <= j < |RemoveFirstSvg(children)| ==> !RemoveFirstSvg(children)[j].isSvg
    ensures RemoveFirstSvg(children) ==
              if |children| > 0 && children[|children| - 1].isSvg then children[..|children| - 1]
              else children
  {
  }

  /** One mounted instance of the component.  `pending` lists the URLs of the
      fetches issued and not yet settled; `children` the children of the
      `svgRef` container, in document order. */
  class Widget {
    const icons: Dataset
    var props: Props
    /** A render threw (unknown icon); React has unmounted the instance. */
    var crashed: bool
    var pending: seq<string>
    var svgElement: SvgElement?
    var children: seq<SvgElement>

    ghost predicate Valid()
      reads this
    {
      && (!crashed ==> IconKey(props.icon) in icons.entries)
      && (svgElement == null ==> children == [])
      && (svgElement != null ==> |children| > 0 && children[|children| - 1] == svgElement)
      && (forall j :: 0 <= j < |children| - 1 ==> !children[j].isSvg)
    }

    /** The fill of the current render. */
    function CurrentFill(): (fill: string)
      reads this
      requires Valid() && !crashed
      ensures EffectiveFill(icons, props) == Some(fill)
    {
      EffectiveFill(icons, props).value
    }

    /** The first render and the effects that run after it: the fetch effect
        issues a fetch; the other two find no element and do nothing. */
    constructor Mount(icons: Dataset, props: Props)
      ensures Valid()
      ensures this.icons == icons && this.props == props
      ensures crashed <==> IconKey(props.icon) !in icons.entries
      ensures pending == if crashed then [] else [IconUrl(props.icon)]
      ensures svgElement == null && children == []
    {
      this.icons := icons;
      this.props := props;
      var brand := BrandColor(icons, props.icon);
      crashed := brand.None?;
      pending := if brand.None? then [] else [IconUrl(props.icon)];
      svgElement := null;
      children := [];
    }

    /** A re-render with new properties.  The fetch effect runs when the URL
        changed; the re-colour effect runs when `color` or `customColor`
        changed, and only touches an element that is already there. */
    method SetProps(p: Props)
      requires Valid()
      modifies this, svgElement
      ensures Valid()
      ensures svgElement == old(svgElement) && children == old(children)
      ensures old(crashed) || IconKey(p.icon) !in icons.entries ==>
                && crashed && props == old(props) && pending == old(pending)
                && (svgElement != null ==> svgElement.fill == old(svgElement.fill))
      ensures !old(crashed) && IconKey(p.icon) in icons.entries ==>
                && !crashed && props == p
                && pending == if p.icon != old(props.icon) then old(pending) + [IconUrl(p.icon)]
                              else old(pending)
      ensures !old(crashed) && IconKey(p.icon) in icons.entries && svgElement != null ==>
                svgElement.fill == if p.color != old(props.color) || p.customColor != old(props.customColor)
                                   then CurrentFill() else old(svgElement.fill)
    {
      if crashed {
        return;
      }
      var brand := BrandColor(icons, p.icon);
      if brand.None? {
        crashed := true;
        return;
      }
      var oldProps := props;
      props := p;
      UrlChangesExactlyWithIcon(p.icon, oldProps.icon);
      if IconUrl(p.icon) != IconUrl(oldProps.icon) {
        pending := pending + [IconUrl(p.icon)];
      }
      if p.color != oldProps.color || p.customColor != oldProps.customColor {
        if svgElement != null {
          svgElement.fill := CurrentFill();
        }
      }
    }

    /** The k-th pending fetch resolves and its body parses to an element
        that is an svg or not (`isSvg`): `setSvgElement` with that element,
        whatever the current URL, then the mount effect removes the first svg
        in the container, colours the new element and appends it. */
    method ResolveFetch(k: nat, isSvg: bool)
      requires Valid() && k < |pending|
      modifies this
      ensures Valid()
      ensures pending == old(pending[..k] + pending[k + 1..])
      ensures props == old(props) && crashed == old(crashed)
      ensures old(crashed) ==> svgElement == old(svgElement) && children == old(children)
      ensures !old(crashed) ==>
                && svgElement != null && fresh(svgElement)
                && svgElement.source == old(pending[k]) && svgElement.isSvg == isSvg
                && svgElement.fill == CurrentFill()
                && children == RemoveFirstSvg(old(children)) + [svgElement]
      ensures forall x :: x in old(children) && !x.isSvg ==> x in children
      ensures !old(crashed) && old(svgElement) != null && old(svgElement).isSvg ==>
                children == old(children[..|children| - 1]) + [svgElement]
      ensures !old(crashed) && (old(svgElement) == null || !old(svgElement).isSvg) ==>
                children == old(children) + [svgElement]
    {
      var url := pending[k];
      pending := pending[..k] + pending[k + 1..];
      if crashed {
        return;
      }
      var fill := CurrentFill();
      var element := new SvgElement(url, isSvg);
      svgElement := element;
      RemoveFirstSvgLeavesNone(children);
      var existing := FirstSvg(children);
      if existing < |children| {
        children := children[..existing] + children[existing + 1..];
      }
      element.fill := fill;
      children := children + [element];
    }

    /** The k-th pending fetch rejects: an unhandled rejection, no state change. */
    method FailFetch(k: nat)
      requires Valid() && k < |pending|
      modifies this
      ensures Valid()
      ensures pending == old(pending[..k] + pending[k + 1..])
      ensures props == old(props) && crashed == old(crashed)
      ensures svgElement == old(svgElement) && children == old(children)
    {
      pending := pending[..k] + pending[k + 1..];
    }
  }

  /** The icon changes from github to framer; the framer fetch resolves first
      and the github fetch after it.  The widget then shows github while its
      `icon` property is framer: the last fetch to resolve wins. */
  method StaleFetchScenario(icons: Dataset) returns (shown: string, current: string)
    requires IconKey("github") in icons.entries && IconKey("framer") in icons.entries
    ensures current == "framer"
    ensures shown == IconUrl("github")
  {
    var w := new Widget.Mount(icons, Props("github", "brand", "#757575"));
    w.SetProps(Props("framer", "brand", "#757575"));
    assert w.pending == [IconUrl("github"), IconUrl("framer")];
    w.ResolveFetch(1, true);
    assert w.pending == [IconUrl("github")];
    w.ResolveFetch(0, true);
    shown := w.svgElement.source;
    current := w.props.icon;
  }

  /** The github fetch resolves with an error body, which parses to a non-svg
      root; after switching to framer its SVG resolves.  The removal finds no
      svg, so the container keeps the error element in front of the icon. */
  method ErrorBodyScenario(icons: Dataset) returns (childCount: nat, lastShown: string)
    requires IconKey("github") in icons.entries && IconKey("framer") in icons.entries
    ensures childCount == 2
    ensures lastShown == IconUrl("framer")
  {
    var w := new Widget.Mount(icons, Props("github", "brand", "#757575"));
    w.ResolveFetch(0, false);
    w.SetProps(Props("framer", "brand", "#757575"));
    assert w.pending == [IconUrl("framer")];
    w.ResolveFetch(0, true);
    childCount := |w.children|;
    lastShown := w.children[childCount - 1].source;
  }
}
