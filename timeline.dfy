/**
 * The Timeline container: the props a caller passes, the static defaults,
 * how each step child is resolved against the container (visual parameters
 * and activation), and the padding the container gives itself.
 *
 * JavaScript's `a || b` is modelled with explicit truthiness predicates:
 * an override wins only when it is truthy, so an override of `false`, `0`
 * or `""` falls back to the container's value.
 */
module Timeline {
  import opened Wrappers
  import opened Children

  /** A theme radius: a named size token such as "xl", or a number of pixels. */
  datatype Radius = Token(name: string) | Px(px: real)

  /** The side the line and bullets are drawn on. */
  datatype Align = Left | Right

  /** Per-part class names and styles, handed to every step untouched. */
  type ClassNames = map<string, string>
  type Styles = map<string, string>

  /** The container props as the caller passes them: any of them may be missing. */
  datatype TimelineProps = TimelineProps(
    active: Option<int>,
    color: Option<string>,
    radius: Option<Radius>,
    bulletSize: Option<real>,
    align: Option<Align>,
    lineWidth: Option<real>,
    reverseActive: Option<bool>,
    classNames: Option<ClassNames>,
    styles: Option<Styles>)

  /** The container props once the defaults have been filled in. */
  datatype Config = Config(
    active: int,
    color: Option<string>,
    radius: Radius,
    bulletSize: real,
    align: Align,
    lineWidth: real,
    reverseActive: bool,
    classNames: Option<ClassNames>,
    styles: Option<Styles>)

  /** The props of one `Timeline.Item` child as declared by the caller. */
  datatype ItemProps = ItemProps(
    color: Option<string>,
    radius: Option<Radius>,
    bulletSize: Option<real>,
    active: Option<bool>,
    lineActive: Option<bool>,
    align: Option<Align>,
    lineWidth: Option<real>,
    classNames: Option<ClassNames>,
    styles: Option<Styles>)

  /** The props a step is rendered with, and its position among the steps. */
  datatype Item = Item(
    position: nat,
    color: Option<string>,
    radius: Radius,
    bulletSize: real,
    active: bool,
    lineActive: bool,
    align: Align,
    lineWidth: real,
    classNames: Option<ClassNames>,
    styles: Option<Styles>)

  /** Padding on one side of the container, leaving room for the bullets and the line. */
  datatype Padding = PaddingLeft(amount: real) | PaddingRight(amount: real)

  /** What the container renders: its own padding and the resolved steps in order. */
  datatype Rendered = Rendered(offset: Padding, items: seq<Item>)

  // The static default props.
  const DefaultActive: int := -1
  const DefaultRadius: Radius := Token("xl")
  const DefaultBulletSize: real := 20.0
  const DefaultAlign: Align := Left
  const DefaultLineWidth: real := 4.0
  const DefaultReverseActive: bool := false

  // Truthiness of the values a step can override.

  /** A flag is truthy only when present and true: `false` counts as missing. */
  predicate TruthyFlag(b: Option<bool>)
    ensures TruthyFlag(b) ==> b.Some?
    ensures b.Some? ==> TruthyFlag(b) == b.value
  {
    b == Some(true)
  }

  /** A number is truthy only when present and non-zero: `0` counts as missing. */
  predicate TruthyNumber(x: Option<real>)
    ensures TruthyNumber(x) ==> x.Some?
    ensures x == Some(0.0) ==> !TruthyNumber(x)
    ensures x.Some? && x.value != 0.0 ==> TruthyNumber(x)
  {
    x.Some? && x.value != 0.0
  }

  /** A string is truthy only when present and non-empty: `""` counts as missing. */
  predicate TruthyString(s: Option<string>)
    ensures TruthyString(s) ==> s.Some?
    ensures s == Some("") ==> !TruthyString(s)
    ensures s.Some? && s.value != "" ==> TruthyString(s)
  {
    s.Some? && s.value != ""
  }

  /** A radius is truthy only when present and neither the token `""` nor `0` pixels. */
  predicate TruthyRadius(r: Option<Radius>)
    ensures TruthyRadius(r) ==> r.Some?
    ensures r == Some(Token("")) || r == Some(Px(0.0)) ==> !TruthyRadius(r)
    ensures r.Some? && r.value.Token? && r.value.name != "" ==> TruthyRadius(r)
    ensures r.Some? && r.value.Px? && r.value.px != 0.0 ==> TruthyRadius(r)
  {
    match r
    case None => false
    case Some(Token(name)) => name != ""
    case Some(Px(px)) => px != 0.0
  }

  /** Fills each missing container prop with its static default. */
  function WithDefaults(p: TimelineProps): (c: Config)
    ensures p.active.Some? ==> c.active == p.active.value
    ensures p.active.None? ==> c.active == DefaultActive
    ensures p.radius.Some? ==> c.radius == p.radius.value
    ensures p.radius.None? ==> c.radius == DefaultRadius
    ensures p.bulletSize.Some? ==> c.bulletSize == p.bulletSize.value
    ensures p.bulletSize.None? ==> c.bulletSize == DefaultBulletSize
    ensures p.align.Some? ==> c.align == p.align.value
    ensures p.align.None? ==> c.align == DefaultAlign
    ensures p.lineWidth.Some? ==> c.lineWidth == p.lineWidth.value
    ensures p.lineWidth.None? ==> c.lineWidth == DefaultLineWidth
    ensures p.reverseActive.Some? ==> c.reverseActive == p.reverseActive.value
    ensures p.reverseActive.None? ==> c.reverseActive == DefaultReverseActive
    ensures c.color == p.color && c.classNames == p.classNames && c.styles == p.styles
  {
    Config(
      p.active.GetOr(DefaultActive),
      p.color,
      p.radius.GetOr(DefaultRadius),
      p.bulletSize.GetOr(DefaultBulletSize),
      p.align.GetOr(DefaultAlign),
      p.lineWidth.GetOr(DefaultLineWidth),
      p.reverseActive.GetOr(DefaultReverseActive),
      p.classNames,
      p.styles)
  }

  /**
   * Whether progress reaches the bullet of the step at `index` among `count`
   * steps. Forward, progress counts from the first step; reversed, from the last.
   */
  function BulletReached(progress: int, reverse: bool, count: nat, index: nat): (r: bool)
    ensures !reverse ==> (r <==> index <= progress)
    ensures reverse ==> (r <==> index + progress + 1 >= count)
  {
    if reverse then progress >= count - index - 1 else progress >= index
  }

  /**
   * Whether progress reaches the line of the step at `index`. Forward, the
   * line lags its bullet by one step; reversed, it uses the bullet's test.
   */
  function LineReached(progress: int, reverse: bool, count: nat, index: nat): (r: bool)
    ensures !reverse ==> (r <==> index < progress)
    ensures !reverse && r ==> BulletReached(progress, reverse, count, index)
    ensures reverse ==> r == BulletReached(progress, reverse, count, index)
  {
    if reverse then progress >= count - index - 1 else progress - 1 >= index
  }

  /** The resolved props of the step with `props` at `index` among `count` steps. */
  function ResolveItem(props: ItemProps, index: nat, count: nat, cfg: Config): (it: Item)
    ensures it.position == index
    // a truthy override of a visual parameter wins, anything else inherits the container's
    ensures it.color == (if TruthyString(props.color) then props.color else cfg.color)
    ensures TruthyRadius(props.radius) ==> it.radius == props.radius.value
    ensures !TruthyRadius(props.radius) ==> it.radius == cfg.radius
    ensures TruthyNumber(props.bulletSize) ==> it.bulletSize == props.bulletSize.value
    ensures !TruthyNumber(props.bulletSize) ==> it.bulletSize == cfg.bulletSize
    // a truthy activation override forces activity; otherwise progress decides
    ensures TruthyFlag(props.active) ==> it.active
    ensures !TruthyFlag(props.active) ==> it.active == BulletReached(cfg.active, cfg.reverseActive, count, index)
    ensures TruthyFlag(props.lineActive) ==> it.lineActive
    ensures !TruthyFlag(props.lineActive) ==> it.lineActive == LineReached(cfg.active, cfg.reverseActive, count, index)
    // layout settings come from the container whatever the step declares
    ensures it.align == cfg.align && it.lineWidth == cfg.lineWidth
    ensures it.classNames == cfg.classNames && it.styles == cfg.styles
  {
    Item(
      index,
      if TruthyString(props.color) then props.color else cfg.color,
      if TruthyRadius(props.radius) then props.radius.value else cfg.radius,
      if TruthyNumber(props.bulletSize) then props.bulletSize.value else cfg.bulletSize,
      TruthyFlag(props.active) || BulletReached(cfg.active, cfg.reverseActive, count, index),
      TruthyFlag(props.lineActive) || LineReached(cfg.active, cfg.reverseActive, count, index),
      cfg.align,
      cfg.lineWidth,
      cfg.classNames,
      cfg.styles)
  }

  /** The container's padding: half the bullet plus half the line, on the aligned side. */
  function Offset(cfg: Config): (o: Padding)
    ensures o.PaddingLeft? <==> cfg.align == Left
    ensures o.amount == (cfg.bulletSize + cfg.lineWidth) / 2.0
  {
    if cfg.align == Left
    then PaddingLeft(cfg.bulletSize / 2.0 + cfg.lineWidth / 2.0)
    else PaddingRight(cfg.bulletSize / 2.0 + cfg.lineWidth / 2.0)
  }

  /** Resolves the selected steps, in order, each at its own index against the step count. */
  function Resolve(cfg: Config, steps: seq<ItemProps>): (items: seq<Item>)
    ensures |items| == |steps|
    ensures forall k :: 0 <= k < |items| ==> items[k] == ResolveItem(steps[k], k, |steps|, cfg)
    ensures forall k :: 0 <= k < |items| ==> items[k].position == k
  {
    seq(|steps|, k requires 0 <= k < |steps| => ResolveItem(steps[k], k, |steps|, cfg))
  }

  /**
   * Resolves every step child, in declared order, against the container.
   * Each step child becomes the entry at its position among the steps,
   * resolved from its own props; other children produce nothing.
   */
  function Layout(cfg: Config, children: seq<Child<ItemProps>>): (out: Rendered)
    ensures |out.items| == |Steps(children)| <= |children|
    ensures forall k :: 0 <= k < |out.items| ==> out.items[k] == ResolveItem(Steps(children)[k], k, |out.items|, cfg)
    ensures forall j :: 0 <= j < |children| && children[j].Step? ==>
              Position(children, j) < |out.items|
              && out.items[Position(children, j)] == ResolveItem(children[j].props, Position(children, j), |out.items|, cfg)
    ensures out.offset.PaddingLeft? <==> cfg.align == Left
    ensures out.offset.amount == (cfg.bulletSize + cfg.lineWidth) / 2.0
  {
    StepsAtPositions(children);
    Rendered(Offset(cfg), Resolve(cfg, Steps(children)))
  }

  /** The whole component: defaults are filled in, then the children are laid out. */
  function Render(props: TimelineProps, children: seq<Child<ItemProps>>): (out: Rendered)
    ensures |out.items| == |Steps(children)|
    ensures forall j :: 0 <= j < |children| && children[j].Step? ==>
              Position(children, j) < |out.items|
              && out.items[Position(children, j)]
                 == ResolveItem(children[j].props, Position(children, j), |out.items|, WithDefaults(props))
    ensures out.offset == Offset(WithDefaults(props))
    ensures props.active.None? ==>
              forall k :: 0 <= k < |out.items| ==>
                (!TruthyFlag(Steps(children)[k].active) ==> !out.items[k].active)
                && (!TruthyFlag(Steps(children)[k].lineActive) ==> !out.items[k].lineActive)
    ensures props.align.None? ==> out.offset.PaddingLeft?
    ensures props.bulletSize.None? && props.lineWidth.None? ==> out.offset.amount == 12.0
  {
    Layout(WithDefaults(props), children)
  }
}
