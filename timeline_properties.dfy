/**
 * What the Timeline layout promises: one entry per step child in declared
 * order, the forward and reversed activation thresholds, override
 * precedence, inheritance of visual parameters, and the container padding.
 */
module TimelineProperties {
  import opened Wrappers
  import opened Children
  import opened Timeline

  /** A step that forces neither its bullet nor its line active. */
  predicate Plain(p: ItemProps) { !TruthyFlag(p.active) && !TruthyFlag(p.lineActive) }

  /** A step that declares nothing. */
  const Bare: ItemProps := ItemProps(None, None, None, None, None, None, None, None, None)

  // ---------------------------------------------------------------------------
  // Entries and positions

  /** Every entry is the resolution of a step child whose position is the entry's index. */
  lemma EntryFromStepChild(cfg: Config, children: seq<Child<ItemProps>>, k: nat)
    requires k < |Layout(cfg, children).items|
    ensures exists j :: 0 <= j < |children| && children[j].Step? && Position(children, j) == k
                        && Layout(cfg, children).items[k] == ResolveItem(children[j].props, k, |Steps(children)|, cfg)
  {
    EntryHasChild(children, k);
  }

  /** Step children keep their relative order among the entries. */
  lemma StepOrderKept(cfg: Config, children: seq<Child<ItemProps>>, i: nat, j: nat)
    requires i < j < |children| && children[i].Step? && children[j].Step?
    ensures Position(children, i) < Position(children, j) < |Layout(cfg, children).items|
    ensures Layout(cfg, children).items[Position(children, i)]
            == ResolveItem(children[i].props, Position(children, i), |Steps(children)|, cfg)
    ensures Layout(cfg, children).items[Position(children, j)]
            == ResolveItem(children[j].props, Position(children, j), |Steps(children)|, cfg)
  {
    PositionsIncrease(children, i, j);
  }

  /** A non-step child, wherever it stands, changes neither the entries nor their positions. */
  lemma OtherChildIgnored(cfg: Config, before: seq<Child<ItemProps>>, after: seq<Child<ItemProps>>)
    ensures Layout(cfg, before + [Other] + after) == Layout(cfg, before + after)
  {
    var other: seq<Child<ItemProps>> := [Other];
    StepsAppend(before + other, after);
    StepsAppend(before, other);
    assert Steps(other) == [];
    StepsAppend(before, after);
    assert Steps(before + other + after) == Steps(before + after);
  }

  /** Children [step, other, step] give exactly two entries, at positions 0 and 1. */
  lemma StepOtherStep(cfg: Config, p: ItemProps, q: ItemProps)
    ensures var out := Layout(cfg, [Step(p), Other, Step(q)]);
            |out.items| == 2
            && out.items[0] == ResolveItem(p, 0, 2, cfg)
            && out.items[1] == ResolveItem(q, 1, 2, cfg)
  {
    var children: seq<Child<ItemProps>> := [Step(p), Other, Step(q)];
    assert children[1..] == [Other, Step(q)];
    assert children[1..][1..] == [Step(q)];
    assert children[1..][1..][1..] == [];
    assert Steps(children[1..][1..]) == [q];
    assert Steps(children) == [p, q];
  }

  // ---------------------------------------------------------------------------
  // Activation

  /** Forward: a plain step's bullet is active iff progress reaches its index, its line one step later. */
  lemma ForwardActivation(cfg: Config, children: seq<Child<ItemProps>>, k: nat)
    requires !cfg.reverseActive
    requires k < |Steps(children)| && Plain(Steps(children)[k])
    ensures Layout(cfg, children).items[k].active <==> cfg.active >= k
    ensures Layout(cfg, children).items[k].lineActive <==> cfg.active - 1 >= k
    ensures Layout(cfg, children).items[k].lineActive ==> Layout(cfg, children).items[k].active
  {
  }

  /** Forward: among plain steps, activity is downward closed. */
  lemma ForwardDownwardClosed(cfg: Config, children: seq<Child<ItemProps>>, i: nat, j: nat)
    requires !cfg.reverseActive
    requires j <= i < |Steps(children)| && Plain(Steps(children)[i]) && Plain(Steps(children)[j])
    ensures Layout(cfg, children).items[i].active ==> Layout(cfg, children).items[j].active
    ensures Layout(cfg, children).items[i].lineActive ==> Layout(cfg, children).items[j].lineActive
  {
  }

  /** Reversed: a plain step is active iff progress reaches its distance from the end; its line follows its bullet. */
  lemma ReverseActivation(cfg: Config, children: seq<Child<ItemProps>>, k: nat)
    requires cfg.reverseActive
    requires k < |Steps(children)| && Plain(Steps(children)[k])
    ensures Layout(cfg, children).items[k].active <==> cfg.active >= |Steps(children)| - k - 1
    ensures Layout(cfg, children).items[k].lineActive == Layout(cfg, children).items[k].active
  {
  }

  /** Reversed: among plain steps, activity is upward closed. */
  lemma ReverseUpwardClosed(cfg: Config, children: seq<Child<ItemProps>>, i: nat, j: nat)
    requires cfg.reverseActive
    requires i <= j < |Steps(children)| && Plain(Steps(children)[i]) && Plain(Steps(children)[j])
    ensures Layout(cfg, children).items[i].active ==> Layout(cfg, children).items[j].active
    ensures Layout(cfg, children).items[i].lineActive ==> Layout(cfg, children).items[j].lineActive
  {
  }

  /**
   * Reversing the direction keeps every step at its position and mirrors
   * which bullets are active; a reversed line, though, mirrors the forward
   * bullet, not the forward line.
   */
  lemma ReverseMirrorsForward(cfg: Config, children: seq<Child<ItemProps>>, k: nat)
    requires k < |Steps(children)|
    requires Plain(Steps(children)[k]) && Plain(Steps(children)[|Steps(children)| - 1 - k])
    ensures var n := |Steps(children)|;
            var fwd := Layout(cfg.(reverseActive := false), children).items;
            var rev := Layout(cfg.(reverseActive := true), children).items;
            rev[k].position == fwd[k].position == k
            && rev[k].active == fwd[n - 1 - k].active
            && rev[k].lineActive == fwd[n - 1 - k].active
  {
  }

  /** The reversed line is not the mirror of the forward line: three steps, progress 1, middle step. */
  lemma ReverseLineNotMirrored(cfg: Config)
    requires cfg.active == 1
    ensures var children := [Step(Bare), Step(Bare), Step(Bare)];
            var fwd := Layout(cfg.(reverseActive := false), children).items;
            var rev := Layout(cfg.(reverseActive := true), children).items;
            |fwd| == |rev| == 3 && rev[1].lineActive && !fwd[3 - 1 - 1].lineActive
  {
    var children: seq<Child<ItemProps>> := [Step(Bare), Step(Bare), Step(Bare)];
    ThreeBareSteps();
    assert |Layout(cfg, children).items| == 3;
  }

  /** A truthy activation override wins whatever the progress and direction. */
  lemma OverrideForcesActive(cfg: Config, children: seq<Child<ItemProps>>, k: nat)
    requires k < |Steps(children)|
    ensures TruthyFlag(Steps(children)[k].active) ==> Layout(cfg, children).items[k].active
    ensures TruthyFlag(Steps(children)[k].lineActive) ==> Layout(cfg, children).items[k].lineActive
  {
  }

  /** An override of `false` behaves exactly like no override. */
  lemma FalseOverrideIsAbsent(props: ItemProps, index: nat, count: nat, cfg: Config)
    ensures ResolveItem(props.(active := Some(false)), index, count, cfg)
            == ResolveItem(props.(active := None), index, count, cfg)
    ensures ResolveItem(props.(lineActive := Some(false)), index, count, cfg)
            == ResolveItem(props.(lineActive := None), index, count, cfg)
  {
  }

  /** Three bare step children select three bare steps. */
  lemma ThreeBareSteps()
    ensures Steps([Step(Bare), Step(Bare), Step(Bare)]) == [Bare, Bare, Bare]
  {
    var children: seq<Child<ItemProps>> := [Step(Bare), Step(Bare), Step(Bare)];
    assert children[1..][1..][1..] == [];
    assert Steps(children[1..][1..]) == [Bare];
    assert Steps(children[1..]) == [Bare, Bare];
  }

  /** Three plain steps at progress 1, forward: steps 0 and 1 are active, only step 0's line. */
  lemma ThreeStepsProgressOne(cfg: Config)
    requires cfg.active == 1 && !cfg.reverseActive
    ensures var items := Layout(cfg, [Step(Bare), Step(Bare), Step(Bare)]).items;
            |items| == 3
            && items[0].active && items[1].active && !items[2].active
            && items[0].lineActive && !items[1].lineActive && !items[2].lineActive
  {
    var children: seq<Child<ItemProps>> := [Step(Bare), Step(Bare), Step(Bare)];
    ThreeBareSteps();
    assert |Layout(cfg, children).items| == 3;
  }

  /**
   * With the default progress of -1, no plain step is active or line-active
   * in either direction; with no steps at all the list is empty and the
   * padding is still produced.
   */
  lemma NoProgressNothingActive(props: TimelineProps, children: seq<Child<ItemProps>>, k: nat)
    requires props.active.None?
    ensures Steps(children) == [] ==> Render(props, children).items == []
    ensures Render(props, children).offset.amount == (WithDefaults(props).bulletSize + WithDefaults(props).lineWidth) / 2.0
    ensures k < |Steps(children)| && Plain(Steps(children)[k]) ==>
              !Render(props, children).items[k].active && !Render(props, children).items[k].lineActive
  {
  }

  // ---------------------------------------------------------------------------
  // Visual parameters and pass-through

  /** A falsy or missing size, radius or color on a step falls back to the container's value, each on its own. */
  lemma FalsyOverridesFallBack(props: ItemProps, index: nat, count: nat, cfg: Config)
    ensures props.bulletSize == None || props.bulletSize == Some(0.0) ==>
              ResolveItem(props, index, count, cfg).bulletSize == cfg.bulletSize
    ensures props.radius == None || props.radius == Some(Px(0.0)) || props.radius == Some(Token("")) ==>
              ResolveItem(props, index, count, cfg).radius == cfg.radius
    ensures props.color == None || props.color == Some("") ==>
              ResolveItem(props, index, count, cfg).color == cfg.color
  {
  }

  /** A truthy size, radius or color on a step wins over the container's value, each on its own. */
  lemma TruthyOverridesWin(props: ItemProps, index: nat, count: nat, cfg: Config)
    ensures forall b :: props.bulletSize == Some(b) && b != 0.0 ==>
              ResolveItem(props, index, count, cfg).bulletSize == b
    ensures forall c :: props.color == Some(c) && c != "" ==>
              ResolveItem(props, index, count, cfg).color == Some(c)
    ensures forall x :: props.radius == Some(Px(x)) && x != 0.0 ==>
              ResolveItem(props, index, count, cfg).radius == Px(x)
    ensures forall name :: props.radius == Some(Token(name)) && name != "" ==>
              ResolveItem(props, index, count, cfg).radius == Token(name)
  {
  }

  /** What a step declares for its alignment, line width, class names and styles has no effect. */
  lemma OwnLayoutPropsIgnored(props: ItemProps, align: Option<Align>, lineWidth: Option<real>,
                              classNames: Option<ClassNames>, styles: Option<Styles>,
                              index: nat, count: nat, cfg: Config)
    ensures ResolveItem(props.(align := align, lineWidth := lineWidth, classNames := classNames, styles := styles),
                        index, count, cfg)
            == ResolveItem(props, index, count, cfg)
  {
  }

  // ---------------------------------------------------------------------------
  // Container padding

  /** The padding depends on the container alone, not on the steps or their overrides. */
  lemma OffsetIgnoresSteps(cfg: Config, a: seq<Child<ItemProps>>, b: seq<Child<ItemProps>>)
    ensures Layout(cfg, a).offset == Layout(cfg, b).offset
  {
  }

  /** With the default bullet size 20 and line width 4 the padding is 12, on the aligned side. */
  lemma DefaultOffset(props: TimelineProps, children: seq<Child<ItemProps>>)
    requires props.bulletSize.None? && props.lineWidth.None?
    ensures props.align != Some(Right) ==> Render(props, children).offset == PaddingLeft(12.0)
    ensures props.align == Some(Right) ==> Render(props, children).offset == PaddingRight(12.0)
  {
  }
}
