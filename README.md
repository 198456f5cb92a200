# Timeline progress and layout, modelled in Dafny

This project models the logic of Mantine's `Timeline` component
(`src/mantine-core/src/components/Timeline/Timeline.tsx`). A timeline is a
container of `Timeline.Item` steps. From the container props and its
children it computes:

- one descriptor per step child, in declared order. Each descriptor holds:
  - the step's position among the steps (a field of the model, equal to the entry's index);
  - its colour, radius and bullet size, taken from the step when truthy and from the container otherwise;
  - whether its bullet is active;
  - whether its connecting line is active;
  - the container's alignment, line width, class names and styles;
- the container's own padding: `bulletSize / 2 + lineWidth / 2` on the aligned side.

Files:

- `wrappers.dfy`: module `Wrappers`, an `Option` type for props that may be missing.
- `children.dfy`: module `Children`. A child is either a step carrying its props or any other node. `Steps` keeps the step children in order. `Position(children, j)` is the number of step children before child `j`. The lemmas show that every step child is the entry at its position, that positions follow declared order, and that every entry comes from a step child.
- `timeline.dfy`: module `Timeline`. It holds the props, the static defaults, truthiness predicates, the resolution of one step (`ResolveItem`), the padding (`Offset`), the whole layout (`Layout`) and the component with defaults applied (`Render`).
- `timeline_properties.dfy`: module `TimelineProperties`, the properties of the layout stated as lemmas.

JavaScript's `||` is reproduced exactly. An override of a bullet size or radius of `0`, a colour or radius token of `""`, or an activation flag of `false` counts the same as no override: the container's value, or the computed activation, is used.

In reverse mode the line activation uses the same test as the bullet, with no offset of one. It is modelled as written. `ReverseMirrorsForward` and `ReverseLineNotMirrored` show what this means: a reversed line mirrors the forward *bullet*, not the forward line.

The code tests truthiness, so an explicit `false`, `0` or `""` falls back (`FalseOverrideIsAbsent`, `FalsyOverridesFallBack`).

The `position` field of a resolved entry belongs to the model: it equals the entry's index in the resolved list. The element the source produces has no such prop. The index appears there only in the activation tests (lines 85 and 88) and as the slot in the array.

## Model

| member | source | states |
|---|---|---|
| `Children.Steps` | src/mantine-core/src/components/Timeline/Timeline.tsx:73 | the selected steps are no more than the children, and each one comes from a step child |
| `Children.StepsAppend` | src/mantine-core/src/components/Timeline/Timeline.tsx:73 | selecting steps from two child lists joined is the two selections joined (order kept) |
| `Children.StepAt` | src/mantine-core/src/components/Timeline/Timeline.tsx:73-74 | the step child at index j is the selected entry at its position, the number of step children before it; other children take no position |
| `Children.PositionsIncrease` | src/mantine-core/src/components/Timeline/Timeline.tsx:73-74 | a step child declared earlier gets a strictly smaller position |
| `Children.EntryHasChild` | src/mantine-core/src/components/Timeline/Timeline.tsx:73-74 | every selected entry k comes from some step child whose position is k |
| `Children.Position` | src/mantine-core/src/components/Timeline/Timeline.tsx:73-74 | the index a step child is resolved with: the number of step children before it, at most its own index and at most the number of steps |
| `Timeline.TruthyFlag` | src/mantine-core/src/components/Timeline/Timeline.tsx:83-88 | a flag is truthy exactly when it is present and true; `false` and a missing flag are falsy |
| `Timeline.TruthyNumber` | src/mantine-core/src/components/Timeline/Timeline.tsx:82 | a bullet size is truthy exactly when it is present and non-zero; a missing size or 0 is falsy |
| `Timeline.TruthyString` | src/mantine-core/src/components/Timeline/Timeline.tsx:81 | a colour is truthy exactly when it is present and non-empty; a missing colour or "" is falsy |
| `Timeline.TruthyRadius` | src/mantine-core/src/components/Timeline/Timeline.tsx:80 | a radius is truthy exactly when it is present and is a non-empty token or a non-zero number of pixels; a missing radius, the token "" or 0 pixels is falsy |
| `Timeline.BulletReached` | src/mantine-core/src/components/Timeline/Timeline.tsx:85 | forward, progress reaches the bullet at index i iff i <= progress; reversed, iff i + progress + 1 >= step count |
| `Timeline.LineReached` | src/mantine-core/src/components/Timeline/Timeline.tsx:88 | forward, progress reaches the line at index i iff i < progress, which implies the bullet is reached; reversed, the line test is the bullet test, with no offset of one |
| `Timeline.WithDefaults` | src/mantine-core/src/components/Timeline/Timeline.tsx:47-54 | a container prop the caller gives is kept; a missing one takes its static default (-1, "xl", 20, left, 4, false); colour, class names and styles have no default |
| `Timeline.ResolveItem` | src/mantine-core/src/components/Timeline/Timeline.tsx:75-89 | a truthy step colour, radius or bullet size wins, else the container's; a truthy activation flag forces active, otherwise the progress test decides; alignment, line width, class names and styles come from the container |
| `Timeline.Offset` | src/mantine-core/src/components/Timeline/Timeline.tsx:92-95 | padding on the left exactly when aligned left, else on the right, of (bulletSize + lineWidth) / 2 |
| `Timeline.Resolve` | src/mantine-core/src/components/Timeline/Timeline.tsx:74-90 | one entry per selected step; entry k is step k resolved at index k against the step count, and has position k |
| `Timeline.Layout` | src/mantine-core/src/components/Timeline/Timeline.tsx:73-95 | one entry per step child; entry k is the k-th step resolved at index k against the step count (so it has position k); the step child at j is the entry at its position, resolved from its own props; padding on the aligned side |
| `Timeline.Render` | src/mantine-core/src/components/Timeline/Timeline.tsx:47-95 | with defaults applied: the step child at j is the entry at its position, resolved from its own props against the step count and the defaulted container; the padding is the defaulted container's; with no progress given, no step without an override has its bullet or line active; the padding defaults to the left side and to 12 |
| `TimelineProperties.EntryFromStepChild` | src/mantine-core/src/components/Timeline/Timeline.tsx:73-90 | every entry is the resolution, at its own index, of a step child at that position |
| `TimelineProperties.StepOrderKept` | src/mantine-core/src/components/Timeline/Timeline.tsx:73-90 | two step children keep their relative order among the entries, and the entries at their positions are the resolutions of their own props |
| `TimelineProperties.OtherChildIgnored` | src/mantine-core/src/components/Timeline/Timeline.tsx:73-74 | inserting a non-step child anywhere changes neither the entries nor the padding |
| `TimelineProperties.StepOtherStep` | src/mantine-core/src/components/Timeline/Timeline.tsx:73-90 | children [step, other, step] give two entries, resolved at positions 0 and 1 with a step count of 2 |
| `TimelineProperties.ThreeBareSteps` | src/mantine-core/src/components/Timeline/Timeline.tsx:73 | three bare step children select three bare steps |
| `TimelineProperties.ForwardActivation` | src/mantine-core/src/components/Timeline/Timeline.tsx:83-88 | forward, with no truthy override: active iff progress >= k, line active iff progress - 1 >= k, and line active implies active |
| `TimelineProperties.ForwardDownwardClosed` | src/mantine-core/src/components/Timeline/Timeline.tsx:83-88 | forward, among steps without overrides: if step i is active (line active) so is every step j <= i |
| `TimelineProperties.ReverseActivation` | src/mantine-core/src/components/Timeline/Timeline.tsx:83-88 | reversed, with no truthy override: active iff progress >= n - k - 1, and line active equals active |
| `TimelineProperties.ReverseUpwardClosed` | src/mantine-core/src/components/Timeline/Timeline.tsx:83-88 | reversed, among steps without overrides: if step i is active (line active) so is every step j >= i |
| `TimelineProperties.ReverseMirrorsForward` | src/mantine-core/src/components/Timeline/Timeline.tsx:83-88 | reversing keeps positions; reversed step k is active iff forward step n-1-k is; reversed line k equals forward bullet n-1-k |
| `TimelineProperties.ReverseLineNotMirrored` | src/mantine-core/src/components/Timeline/Timeline.tsx:88 | with three steps at progress 1 the reversed line of the middle step is on while the forward line at its mirror is off |
| `TimelineProperties.OverrideForcesActive` | src/mantine-core/src/components/Timeline/Timeline.tsx:83-88 | a step whose own active (line active) flag is true reports true whatever the progress and direction |
| `TimelineProperties.FalseOverrideIsAbsent` | src/mantine-core/src/components/Timeline/Timeline.tsx:83-88 | an active or line-active flag of false resolves exactly like an absent flag |
| `TimelineProperties.ThreeStepsProgressOne` | src/mantine-core/src/components/Timeline/Timeline.tsx:83-88 | three steps at progress 1, forward: steps 0 and 1 active, only step 0's line active |
| `TimelineProperties.NoProgressNothingActive` | src/mantine-core/src/components/Timeline/Timeline.tsx:47-95 | with the default progress -1, no step without an override is active or line active in either direction; no steps gives an empty list and the padding is still produced |
| `TimelineProperties.FalsyOverridesFallBack` | src/mantine-core/src/components/Timeline/Timeline.tsx:80-82 | each field on its own: a bullet size of 0, a radius of 0 or "", a colour of "" or a missing value falls back to the container's value |
| `TimelineProperties.TruthyOverridesWin` | src/mantine-core/src/components/Timeline/Timeline.tsx:80-82 | each field on its own: a non-zero bullet size, a non-empty colour, a non-empty radius token or a non-zero pixel radius on a step is the value the step is resolved with |
| `TimelineProperties.OwnLayoutPropsIgnored` | src/mantine-core/src/components/Timeline/Timeline.tsx:76-79 | what a step declares for alignment, line width, class names and styles does not change its resolution |
| `TimelineProperties.OffsetIgnoresSteps` | src/mantine-core/src/components/Timeline/Timeline.tsx:92-95 | the padding is the same whatever the children and their bullet-size overrides |
| `TimelineProperties.DefaultOffset` | src/mantine-core/src/components/Timeline/Timeline.tsx:47-54 | with the default bullet size 20 and line width 4 the padding is 12, on the left unless aligned right |

## Left out

- React rendering is not modelled. This covers `forwardRef`, `React.cloneElement`, the `Box` element, the `sx` style-array merge (line 98), the rest of the props spread onto `Box`, and `displayName`. The model returns plain descriptors.
- Props of a step that the clone keeps unchanged (title, bullet, content) are not modelled, and neither is how `TimelineItem` draws itself. `TimelineItem` is not part of this model.
- Theme-level default props looked up by `useMantineDefaultProps` (line 71) are not modelled. Only the static defaults at lines 47-54 are applied, to props the caller leaves out.
- `filterChildrenByType` is not part of this model. It is modelled as a filter over children tagged as step or other, keeping their order.
- Theme colour and radius tokens are not resolved. They are opaque values that are only tested for truthiness.
- Numbers are Dafny `real`s, so `bulletSize / 2 + lineWidth / 2` is exact. Floating-point rounding is not modelled, and neither is `NaN`, which JavaScript treats as falsy.
- The progress index `active` is an integer. A fractional `active` is not modelled.
- Alignment has only the two values the prop type allows. The source pads on the right for any value other than `'left'`.
