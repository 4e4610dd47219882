# Visibility-state engine of svelte-scroll-observe, in Dafny

This project models the visibility-state engine of `src/lib/observer.ts`.
The engine keeps one record per tracked element (`Operations`). The record
holds a visibility tier (`state`), an edge bitset (`focus`) and a change
hook. Seven shared watchers report intersections. Two callbacks turn the
reports into record updates and hook calls:

- `cbRange` is bound to a pair of tiers. It sets `state` to one tier or the
  other.
- `cbFocus` builds a five-bit edge mask and overwrites `focus` with it.

Registration creates a record. Attaching it to an element stores the
back-references and adds the element to the watchers that the requested
range tags select. `destroy` removes the element from all seven watchers.

Files:

- `wrappers.dfy`: `Option`, which stands for the source's `undefined`.
- `edges.dfy` (module `Edges`): rectangles, the five bit constants of the
  mask (as `bv32`, because JavaScript's `|` works on 32-bit integers), the
  flags a mask encodes, encode/decode, and the mask of one report.
- `ranges.dfy` (module `Ranges`): tiers, range tags, the seven watchers,
  the callback each watcher is bound to, and the watcher-selection rule.
- `reports.dfy` (module `Reports`): a report, and what a batch of reports
  leaves in one record, stated as folds on values, with lemmas about them.
- `observer.dfy` (module `Observer`): the record class `Operations`, the
  `Watcher` class (a set of observed elements), the two callbacks as loops
  over the batch, and the `Engine` class. `Engine` holds the seven watchers
  and the element-to-record back-references.
- `scenarios.dfy`: client methods that use only the contracts: worked
  examples of attach, reports and destroy.

Modelling choices:

- Elements are opaque ids (`nat`).
- Each element's `tracker` back-reference is a map from element id to
  record (`Engine.trackers`).
- Several elements may share one record. This happens when one listener is
  used on several elements. Each fold therefore takes the set of element ids
  whose tracker is the record in question (`Observer.Owned`).
- A change hook is known only by its identity (`ChangeHook`). A call of the
  hook is returned as a `Call` value: the hook, the record, and the record's
  `state` and `focus` at that moment. The callbacks return these calls in
  order.
- Coordinates are reals, because the source only compares them with `<` and
  `>`.

Behaviour of the code worth knowing:

- `destroy` does not clear the element's back-reference to its record.
  `Engine.Destroy` leaves `trackers` alone.
- Nothing stops a report queued before `destroy` from reaching the record
  and its hook. `Scenarios.DestroyThenQueuedReport` shows such a report
  being delivered.
- There is no working no-op fallback outside a browser: the non-browser
  branch (line 87) returns before the watchers exist. That path is left out.
- The final `state` depends on which watcher's report arrives last, because
  every range watcher overwrites it. `Reports.LastWatcherDecides` shows two
  intersecting reports leaving hidden in the order show then deploy, and
  show in the order deploy then show.
- The focus/edge callback skips a report without root bounds before it
  looks up the target's record, so such a report may name an element that
  has no record (`Scenarios.UnframedReportForUnknownElement`).

## Model

| member | source | states |
|---|---|---|
| `Edges.Encode` | src/lib/observer.ts:6-12 | the five named bits pack into a value below 32 |
| `Edges.DecodeEncode` | src/lib/observer.ts:6-12 | reading the five named bits back from a packed mask gives the original flags |
| `Edges.EncodeDecode` | src/lib/observer.ts:6-12 | every value below 32 is the packing of its own five flags, so the layout uses exactly five bits |
| `Edges.EdgeMask` | src/lib/observer.ts:75-81 | the mask is below 32 and its flags are exactly: intersecting, root top below element top, root right left of element right, root bottom above element bottom, root left right of element left |
| `Edges.EdgeValue` | src/lib/observer.ts:75-81 | the stored number lies in 0..31; the focus bit is set iff the element intersects; top, right, bottom and left are each set iff their own edge comparison holds |
| `Edges.ExactFillIsFocusOnly` | src/lib/observer.ts:75-81 | an intersecting element that exactly fills the root gets 0b10000 and no side bit |
| `Edges.RightOverhangSetsRight` | src/lib/observer.ts:78 | an element's right edge at 310 against a root's right edge at 300 sets the right bit |
| `Ranges.BindingOf` | src/lib/observer.ts:88-118 | the callback each watcher is built with: deploy the range callback on (hidden, compress), peep on (peep, hidden), show on (show, peep), and core, horizon, vertical and box the focus/edge callback |
| `Ranges.Selected` | src/lib/observer.ts:129-136 | the watcher-selection rule: deploy needs hidden and compress, peep needs peep and hidden, show needs show and peep, and each focus-family watcher needs its own tag |
| `Ranges.RangeKey` | src/lib/observer.ts:63 | the written tier is one of the bound pair, and it is the entered tier exactly when the report intersects |
| `Ranges.RangeBindingsFormChain` | src/lib/observer.ts:88-101 | each range watcher's entered tier is exactly one tier deeper than its left tier (compress, hidden, peep, show) |
| `Ranges.EachTierHasOneBoundary` | src/lib/observer.ts:88-101 | each of hidden, peep and show is the entered tier of exactly one range watcher |
| `Ranges.SelectedMatchesBinding` | src/lib/observer.ts:129-136 | a range watcher is joined iff both tiers it is bound to were requested; a focus-family watcher is joined iff its own tag was requested |
| `Ranges.WrittenTierWasRequested` | src/lib/observer.ts:129-131 | any tier a joined range watcher writes is one of the requested tags |
| `Ranges.SelectedDependsOnTagSet` | src/lib/observer.ts:129-136 | selection depends only on which tags occur, not on their order or repetition |
| `Ranges.SelectedMonotone` | src/lib/observer.ts:129-136 | requesting more tags never drops a watcher |
| `Ranges.LoneTierJoinsNoRangeWatcher` | src/lib/observer.ts:129-131 | a request naming a single tier joins no range watcher |
| `Ranges.FullChainSelection` | src/lib/observer.ts:129-136 | the four-tier chain joins exactly the three range watchers |
| `Reports.LastWatcherDecides` | src/lib/observer.ts:59-66 | for an intersecting report, show then deploy leaves hidden, and deploy then show leaves show: the last watcher to report decides |
| `Reports.ReportEdgeValue` | src/lib/observer.ts:75-81 | the value a framed report writes lies in 0..31 |
| `Reports.RangeFold` | src/lib/observer.ts:59-66 | one record's `state` after the range loop: each report about one of the record's elements overwrites it with the tier for that report, and other reports leave it alone |
| `Reports.FocusFold` | src/lib/observer.ts:68-84 | one record's `focus` after the focus loop: each report with root bounds about one of the record's elements overwrites it with that report's edge value, and other reports leave it alone |
| `Reports.Framed` | src/lib/observer.ts:70 | the reports the focus callback acts on are exactly those of the batch that carry root bounds |
| `Reports.RangeLastReportWins` | src/lib/observer.ts:59-66 | after a batch, a record's state is set by the last report about one of its elements; with no such report the state is unchanged |
| `Reports.RangeFoldInPair` | src/lib/observer.ts:59-66 | after a batch, the state is the old one or one of the watcher's two tiers |
| `Reports.RangeOverwrites` | src/lib/observer.ts:63 | once a batch reports on the record, the resulting state does not depend on the earlier state |
| `Reports.FocusLastReportWins` | src/lib/observer.ts:68-84 | after a batch, `focus` is the mask of the last framed report about the record; with none it is unchanged |
| `Reports.FocusOverwrites` | src/lib/observer.ts:81 | once a framed report about the record arrives, the resulting `focus` does not depend on the old bits: it is overwritten, not OR-ed |
| `Reports.FocusIgnoresUnframed` | src/lib/observer.ts:70 | dropping every report without root bounds from a batch leaves the same `focus` |
| `Reports.FocusFoldBounded` | src/lib/observer.ts:75-81 | from a five-bit start, `focus` stays in 0..31 across any batch |
| `Observer.Operations.constructor` | src/lib/observer.ts:44-49 | a new record has no state, focus 0, no element, the given hook or the no-op hook when none is given, and keeps the requested tags |
| `Observer.Operations.SetOptions` | src/lib/observer.ts:51-54 | only the hook is replaced (defaulting to no-op); state, focus, element and tags are untouched; the same record is returned |
| `Observer.Watcher.Observe` | src/lib/observer.ts:129-136 | observing adds the element to the watcher's targets and changes nothing else |
| `Observer.Watcher.ObserveWhen` | src/lib/observer.ts:129-136 | one guarded observe call: the element is added exactly when the guard holds |
| `Observer.Watcher.Unobserve` | src/lib/observer.ts:140-146 | unobserving removes the element from the targets, as a no-op when it was not observed |
| `Observer.RangeEntry` | src/lib/observer.ts:60-64 | for one report, exactly the records that are the target's tracker get the entered tier if it intersects and the left tier otherwise; every other record keeps its state; one hook call with the record, its hook, the tier just written and its focus |
| `Observer.CbRange` | src/lib/observer.ts:59-66 | each record's state becomes the range fold of the batch (only `state` is in the frame, so focus and options are untouched); one hook call per report, in order, the k-th for the k-th report's record after its state was written |
| `Observer.Sides` | src/lib/observer.ts:75-80 | the mask accumulated with `\|=` is the edge mask of the report, and as a number it is the edge value |
| `Observer.FocusEntry` | src/lib/observer.ts:69-83 | a report without root bounds changes no record and makes no call; otherwise exactly the target's tracker records take the report's edge value, overwriting the old one, and one hook call is made with the record, its hook, its state and the new value |
| `Observer.CbFocus` | src/lib/observer.ts:68-84 | each record's focus becomes the focus fold of the batch (only `focus` is in the frame, so state and options are untouched); one hook call per framed report, in order, none for unframed reports |
| `Observer.Engine.constructor` | src/lib/observer.ts:88-121 | seven distinct new watchers: deploy bound to (hidden, compress), peep to (peep, hidden), show to (show, peep), and the four focus-family watchers to the focus callback; none observes anything |
| `Observer.Engine.Observe` | src/lib/observer.ts:124-125 | registration returns a new, unattached record for the requested tags and hook |
| `Observer.Engine.Attach` | src/lib/observer.ts:125-138 | the record points at the element, the element points at the record, each watcher gains the element iff the selection rule picks it, and no other watcher changes |
| `Observer.Engine.Destroy` | src/lib/observer.ts:139-147 | the element leaves all seven watchers whichever it joined; other elements' memberships and the back-references are unchanged; a second call changes nothing more |
| `Observer.Engine.Deliver` | src/lib/observer.ts:88-118 | a batch from a watcher runs the callback it was built with: a range watcher leaves each state in its pair or unchanged, and a focus-family watcher leaves state unchanged |

## Left out

- The intersection-detection primitive itself: its root margins, its thresholds (including the 100-step array at line 120) and how it decides `isIntersecting` and `rootBounds`. Reports are arbitrary inputs. Observing and unobserving are set insertion and removal.
- The non-browser path (line 87). It returns before the watchers are initialised, and the code gives no working fallback for attach.
- Asynchronous scheduling of callback batches, and ordering between different watchers. `Engine.Deliver` takes one batch at a time, in whatever order the caller chooses.
- The side effects of a change hook. A hook is an identity, and its calls are returned as a list. A hook that re-enters the engine (for example, calling `setOptions` during a callback) is not modelled.
- The Svelte action glue and the `this` binding of the listener. Attach is `Engine.Attach` on a record. The record's `listener` field is represented by the tags it closes over (`Operations.range`).
- The `HTMLDivElement` type and the `tracker` property on it. Elements are ids, and back-references are the `trackers` map.
- Observer.Engine.Deliver: requires a record for every target of a range watcher's batch, and for every target of a report with root bounds in a focus-family watcher's batch. In the source, looking up a missing `tracker` throws: in cbRange always (line 62), in cbFocus only after the root-bounds check at line 70. That cannot happen on the modelled paths: only attached elements are observed, and back-references are never removed.
- Observer.CbRange: requires a record for every reported target, for the same reason (line 62).
- Observer.FocusEntry and Observer.CbFocus: require a record only for reports with root bounds, since a report without them returns at line 70 before the lookup at line 72.
- Rectangle coordinates are reals. NaN and other floating-point values that cannot be compared are not modelled.
