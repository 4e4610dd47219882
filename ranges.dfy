/** Range tags, the seven shared watchers, the callback each watcher is
    bound to, and the rule that picks the watchers an element joins. */
module Ranges {

  /** The four visibility tiers, from far outside the viewport to fully
      inside it. */
  datatype RangeState = Compress | Hidden | Peep | Show

  /** What a caller may ask to track: a tier, or one of the four focus
      modes. */
  datatype RangeTag = Tier(state: RangeState) | Focus | Horizon | Vertical | Box

  /** The seven watchers of the pool. */
  datatype WatcherId =
    | DeployWatcher | PeepWatcher | ShowWatcher
    | CoreWatcher | HorizonWatcher | VerticalWatcher | BoxWatcher

  /** The callback a watcher is constructed with: the range callback bound
      to a fixed (entered, left) pair of tiers, or the focus/edge callback. */
  datatype Binding = RangeCallback(keyOn: RangeState, keyOff: RangeState) | FocusCallback

  /** The depth of a tier: compress 0, hidden 1, peep 2, show 3. */
  function Depth(s: RangeState): (d: nat)
    ensures d < 4
  {
    match s
    case Compress => 0
    case Hidden => 1
    case Peep => 2
    case Show => 3
  }

  /** The callback each watcher is bound to when the pool is built. */
  function BindingOf(w: WatcherId): Binding {
    match w
    case DeployWatcher => RangeCallback(Hidden, Compress)
    case PeepWatcher => RangeCallback(Peep, Hidden)
    case ShowWatcher => RangeCallback(Show, Peep)
    case _ => FocusCallback
  }

  /** The tag that alone selects a focus-family watcher. */
  function FocusTagOf(w: WatcherId): RangeTag
    requires BindingOf(w) == FocusCallback
  {
    match w
    case CoreWatcher => Focus
    case HorizonWatcher => Horizon
    case VerticalWatcher => Vertical
    case BoxWatcher => Box
  }

  /** Whether an element attached with the requested `range` joins watcher
      `w`: a tier watcher needs both tiers of its boundary, a focus-family
      watcher needs its own tag. */
  predicate Selected(range: seq<RangeTag>, w: WatcherId) {
    match w
    case DeployWatcher => Tier(Hidden) in range && Tier(Compress) in range
    case PeepWatcher => Tier(Peep) in range && Tier(Hidden) in range
    case ShowWatcher => Tier(Show) in range && Tier(Peep) in range
    case CoreWatcher => Focus in range
    case HorizonWatcher => Horizon in range
    case VerticalWatcher => Vertical in range
    case BoxWatcher => Box in range
  }

  /** The tier a range watcher writes for a report: its entered tier when
      the element intersects, its left tier otherwise. */
  function RangeKey(keyOn: RangeState, keyOff: RangeState, isIntersecting: bool): (s: RangeState)
    ensures s == keyOn || s == keyOff
    ensures keyOn != keyOff ==> (s == keyOn <==> isIntersecting)
  {
    if isIntersecting then keyOn else keyOff
  }

  /** Each range watcher guards the boundary between two adjacent tiers:
      entering moves one tier deeper than leaving. */
  lemma RangeBindingsFormChain(w: WatcherId)
    ensures BindingOf(w).RangeCallback? ==>
      Depth(BindingOf(w).keyOn) == Depth(BindingOf(w).keyOff) + 1
  {
  }

  /** Every tier above compress is entered through exactly one range
      watcher. */
  lemma EachTierHasOneBoundary(s: RangeState)
    requires s != Compress
    ensures exists w :: BindingOf(w).RangeCallback? && BindingOf(w).keyOn == s
    ensures forall v, w ::
      (BindingOf(v).RangeCallback? && BindingOf(v).keyOn == s &&
       BindingOf(w).RangeCallback? && BindingOf(w).keyOn == s) ==> v == w
  {
    var w := match s
      case Hidden => DeployWatcher
      case Peep => PeepWatcher
      case Show => ShowWatcher;
    assert BindingOf(w).keyOn == s;
  }

  /** The selection rule agrees with the bindings: a range watcher is
      joined exactly when both tiers it can write were requested, and a
      focus-family watcher exactly when its tag was requested. */
  lemma SelectedMatchesBinding(range: seq<RangeTag>, w: WatcherId)
    ensures BindingOf(w).RangeCallback? ==>
      (Selected(range, w) <==>
        Tier(BindingOf(w).keyOn) in range && Tier(BindingOf(w).keyOff) in range)
    ensures BindingOf(w) == FocusCallback ==> (Selected(range, w) <==> FocusTagOf(w) in range)
  {
  }

  /** Consequently the tier an attached element's range watchers write is
      always one the caller requested. */
  lemma WrittenTierWasRequested(range: seq<RangeTag>, w: WatcherId, isIntersecting: bool)
    requires Selected(range, w) && BindingOf(w).RangeCallback?
    ensures Tier(RangeKey(BindingOf(w).keyOn, BindingOf(w).keyOff, isIntersecting)) in range
  {
    SelectedMatchesBinding(range, w);
  }

  /** The rule only asks whether tags occur: order and repetition in the
      request do not matter. */
  lemma SelectedDependsOnTagSet(r1: seq<RangeTag>, r2: seq<RangeTag>, w: WatcherId)
    requires forall t :: t in r1 <==> t in r2
    ensures Selected(r1, w) <==> Selected(r2, w)
  {
  }

  /** Asking for more tags never drops a watcher. */
  lemma SelectedMonotone(r1: seq<RangeTag>, r2: seq<RangeTag>, w: WatcherId)
    requires forall t :: t in r1 ==> t in r2
    ensures Selected(r1, w) ==> Selected(r2, w)
  {
  }

  /** A request naming a single tier joins no tier watcher: each needs two
      tiers. */
  lemma LoneTierJoinsNoRangeWatcher(s: RangeState, w: WatcherId)
    requires BindingOf(w).RangeCallback?
    ensures !Selected([Tier(s)], w)
  {
  }

  /** The full chain of four tiers joins the three range watchers and, with
      no focus tag, none of the focus-family ones. */
  lemma FullChainSelection(w: WatcherId)
    ensures Selected([Tier(Compress), Tier(Hidden), Tier(Peep), Tier(Show)], w)
      <==> BindingOf(w).RangeCallback?
  {
  }
}
