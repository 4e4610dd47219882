/** The visibility-state engine: the per-element record, the shared
    watchers, the two callbacks that write records, and registration with
    attach and destroy. */
module Observer {
  import opened Wrappers
  import opened Edges
  import opened Ranges
  import opened Reports

  /** A caller-supplied change hook, known by identity only; `Noop` is the
      default hook that does nothing. */
  datatype ChangeHook = Noop | Custom(id: nat)

  datatype OperationsOptions = OperationsOptions(change: ChangeHook)

  /** An absent `change` option falls back to the no-op hook. */
  function WithDefault(change: Option<ChangeHook>): ChangeHook {
    if change.Some? then change.value else Noop
  }

  /** One invocation of a record's change hook: the hook called, the
      record passed to it, and the record's `state` and `focus` at the
      moment of the call. */
  datatype Call = Call(hook: ChangeHook, record: Operations, state: Option<RangeState>, focus: int)

  /** The per-element record. `range` is what the attach listener closes
      over: the tags requested when the record was made. */
  class Operations {
    var focus: int
    var state: Option<RangeState>
    var el: Option<ElementId>
    var options: OperationsOptions
    const range: seq<RangeTag>

    constructor (change: Option<ChangeHook>, range: seq<RangeTag>)
      ensures options == OperationsOptions(WithDefault(change))
      ensures change.None? ==> options.change == Noop
      ensures this.range == range
      ensures state == None && focus == 0 && el == None
    {
      options := OperationsOptions(WithDefault(change));
      this.range := range;
      state := None;
      focus := 0;
      el := None;
    }

    /** Swaps the change hook and hands back the same record; `state`,
        `focus`, `el` and the listener lie outside the frame. */
    method SetOptions(change: Option<ChangeHook>) returns (self: Operations)
      modifies this`options
      ensures options == OperationsOptions(WithDefault(change))
      ensures change.None? ==> options.change == Noop
      ensures self == this
    {
      options := OperationsOptions(WithDefault(change));
      self := this;
    }
  }

  /** One shared watcher: the callback it was built with and the set of
      elements it currently observes. Observing and unobserving follow set
      semantics, so unobserving an element never observed does nothing. */
  class Watcher {
    const binding: Binding
    var targets: set<ElementId>

    constructor (binding: Binding)
      ensures this.binding == binding && targets == {}
    {
      this.binding := binding;
      targets := {};
    }

    method Observe(el: ElementId)
      modifies this`targets
      ensures targets == old(targets) + {el}
    {
      targets := targets + {el};
    }

    /** Observes `el` when `selected` holds, and otherwise does nothing. */
    method ObserveWhen(selected: bool, el: ElementId)
      modifies this`targets
      ensures targets == old(targets) + (if selected then {el} else {})
    {
      if selected { Observe(el); }
    }

    method Unobserve(el: ElementId)
      modifies this`targets
      ensures targets == old(targets) - {el}
    {
      targets := targets - {el};
    }
  }

  /** The elements whose back-reference points at record `r`. */
  ghost function Owned(trackers: map<ElementId, Operations>, r: Operations): set<ElementId> {
    set x | x in trackers && trackers[x] == r
  }

  /** The hook call the range callback bound to (keyOn, keyOff) makes for
      report `e`: the record's hook, the record, the tier just written and
      the record's `focus`. */
  function RangeCall(keyOn: RangeState, keyOff: RangeState, e: Report,
                     trackers: map<ElementId, Operations>): Call
    requires e.target in trackers
    reads {trackers[e.target]}`options, {trackers[e.target]}`focus
  {
    var rec := trackers[e.target];
    Call(rec.options.change, rec, Some(RangeKey(keyOn, keyOff, e.isIntersecting)), rec.focus)
  }

  /** The range callback's work on one report: the target's record's
      `state` becomes the entered or left tier, and its hook is called once,
      after the write. */
  method RangeEntry(keyOn: RangeState, keyOff: RangeState, e: Report,
                    trackers: map<ElementId, Operations>) returns (call: Call)
    requires e.target in trackers
    modifies trackers.Values`state
    ensures forall r :: r in trackers.Values ==>
      r.state == if WritesState(e, Owned(trackers, r)) then Some(RangeKey(keyOn, keyOff, e.isIntersecting))
                 else old(r.state)
    ensures call == RangeCall(keyOn, keyOff, e, trackers)
  {
    var tracker := trackers[e.target];
    var change := tracker.options.change;
    tracker.state := Some(if e.isIntersecting then keyOn else keyOff);
    call := Call(change, tracker, tracker.state, tracker.focus);
  }

  /** The range callback bound to (keyOn, keyOff): for each report in
      order, writes the target's record's `state` and calls its hook once.
      `trackers` holds each element's back-reference to its record. */
  method CbRange(keyOn: RangeState, keyOff: RangeState, entries: seq<Report>,
                 trackers: map<ElementId, Operations>) returns (calls: seq<Call>)
    requires forall e :: e in entries ==> e.target in trackers
    modifies trackers.Values`state
    ensures forall r :: r in trackers.Values ==>
      r.state == RangeFold(keyOn, keyOff, entries, Owned(trackers, r), old(r.state))
    ensures |calls| == |entries|
    ensures forall k :: 0 <= k < |entries| ==> calls[k] == RangeCall(keyOn, keyOff, entries[k], trackers)
  {
    calls := [];
    var i := 0;
    while i < |entries|
      invariant 0 <= i <= |entries|
      invariant forall r :: r in trackers.Values ==>
        r.state == RangeFold(keyOn, keyOff, entries[..i], Owned(trackers, r), old(r.state))
      invariant |calls| == i
      invariant forall k :: 0 <= k < i ==> calls[k] == RangeCall(keyOn, keyOff, entries[k], trackers)
    {
      var call := RangeEntry(keyOn, keyOff, entries[i], trackers);
      calls := calls + [call];
      forall r | r in trackers.Values {
        RangeFoldStep(keyOn, keyOff, entries, i, Owned(trackers, r), old(r.state));
      }
      i := i + 1;
    }
    assert entries[..i] == entries;
  }

  /** The mask of one framed report, accumulated bit by bit with `|=`. */
  method Sides(isIntersecting: bool, root: Rect, rect: Rect) returns (sides: bv32)
    ensures sides == EdgeMask(isIntersecting, root, rect)
    ensures sides as int == EdgeValue(isIntersecting, root, rect)
  {
    sides := 0;
    if isIntersecting { sides := sides | FOCUS; }
    if root.top > rect.top { sides := sides | TOP; }
    if root.right < rect.right { sides := sides | RIGHT; }
    if root.bottom < rect.bottom { sides := sides | BOTTOM; }
    if root.left > rect.left { sides := sides | LEFT; }
  }

  /** The hook call the focus/edge callback makes for a framed report `e`:
      the record's hook, the record, its `state` and the mask just written. */
  function FocusCall(e: Report, trackers: map<ElementId, Operations>): Call
    requires e.target in trackers && e.rootBounds.Some?
    reads {trackers[e.target]}`options, {trackers[e.target]}`state
  {
    var rec := trackers[e.target];
    Call(rec.options.change, rec, rec.state, ReportEdgeValue(e))
  }

  /** The focus/edge callback's work on one report: nothing when it has no
      root bounds, and otherwise the target's record's `focus` is
      overwritten with the report's mask and its hook is called once. */
  method FocusEntry(e: Report, trackers: map<ElementId, Operations>) returns (calls: seq<Call>)
    requires e.rootBounds.Some? ==> e.target in trackers
    modifies trackers.Values`focus
    ensures forall r :: r in trackers.Values ==>
      r.focus == if WritesFocus(e, Owned(trackers, r)) then ReportEdgeValue(e) else old(r.focus)
    ensures calls == if e.rootBounds.Some? then [FocusCall(e, trackers)] else []
  {
    calls := [];
    if e.rootBounds.Some? {
      var tracker := trackers[e.target];
      var change := tracker.options.change;
      var sides := Sides(e.isIntersecting, e.rootBounds.value, e.boundingClientRect);
      tracker.focus := sides as int;
      calls := [Call(change, tracker, tracker.state, tracker.focus)];
    }
  }

  /** The focus/edge callback: for each report in order, skips it when it
      has no root bounds, and otherwise builds the edge mask, overwrites the
      target's record's `focus` with it and calls the record's hook once. */
  method CbFocus(entries: seq<Report>, trackers: map<ElementId, Operations>) returns (calls: seq<Call>)
    requires forall e :: e in entries && e.rootBounds.Some? ==> e.target in trackers
    modifies trackers.Values`focus
    ensures forall r :: r in trackers.Values ==>
      r.focus == FocusFold(entries, Owned(trackers, r), old(r.focus))
    ensures |calls| == |Framed(entries)|
    ensures forall k :: 0 <= k < |calls| ==> calls[k] == FocusCall(Framed(entries)[k], trackers)
  {
    calls := [];
    var i := 0;
    while i < |entries|
      invariant 0 <= i <= |entries|
      invariant forall r :: r in trackers.Values ==>
        r.focus == FocusFold(entries[..i], Owned(trackers, r), old(r.focus))
      invariant forall e :: e in Framed(entries[..i]) ==> e.target in trackers
      invariant |calls| == |Framed(entries[..i])|
      invariant forall k :: 0 <= k < |calls| ==> calls[k] == FocusCall(Framed(entries[..i])[k], trackers)
    {
      assert entries[i] in entries;
      var made := FocusEntry(entries[i], trackers);
      FramedStep(entries, i);
      calls := calls + made;
      forall r | r in trackers.Values {
        FocusFoldStep(entries, i, Owned(trackers, r), old(r.focus));
      }
      i := i + 1;
    }
    assert entries[..i] == entries;
  }

  /** The handle `attach` returns; destroying it detaches its element. */
  datatype Detach = Detach(el: ElementId)

  /** The process-wide pool of seven watchers, each built once with its
      callback, together with the back-reference every element holds to its
      record. */
  class Engine {
    const deploy: Watcher
    const peep: Watcher
    const show: Watcher
    const core: Watcher
    const horizon: Watcher
    const vertical: Watcher
    const box: Watcher
    var trackers: map<ElementId, Operations>

    /** The watcher of the pool that `w` names. */
    function Get(w: WatcherId): Watcher {
      match w
      case DeployWatcher => deploy
      case PeepWatcher => peep
      case ShowWatcher => show
      case CoreWatcher => core
      case HorizonWatcher => horizon
      case VerticalWatcher => vertical
      case BoxWatcher => box
    }

    /** The seven watchers are pairwise distinct objects, so observing on
        one leaves the others' targets alone. */
    predicate Distinct() {
      deploy != peep && deploy != show && deploy != core && deploy != horizon &&
      deploy != vertical && deploy != box &&
      peep != show && peep != core && peep != horizon && peep != vertical && peep != box &&
      show != core && show != horizon && show != vertical && show != box &&
      core != horizon && core != vertical && core != box &&
      horizon != vertical && horizon != box && vertical != box
    }

    /** The pool invariant: seven distinct watchers, each with the callback
        the pool binds it to, and every observed element has a record. */
    ghost predicate Valid()
      reads this, deploy, peep, show, core, horizon, vertical, box
    {
      Distinct() &&
      (forall w :: Get(w).binding == BindingOf(w)) &&
      (forall w, x :: x in Get(w).targets ==> x in trackers)
    }

    /** Builds the pool: the three range watchers bound to their tier
        pairs, the four focus-family watchers to the focus/edge callback. */
    constructor ()
      ensures Valid()
      ensures trackers == map[]
      ensures forall w :: Get(w).targets == {}
      ensures fresh({deploy, peep, show, core, horizon, vertical, box})
    {
      deploy := new Watcher(RangeCallback(Hidden, Compress));
      peep := new Watcher(RangeCallback(Peep, Hidden));
      show := new Watcher(RangeCallback(Show, Peep));
      core := new Watcher(FocusCallback);
      horizon := new Watcher(FocusCallback);
      vertical := new Watcher(FocusCallback);
      box := new Watcher(FocusCallback);
      trackers := map[];
    }

    /** Registration: a fresh record for the requested tags, not yet
        attached to any element. */
    method Observe(range: seq<RangeTag>, change: Option<ChangeHook>) returns (ops: Operations)
      ensures fresh(ops)
      ensures ops.range == range && ops.options == OperationsOptions(WithDefault(change))
      ensures ops.state == None && ops.focus == 0 && ops.el == None
    {
      ops := new Operations(change, range);
    }

    /** The attach listener: records the element on the record and the
        record on the element, then adds the element to exactly the watchers
        the selection rule picks for the record's tags. */
    method Attach(ops: Operations, el: ElementId) returns (handle: Detach)
      requires Valid()
      modifies this`trackers, ops`el
      modifies deploy`targets, peep`targets, show`targets, core`targets
      modifies horizon`targets, vertical`targets, box`targets
      ensures Valid()
      ensures ops.el == Some(el)
      ensures trackers == old(trackers)[el := ops]
      ensures forall w ::
        Get(w).targets == old(Get(w).targets) + (if Selected(ops.range, w) then {el} else {})
      ensures handle == Detach(el)
    {
      ops.el := Some(el);
      trackers := trackers[el := ops];
      var range := ops.range;
      deploy.ObserveWhen(Tier(Hidden) in range && Tier(Compress) in range, el);
      peep.ObserveWhen(Tier(Peep) in range && Tier(Hidden) in range, el);
      show.ObserveWhen(Tier(Show) in range && Tier(Peep) in range, el);
      core.ObserveWhen(Focus in range, el);
      horizon.ObserveWhen(Horizon in range, el);
      vertical.ObserveWhen(Vertical in range, el);
      box.ObserveWhen(Box in range, el);
      handle := Detach(el);
      forall w
        ensures Get(w).targets == old(Get(w).targets) + (if Selected(range, w) then {el} else {})
      {
        match w
        case DeployWatcher =>
        case PeepWatcher =>
        case ShowWatcher =>
        case CoreWatcher =>
        case HorizonWatcher =>
        case VerticalWatcher =>
        case BoxWatcher =>
      }
    }

    /** `destroy`: removes the element from all seven watchers, whichever
        it joined. The back-reference to its record stays in place. */
    method Destroy(handle: Detach)
      requires Valid()
      modifies deploy`targets, peep`targets, show`targets, core`targets
      modifies horizon`targets, vertical`targets, box`targets
      ensures Valid()
      ensures forall w :: Get(w).targets == old(Get(w).targets) - {handle.el}
      ensures forall w :: handle.el !in Get(w).targets
    {
      var el := handle.el;
      deploy.Unobserve(el);
      peep.Unobserve(el);
      show.Unobserve(el);
      core.Unobserve(el);
      horizon.Unobserve(el);
      vertical.Unobserve(el);
      box.Unobserve(el);
      forall w
        ensures Get(w).targets == old(Get(w).targets) - {el}
      {
        match w
        case DeployWatcher =>
        case PeepWatcher =>
        case ShowWatcher =>
        case CoreWatcher =>
        case HorizonWatcher =>
        case VerticalWatcher =>
        case BoxWatcher =>
      }
    }

    /** Delivers a batch of reports from watcher `w` to the callback it was
        built with. Every target the callback looks up through its
        back-reference must have a record: every target for a range watcher,
        and the targets of reports with root bounds for a focus-family one. */
    method Deliver(w: WatcherId, entries: seq<Report>) returns (calls: seq<Call>)
      requires Valid()
      requires forall e ::
        e in entries && (BindingOf(w).RangeCallback? || e.rootBounds.Some?) ==> e.target in trackers
      modifies trackers.Values`state, trackers.Values`focus
      ensures Valid()
      ensures BindingOf(w).RangeCallback? ==>
        var b := BindingOf(w);
        (forall r :: r in trackers.Values ==>
          r.state == RangeFold(b.keyOn, b.keyOff, entries, Owned(trackers, r), old(r.state)) &&
          r.state in {old(r.state), Some(b.keyOn), Some(b.keyOff)} &&
          r.focus == old(r.focus)) &&
        |calls| == |entries| &&
        forall k :: 0 <= k < |entries| ==> calls[k] == RangeCall(b.keyOn, b.keyOff, entries[k], trackers)
      ensures BindingOf(w) == FocusCallback ==>
        (forall r :: r in trackers.Values ==>
          r.focus == FocusFold(entries, Owned(trackers, r), old(r.focus)) &&
          r.state == old(r.state)) &&
        |calls| == |Framed(entries)| &&
        forall k :: 0 <= k < |calls| ==> calls[k] == FocusCall(Framed(entries)[k], trackers)
    {
      var b := Get(w).binding;
      if b.RangeCallback? {
        calls := CbRange(b.keyOn, b.keyOff, entries, trackers);
        forall r | r in trackers.Values
          ensures r.state in {old(r.state), Some(b.keyOn), Some(b.keyOff)}
        {
          RangeFoldInPair(b.keyOn, b.keyOff, entries, Owned(trackers, r), old(r.state));
        }
      } else {
        calls := CbFocus(entries, trackers);
      }
    }
  }
}
