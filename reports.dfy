/** The reports a watcher delivers, and what a batch of them leaves in one
    per-element record, stated on values. A record may be the tracker of
    several elements, so each fold is given the set `mine` of element ids
    whose tracker is the record in question. */
module Reports {
  import opened Wrappers
  import opened Edges
  import opened Ranges

  /** Elements are opaque identities. */
  type ElementId = nat

  /** One intersection report: its target, whether it intersects, the
      root bounds (absent before the watcher has initialised) and the
      target's bounding client rectangle. */
  datatype Report = Report(target: ElementId, isIntersecting: bool,
                           rootBounds: Option<Rect>, boundingClientRect: Rect)

  /** The `state` a record holds after the range callback bound to
      (keyOn, keyOff) has processed `es` in order, starting from `init`. */
  function RangeFold(keyOn: RangeState, keyOff: RangeState, es: seq<Report>,
                     mine: set<ElementId>, init: Option<RangeState>): Option<RangeState>
    decreases |es|
  {
    if es == [] then init
    else
      var e := es[|es| - 1];
      if WritesState(e, mine) then Some(RangeKey(keyOn, keyOff, e.isIntersecting))
      else RangeFold(keyOn, keyOff, es[..|es| - 1], mine, init)
  }

  /** The edge value a report writes, when it writes one. */
  function ReportEdgeValue(e: Report): (v: int)
    requires e.rootBounds.Some?
    ensures 0 <= v < 32
  {
    EdgeValue(e.isIntersecting, e.rootBounds.value, e.boundingClientRect)
  }

  /** The `focus` a record holds after the focus/edge callback has
      processed `es` in order, starting from `init`: a report without root
      bounds is skipped, any other overwrites the value. */
  function FocusFold(es: seq<Report>, mine: set<ElementId>, init: int): int
    decreases |es|
  {
    if es == [] then init
    else
      var e := es[|es| - 1];
      if WritesFocus(e, mine) then ReportEdgeValue(e)
      else FocusFold(es[..|es| - 1], mine, init)
  }

  /** The reports of a batch that carry root bounds, in their order: those
      the focus/edge callback acts on. */
  function Framed(es: seq<Report>): (fs: seq<Report>)
    ensures |fs| <= |es|
    ensures forall e :: e in fs <==> e in es && e.rootBounds.Some?
    decreases |es|
  {
    if es == [] then []
    else
      var e := es[|es| - 1];
      Framed(es[..|es| - 1]) + (if e.rootBounds.Some? then [e] else [])
  }

  /** Extending a prefix of the batch by one report extends its framed
      reports by that report when it has root bounds. */
  lemma FramedStep(es: seq<Report>, i: nat)
    requires i < |es|
    ensures es[..i + 1][..i] == es[..i]
    ensures Framed(es[..i + 1]) ==
      Framed(es[..i]) + (if es[i].rootBounds.Some? then [es[i]] else [])
  {
    assert es[..i + 1][..i] == es[..i];
  }

  /** One more report extends the range fold by one step. */
  lemma RangeFoldStep(keyOn: RangeState, keyOff: RangeState, es: seq<Report>, i: nat,
                      mine: set<ElementId>, init: Option<RangeState>)
    requires i < |es|
    ensures RangeFold(keyOn, keyOff, es[..i + 1], mine, init) ==
      if WritesState(es[i], mine) then Some(RangeKey(keyOn, keyOff, es[i].isIntersecting))
      else RangeFold(keyOn, keyOff, es[..i], mine, init)
  {
    assert es[..i + 1][..i] == es[..i];
  }

  /** One more report extends the focus fold by one step. */
  lemma FocusFoldStep(es: seq<Report>, i: nat, mine: set<ElementId>, init: int)
    requires i < |es|
    ensures FocusFold(es[..i + 1], mine, init) ==
      if WritesFocus(es[i], mine) then ReportEdgeValue(es[i])
      else FocusFold(es[..i], mine, init)
  {
    assert es[..i + 1][..i] == es[..i];
  }

  /** Whether the range callback writes the record for report `e`. */
  predicate WritesState(e: Report, mine: set<ElementId>) {
    e.target in mine
  }

  /** Whether the focus/edge callback writes the record for report `e`. */
  predicate WritesFocus(e: Report, mine: set<ElementId>) {
    e.target in mine && e.rootBounds.Some?
  }

  /** The index of the last report in `es` that the range callback writes
      into the record, or -1 if there is none. */
  function LastStateWrite(es: seq<Report>, mine: set<ElementId>): (j: int)
    ensures -1 <= j < |es|
    ensures j >= 0 ==> WritesState(es[j], mine)
    ensures forall k :: j < k < |es| ==> !WritesState(es[k], mine)
    decreases |es|
  {
    if es == [] then -1
    else if WritesState(es[|es| - 1], mine) then |es| - 1
    else LastStateWrite(es[..|es| - 1], mine)
  }

  /** The range state after a batch is decided by the last report about
      the record; with no such report the state is untouched. */
  lemma {:induction false} RangeLastReportWins(keyOn: RangeState, keyOff: RangeState,
                                               es: seq<Report>, mine: set<ElementId>,
                                               init: Option<RangeState>)
    ensures var j := LastStateWrite(es, mine);
      RangeFold(keyOn, keyOff, es, mine, init) ==
        if j < 0 then init else Some(RangeKey(keyOn, keyOff, es[j].isIntersecting))
    decreases |es|
  {
    if es != [] && !WritesState(es[|es| - 1], mine) {
      RangeLastReportWins(keyOn, keyOff, es[..|es| - 1], mine, init);
    }
  }

  /** After a batch the state is the initial one or one of the watcher's
      two tiers. */
  lemma {:induction false} RangeFoldInPair(keyOn: RangeState, keyOff: RangeState,
                                           es: seq<Report>, mine: set<ElementId>,
                                           init: Option<RangeState>)
    ensures RangeFold(keyOn, keyOff, es, mine, init) in {init, Some(keyOn), Some(keyOff)}
    decreases |es|
  {
    if es != [] && !WritesState(es[|es| - 1], mine) {
      RangeFoldInPair(keyOn, keyOff, es[..|es| - 1], mine, init);
    }
  }

  /** A report about the record makes the earlier state irrelevant: the
      state is overwritten, not combined with what was there. */
  lemma {:induction false} RangeOverwrites(keyOn: RangeState, keyOff: RangeState,
                                           es: seq<Report>, mine: set<ElementId>,
                                           init1: Option<RangeState>, init2: Option<RangeState>)
    requires exists j :: 0 <= j < |es| && WritesState(es[j], mine)
    ensures RangeFold(keyOn, keyOff, es, mine, init1) == RangeFold(keyOn, keyOff, es, mine, init2)
    decreases |es|
  {
    var n := |es| - 1;
    if !WritesState(es[n], mine) {
      var j :| 0 <= j < |es| && WritesState(es[j], mine);
      assert es[..n][j] == es[j];
      RangeOverwrites(keyOn, keyOff, es[..n], mine, init1, init2);
    }
  }

  /** The index of the last report in `es` that the focus/edge callback
      writes into the record, or -1 if there is none. */
  function LastFocusWrite(es: seq<Report>, mine: set<ElementId>): (j: int)
    ensures -1 <= j < |es|
    ensures j >= 0 ==> WritesFocus(es[j], mine)
    ensures forall k :: j < k < |es| ==> !WritesFocus(es[k], mine)
    decreases |es|
  {
    if es == [] then -1
    else if WritesFocus(es[|es| - 1], mine) then |es| - 1
    else LastFocusWrite(es[..|es| - 1], mine)
  }

  /** The edge value after a batch is the one written by the last report
      about the record that has root bounds; with none it is untouched. */
  lemma {:induction false} FocusLastReportWins(es: seq<Report>, mine: set<ElementId>, init: int)
    ensures var j := LastFocusWrite(es, mine);
      FocusFold(es, mine, init) == if j < 0 then init else ReportEdgeValue(es[j])
    decreases |es|
  {
    if es != [] && !WritesFocus(es[|es| - 1], mine) {
      FocusLastReportWins(es[..|es| - 1], mine, init);
    }
  }

  /** A framed report about the record makes the earlier edge value
      irrelevant: `focus` is overwritten, never OR-ed with the old bits. */
  lemma {:induction false} FocusOverwrites(es: seq<Report>, mine: set<ElementId>, init1: int, init2: int)
    requires exists j :: 0 <= j < |es| && WritesFocus(es[j], mine)
    ensures FocusFold(es, mine, init1) == FocusFold(es, mine, init2)
    decreases |es|
  {
    var n := |es| - 1;
    if !WritesFocus(es[n], mine) {
      var j :| 0 <= j < |es| && WritesFocus(es[j], mine);
      assert es[..n][j] == es[j];
      FocusOverwrites(es[..n], mine, init1, init2);
    }
  }

  /** Reports without root bounds change nothing: dropping them all from
      the batch leaves the same edge value. */
  lemma {:induction false} FocusIgnoresUnframed(es: seq<Report>, mine: set<ElementId>, init: int)
    ensures FocusFold(es, mine, init) == FocusFold(Framed(es), mine, init)
    decreases |es|
  {
    if es != [] {
      var n := |es| - 1;
      var e := es[n];
      FocusIgnoresUnframed(es[..n], mine, init);
      if e.rootBounds.Some? {
        var fs := Framed(es[..n]) + [e];
        assert Framed(es) == fs;
        assert fs[..|fs| - 1] == Framed(es[..n]);
      } else {
        assert Framed(es) == Framed(es[..n]);
      }
    }
  }

  /** The edge value stays a five-bit mask from any five-bit start. */
  lemma {:induction false} FocusFoldBounded(es: seq<Report>, mine: set<ElementId>, init: int)
    requires 0 <= init < 32
    ensures 0 <= FocusFold(es, mine, init) < 32
    decreases |es|
  {
    if es != [] {
      FocusFoldBounded(es[..|es| - 1], mine, init);
    }
  }

  /** Across watchers the order of batches decides the state, because each
      range watcher overwrites it: an intersecting report from the show
      watcher followed by one from the deploy watcher leaves hidden, and the
      other order leaves show. */
  lemma LastWatcherDecides(e: Report, mine: set<ElementId>, init: Option<RangeState>)
    requires e.target in mine && e.isIntersecting
    ensures RangeFold(Hidden, Compress, [e], mine, RangeFold(Show, Peep, [e], mine, init)) == Some(Hidden)
    ensures RangeFold(Show, Peep, [e], mine, RangeFold(Hidden, Compress, [e], mine, init)) == Some(Show)
  {
  }
}
