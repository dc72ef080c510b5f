/** The settings panel as a pure state machine: the committed settings owned by
    the page, the open flag, and the draft owned by the form. Each transition is
    one handler followed by the form's synchronising effect, taken as a single
    atomic step. `d` is always the page's default settings record. */
module PanelSpec {
  import opened ArticleTypes

  datatype PageState = PageState(committed: ArticleState, isOpen: bool, draft: ArticleState)

  /** The user inputs that reach the panel. */
  datatype Event =
    | Toggle                                // the arrow button
    | OutsideClick                          // a click outside the panel
    | SetField(key: FieldKey, v: OptionType) // one editor reports a selection
    | Apply                                 // the form is submitted
    | Reset                                 // the reset button

  /** The state right after mount: default settings, panel closed, and the
      draft seeded from the settings the form was given. */
  function Init(d: ArticleState): (r: PageState)
    ensures r.committed == d && !r.isOpen
    ensures r.draft == r.committed
  {
    PageState(d, false, d)
  }

  /** The form's effect: when the panel is open and the open flag or the
      committed settings have just changed, the draft is overwritten by the
      committed settings. `before` is the state the handler started from,
      `after` the state the handler produced. */
  function Sync(before: PageState, after: PageState): (r: PageState)
    ensures r.committed == after.committed && r.isOpen == after.isOpen
    ensures r.isOpen && (r.isOpen != before.isOpen || r.committed != before.committed) ==> r.draft == r.committed
    ensures r.isOpen && r.isOpen == before.isOpen && r.committed == before.committed ==> r.draft == after.draft
    ensures !r.isOpen ==> r.draft == after.draft
  {
    if after.isOpen && (after.isOpen != before.isOpen || after.committed != before.committed)
    then after.(draft := after.committed)
    else after
  }

  /** The arrow button: flips the open flag. */
  function ToggleStep(s: PageState): (r: PageState)
    ensures r.isOpen == !s.isOpen
    ensures r.committed == s.committed
    ensures r.isOpen ==> r.draft == s.committed
    ensures !r.isOpen ==> r.draft == s.draft
  {
    Sync(s, s.(isOpen := !s.isOpen))
  }

  /** A click outside the panel toggles it only while it is open. */
  function OutsideClickStep(s: PageState): (r: PageState)
    ensures !s.isOpen ==> r == s
    ensures s.isOpen ==> !r.isOpen && r == ToggleStep(s)
    ensures r.committed == s.committed && r.draft == s.draft
  {
    var after := if s.isOpen then s.(isOpen := !s.isOpen) else s;
    Sync(s, after)
  }

  /** One editor reports a selection; editors exist only while the panel is open. */
  function SetFieldStep(s: PageState, k: FieldKey, v: OptionType): (r: PageState)
    requires s.isOpen
    ensures Get(r.draft, k) == v
    ensures forall j :: j != k ==> Get(r.draft, j) == Get(s.draft, j)
    ensures r.committed == s.committed && r.isOpen == s.isOpen
  {
    Sync(s, s.(draft := With(s.draft, k, v)))
  }

  /** Submitting hands the draft to the page, which commits it as it is. */
  function ApplyStep(s: PageState): (r: PageState)
    ensures r.committed == s.draft
    ensures r.draft == s.draft
    ensures r.isOpen == s.isOpen
  {
    Sync(s, s.(committed := s.draft))
  }

  /** The reset button: the form's draft and the page's settings both become the defaults. */
  function ResetStep(d: ArticleState, s: PageState): (r: PageState)
    ensures r.committed == d && r.draft == d
    ensures r.isOpen == s.isOpen
  {
    Sync(s, s.(draft := d, committed := d))
  }

  /** An event can arrive only if the control that emits it is on screen: the
      editors and the Apply and Reset buttons are rendered only while the panel
      is open; the arrow button and the outside-click listener are always there. */
  predicate Enabled(s: PageState, e: Event): (b: bool)
    ensures b <==> s.isOpen || e.Toggle? || e.OutsideClick?
  {
    (e.SetField? || e.Apply? || e.Reset?) ==> s.isOpen
  }

  function Step(d: ArticleState, s: PageState, e: Event): PageState
    requires Enabled(s, e)
  {
    match e
    case Toggle => ToggleStep(s)
    case OutsideClick => OutsideClickStep(s)
    case SetField(k, v) => SetFieldStep(s, k, v)
    case Apply => ApplyStep(s)
    case Reset => ResetStep(d, s)
  }

  /** Every event of `es` is enabled in the state the earlier ones lead to. */
  predicate Feasible(d: ArticleState, s: PageState, es: seq<Event>)
    decreases |es|
  {
    es == [] || (Enabled(s, es[0]) && Feasible(d, Step(d, s, es[0]), es[1..]))
  }

  function Run(d: ArticleState, s: PageState, es: seq<Event>): PageState
    requires Feasible(d, s, es)
    decreases |es|
  {
    if es == [] then s else Run(d, Step(d, s, es[0]), es[1..])
  }

  predicate Commits(e: Event)
  {
    e.Apply? || e.Reset?
  }

  /** Draft edits, toggles and outside clicks never reach the committed
      settings: only Apply and Reset change them. */
  lemma {:induction false} CommittedChangesOnlyOnCommit(d: ArticleState, s: PageState, es: seq<Event>)
    requires Feasible(d, s, es)
    requires forall e | e in es :: !Commits(e)
    ensures Run(d, s, es).committed == s.committed
    decreases |es|
  {
    if es != [] {
      assert es[0] in es;
      CommittedChangesOnlyOnCommit(d, Step(d, s, es[0]), es[1..]);
    }
  }

  /** The panel shows the committed settings. */
  predicate ShowsCommitted(s: PageState)
  {
    s.isOpen ==> s.draft == s.committed
  }

  /** As long as the user edits no field, an open panel shows exactly the
      committed settings, whatever the draft held before it was opened. */
  lemma {:induction false} ShowsCommittedWithoutEdits(d: ArticleState, s: PageState, es: seq<Event>)
    requires Feasible(d, s, es)
    requires ShowsCommitted(s)
    requires forall e | e in es :: !e.SetField?
    ensures ShowsCommitted(Run(d, s, es))
    decreases |es|
  {
    if es != [] {
      assert es[0] in es;
      ShowsCommittedWithoutEdits(d, Step(d, s, es[0]), es[1..]);
    }
  }

  /** On a closed panel every event that can arrive, apart from the arrow
      button, leaves the whole state as it is: nothing re-syncs, edits or
      resets the draft, and the settings stay. */
  lemma ClosedPanelInert(d: ArticleState, s: PageState, e: Event)
    requires !s.isOpen && Enabled(s, e) && !e.Toggle?
    ensures Step(d, s, e) == s
  {
  }

  /** Along any feasible sequence of events that never presses the arrow
      button, a closed panel stays closed and nothing about it changes. */
  lemma {:induction false} ClosedPanelStaysPut(d: ArticleState, s: PageState, es: seq<Event>)
    requires !s.isOpen
    requires Feasible(d, s, es)
    requires forall e | e in es :: !e.Toggle?
    ensures Run(d, s, es) == s
    decreases |es|
  {
    if es != [] {
      assert es[0] in es;
      ClosedPanelInert(d, s, es[0]);
      ClosedPanelStaysPut(d, Step(d, s, es[0]), es[1..]);
    }
  }

  /** Closing the panel discards the draft: after closing, by the arrow or by
      an outside click, and opening again, the panel shows the committed
      settings and not the abandoned edits. */
  lemma DiscardOnClose(s: PageState)
    requires s.isOpen
    ensures ToggleStep(ToggleStep(s)) == s.(draft := s.committed)
    ensures ToggleStep(OutsideClickStep(s)) == s.(draft := s.committed)
  {
  }

  /** Resetting twice is resetting once. */
  lemma ResetIdempotent(d: ArticleState, s: PageState)
    ensures ResetStep(d, ResetStep(d, s)) == ResetStep(d, s)
  {
  }

  /** The effect is idle after Apply and Reset: the handlers themselves already
      leave the draft equal to the committed settings, so whether the effect
      compares the committed settings by value or by identity does not matter. */
  lemma SyncIdleOnCommit(d: ArticleState, s: PageState)
    ensures Sync(s, s.(committed := s.draft)) == s.(committed := s.draft)
    ensures Sync(s, s.(draft := d, committed := d)) == s.(draft := d, committed := d)
  {
  }
}
