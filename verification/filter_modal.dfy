/** The home screen's filter dialog: two condition tags that combine into a
    three-valued `is_new`, a trade switch, payment check boxes, and the
    apply and reset buttons. */
module FilterModalView {
  import opened Common

  /** The dialog's state. `isNew` is kept in step with the tags by an
      effect that runs whenever a tag changes. */
  datatype FilterState = FilterState(
    newSelected: bool,
    usedSelected: bool,
    isNew: Option<bool>,
    tradeAccepted: Option<bool>,
    payments: Option<seq<string>>)

  /** The condition the two tags select: new when only NEW is selected, used
      when only USED is, and no condition when both or neither are. */
  function Derive(newSelected: bool, usedSelected: bool): (r: Option<bool>)
    ensures r == Some(true) <==> newSelected && !usedSelected
    ensures r == Some(false) <==> usedSelected && !newSelected
    ensures r.None? <==> newSelected == usedSelected
  {
    if newSelected && !usedSelected then Some(true)
    else if usedSelected && !newSelected then Some(false)
    else None
  }

  /** The effect has caught up with the tags. */
  predicate Synced(s: FilterState) {
    s.isNew == Derive(s.newSelected, s.usedSelected)
  }

  /** The state after mounting: nothing selected, every value undefined. */
  function InitialFilter(): (r: FilterState)
    ensures Synced(r) && !r.newSelected && !r.usedSelected
    ensures r.isNew.None? && r.tradeAccepted.None? && r.payments.None?
  {
    FilterState(false, false, None, None, None)
  }

  /** The effect on the two tags. */
  function Settle(s: FilterState): (r: FilterState)
    ensures Synced(r)
    ensures r.newSelected == s.newSelected && r.usedSelected == s.usedSelected
    ensures r.tradeAccepted == s.tradeAccepted && r.payments == s.payments
  {
    s.(isNew := Derive(s.newSelected, s.usedSelected))
  }

  /** The filter handed to the home screen: `{}` after a reset, otherwise
      the three values. */
  datatype FilterValue = EmptyFilter | Filter(isNew: Option<bool>, acceptTrade: Option<bool>, paymentMethods: Option<seq<string>>)

  /** A user action in the dialog. */
  datatype FilterEvent = PressNewTag | PressUsedTag | ToggleTrade | ChangePayments(methods: seq<string>) | ApplyFilter | ResetFilter

  /** The outcome of an event: the new state, the filter handed over (if
      any) and whether the dialog was toggled. */
  datatype FilterStep = FilterStep(state: FilterState, emitted: Option<FilterValue>, toggled: bool)

  /** Sets the two tags; the effect runs only when one of them changes. */
  function SetTags(s: FilterState, newSelected: bool, usedSelected: bool): (r: FilterState)
    ensures r.newSelected == newSelected && r.usedSelected == usedSelected
    ensures r.tradeAccepted == s.tradeAccepted && r.payments == s.payments
    ensures Synced(s) ==> Synced(r)
  {
    var t := s.(newSelected := newSelected, usedSelected := usedSelected);
    if t == s then s else Settle(t)
  }

  /** One event, with the tag effect when a tag changed. */
  function Handle(s: FilterState, e: FilterEvent): (r: FilterStep)
    ensures Synced(s) ==> Synced(r.state)
    ensures r.toggled <==> e == ApplyFilter
    ensures r.emitted.Some? <==> e == ApplyFilter || e == ResetFilter
    ensures e == ApplyFilter ==>
      && r.emitted == Some(Filter(s.isNew, s.tradeAccepted, s.payments))
      && !r.state.newSelected && !r.state.usedSelected
      && r.state.tradeAccepted == s.tradeAccepted && r.state.payments == s.payments
    ensures e == ResetFilter ==> r.emitted == Some(EmptyFilter) && r.state == InitialFilter()
    ensures e == PressNewTag ==>
      r.state.newSelected == !s.newSelected && r.state.usedSelected == s.usedSelected
    ensures e == PressUsedTag ==>
      r.state.usedSelected == !s.usedSelected && r.state.newSelected == s.newSelected
    ensures e == ToggleTrade ==>
      && (s.tradeAccepted == Some(true) ==> r.state.tradeAccepted == Some(false))
      && (s.tradeAccepted != Some(true) ==> r.state.tradeAccepted == Some(true))
    ensures e.ChangePayments? ==> r.state.payments == Some(e.methods)
    ensures e != ResetFilter && !e.ChangePayments? && e != ToggleTrade ==>
      r.state.tradeAccepted == s.tradeAccepted && r.state.payments == s.payments
  {
    match e
    case PressNewTag => FilterStep(SetTags(s, !s.newSelected, s.usedSelected), None, false)
    case PressUsedTag => FilterStep(SetTags(s, s.newSelected, !s.usedSelected), None, false)
    case ToggleTrade =>
      var trade := if s.tradeAccepted == Some(true) then Some(false) else Some(true);
      FilterStep(s.(tradeAccepted := trade), None, false)
    case ChangePayments(methods) => FilterStep(s.(payments := Some(methods)), None, false)
    case ApplyFilter =>
      FilterStep(SetTags(s, false, false), Some(Filter(s.isNew, s.tradeAccepted, s.payments)), true)
    case ResetFilter =>
      FilterStep(FilterState(false, false, None, None, None), Some(EmptyFilter), false)
  }

  /** Runs a sequence of events from a state. */
  function HandleAll(s: FilterState, es: seq<FilterEvent>): FilterState
    decreases |es|
  {
    if |es| == 0 then s else HandleAll(Handle(s, es[0]).state, es[1..])
  }

  /** Whatever the user does, the condition sent with the next Apply is the
      one the tags show. */
  lemma AlwaysSynced(es: seq<FilterEvent>)
    ensures Synced(HandleAll(InitialFilter(), es))
  {
    SyncedAfterAll(InitialFilter(), es);
  }

  lemma {:induction false} SyncedAfterAll(s: FilterState, es: seq<FilterEvent>)
    requires Synced(s)
    ensures Synced(HandleAll(s, es))
    decreases |es|
  {
    if |es| > 0 {
      SyncedAfterAll(Handle(s, es[0]).state, es[1..]);
    }
  }

  /** Pressing a tag twice gives back the state. */
  lemma TagPressInvolution(s: FilterState, e: FilterEvent)
    requires Synced(s)
    requires e == PressNewTag || e == PressUsedTag
    ensures Handle(Handle(s, e).state, e).state == s
  {
  }

  /** Selecting only NEW and applying emits `is_new` true; selecting both
      tags emits no condition. */
  lemma ConditionFromTags(tradeAccepted: Option<bool>, payments: Option<seq<string>>)
    ensures
      var s := FilterState(false, false, None, tradeAccepted, payments);
      Handle(Handle(s, PressNewTag).state, ApplyFilter).emitted == Some(Filter(Some(true), tradeAccepted, payments))
    ensures
      var s := FilterState(false, false, None, tradeAccepted, payments);
      var both := Handle(Handle(s, PressNewTag).state, PressUsedTag).state;
      Handle(both, ApplyFilter).emitted == Some(Filter(None, tradeAccepted, payments))
  {
  }

  /** Apply clears the tags but keeps the trade switch and the payment
      boxes, so applying twice in a row drops the condition from the second
      filter and keeps the rest. */
  lemma ReapplyDropsCondition(s: FilterState)
    requires Synced(s)
    ensures
      var again := Handle(Handle(s, ApplyFilter).state, ApplyFilter);
      again.emitted == Some(Filter(None, s.tradeAccepted, s.payments))
  {
  }
}
