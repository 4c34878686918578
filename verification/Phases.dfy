/** The states of one strategy, symbol and session, with the two transition tables. */
module Phases {
  import opened Wrappers

  datatype Phase = Flat | EntryPending | Long | ExitPending | Cooldown | SessionClosed

  datatype Signal = EnterLong | ExitLong | Hold

  /** Times are whole minutes. */
  datatype RuntimeState =
    RuntimeState(phase: Phase,
                 entries: int,
                 openedAt: Option<int>,
                 cooldownUntil: Option<int>,
                 lastSignal: Option<Signal>,
                 lastSignalAt: Option<int>)
  {
    /** What constructing or replacing a state checks. */
    predicate Valid() {
      && entries >= 0
      && (lastSignal.None? <==> lastSignalAt.None?)
      && match phase
         case Long | ExitPending => entries != 0 && openedAt.Some? && cooldownUntil.None?
         case Cooldown => openedAt.None? && cooldownUntil.Some?
         case Flat | EntryPending | SessionClosed => openedAt.None? && cooldownUntil.None?
    }
  }

  const INITIAL := RuntimeState(Flat, 0, None, None, None, None)

  datatype RuntimeError =
    | IllegalTransition(from: Phase, to: Phase)
    | StateInvariant
    | NonPositiveCooldown
    | ClockBeforeOpening
    | CooldownNotElapsed

  function PublicTransitions(phase: Phase): set<Phase> {
    match phase
    case Flat => {EntryPending, SessionClosed}
    case EntryPending => {Flat, SessionClosed}
    case Long => {ExitPending, SessionClosed}
    case ExitPending => {Long, SessionClosed}
    case Cooldown => {Flat, SessionClosed}
    case SessionClosed => {}
  }

  function FillTransitions(phase: Phase): set<Phase> {
    match phase
    case EntryPending => {Long}
    case ExitPending => {Cooldown}
    case _ => {}
  }

  type Next = Result<RuntimeState, RuntimeError>

  function Checked(s: RuntimeState): Next {
    if s.Valid() then Success(s) else Failure(StateInvariant)
  }

  function Transition(s: RuntimeState, to: Phase): Next {
    if to !in PublicTransitions(s.phase) then Failure(IllegalTransition(s.phase, to))
    else if to.Flat? || to.SessionClosed? then Checked(s.(phase := to, openedAt := None, cooldownUntil := None))
    else Checked(s.(phase := to))
  }

  function RecordSignal(s: RuntimeState, signal: Signal, at: int): Next {
    if s.phase.SessionClosed? then Failure(IllegalTransition(s.phase, s.phase))
    else Checked(s.(lastSignal := Some(signal), lastSignalAt := Some(at)))
  }

  function OrderRejected(s: RuntimeState): Next {
    Transition(s, if s.phase.EntryPending? then Flat else Long)
  }

  function EntryFilled(s: RuntimeState, at: int): Next {
    if Long !in FillTransitions(s.phase) then Failure(IllegalTransition(s.phase, Long))
    else Checked(s.(phase := Long, entries := s.entries + 1, openedAt := Some(at), cooldownUntil := None))
  }

  function ExitFilled(s: RuntimeState, at: int, cooldownMinutes: int): Next {
    if Cooldown !in FillTransitions(s.phase) then Failure(IllegalTransition(s.phase, Cooldown))
    else if cooldownMinutes <= 0 then Failure(NonPositiveCooldown)
    else Checked(s.(phase := Cooldown, openedAt := None, cooldownUntil := Some(at + cooldownMinutes)))
  }

  function HoldingMinutes(s: RuntimeState, clock: int): Result<Option<int>, RuntimeError> {
    if !s.phase.Long? && !s.phase.ExitPending? then Success(None)
    else if s.openedAt.None? then Success(None)
    else if clock < s.openedAt.value then Failure(ClockBeforeOpening)
    else Success(Some(clock - s.openedAt.value))
  }

  predicate CooldownActive(s: RuntimeState, clock: int) {
    s.phase.Cooldown? && s.cooldownUntil.Some? && clock < s.cooldownUntil.value
  }

  function CompleteCooldown(s: RuntimeState, at: int): Next {
    if s.phase.SessionClosed? then Failure(IllegalTransition(s.phase, Flat))
    else if s.cooldownUntil.None? || at < s.cooldownUntil.value then Failure(CooldownNotElapsed)
    else Transition(s, Flat)
  }

  function CloseSession(s: RuntimeState): Next {
    Transition(s, SessionClosed)
  }

  /** The state of `key`, with the initial state for a key never saved. */
  function StateFor<K>(states: map<K, RuntimeState>, key: K): RuntimeState {
    if key in states then states[key] else INITIAL
  }

  /** One runtime call, as a caller sees it. */
  datatype Call =
    | SignalCall(signal: Signal, at: int)
    | TransitionCall(to: Phase)
    | RejectedCall
    | EntryFilledCall(at: int)
    | ExitFilledCall(at: int, cooldownMinutes: int)
    | CompleteCooldownCall(at: int)
    | CloseCall

  function Apply(s: RuntimeState, call: Call): Next {
    match call
    case SignalCall(signal, at) => RecordSignal(s, signal, at)
    case TransitionCall(to) => Transition(s, to)
    case RejectedCall => OrderRejected(s)
    case EntryFilledCall(at) => EntryFilled(s, at)
    case ExitFilledCall(at, cooldownMinutes) => ExitFilled(s, at, cooldownMinutes)
    case CompleteCooldownCall(at) => CompleteCooldown(s, at)
    case CloseCall => CloseSession(s)
  }

  function Run(s: RuntimeState, calls: seq<Call>): RuntimeState
    decreases |calls|
  {
    if calls == [] then s
    else
      var before := Run(s, calls[..|calls| - 1]);
      var next := Apply(before, calls[|calls| - 1]);
      if next.Success? then next.value else before
  }

  function EntryFills(s: RuntimeState, calls: seq<Call>): nat
    decreases |calls|
  {
    if calls == [] then 0
    else
      var before := Run(s, calls[..|calls| - 1]);
      var last := calls[|calls| - 1];
      EntryFills(s, calls[..|calls| - 1]) + (if last.EntryFilledCall? && Apply(before, last).Success? then 1 else 0)
  }

  /** The state invariant is never the reason a call on a valid state fails, only an accepted
      opening fill adds an entry, and a closed session accepts nothing. */
  lemma CallLaws(s: RuntimeState, call: Call)
    requires s.Valid()
    ensures var r := Apply(s, call);
            && r != Failure(StateInvariant)
            && (s.phase.SessionClosed? ==> r.Failure?)
            && (r.Success? ==> r.value.Valid() &&
                               r.value.entries == s.entries + (if call.EntryFilledCall? then 1 else 0))
  {}

  /** Whatever a caller tries on a fresh key: the state stays valid, `entries` counts exactly the
      accepted opening fills, and a closed session stays closed. */
  lemma {:induction false} RunLaws(calls: seq<Call>)
    ensures Run(INITIAL, calls).Valid()
    ensures Run(INITIAL, calls).entries == EntryFills(INITIAL, calls)
    ensures |calls| > 0 && Run(INITIAL, calls[..|calls| - 1]).phase.SessionClosed? ==>
              Run(INITIAL, calls) == Run(INITIAL, calls[..|calls| - 1])
    decreases |calls|
  {
    if calls != [] {
      RunLaws(calls[..|calls| - 1]);
      CallLaws(Run(INITIAL, calls[..|calls| - 1]), calls[|calls| - 1]);
    }
  }

  /** The steps a caller may ask for. */
  predicate Allowed(from: Phase, to: Phase) {
    || (from.Flat? && to.EntryPending?) || (from.EntryPending? && to.Flat?)
    || (from.Long? && to.ExitPending?) || (from.ExitPending? && to.Long?)
    || (from.Cooldown? && to.Flat?)
    || (to.SessionClosed? && !from.SessionClosed?)
  }

  /** When each call on a valid state is accepted, and where it leads. */
  lemma CallEffect(s: RuntimeState, call: Call)
    requires s.Valid()
    ensures var r := Apply(s, call);
            match call
            case SignalCall(signal, at) =>
              && (r.Success? <==> !s.phase.SessionClosed?)
              && (r.Success? ==> r.value == s.(lastSignal := Some(signal), lastSignalAt := Some(at)))
            case TransitionCall(to) =>
              && (r.Success? <==> Allowed(s.phase, to))
              && (r.Success? ==> r.value.phase == to && r.value.lastSignal == s.lastSignal)
              && (r.Success? && (to.Long? || to.ExitPending?) ==> r.value.openedAt == s.openedAt)
            case RejectedCall =>
              && (r.Success? <==> s.phase.EntryPending? || s.phase.ExitPending?)
              && (r.Success? ==> r.value == s.(phase := if s.phase.EntryPending? then Flat else Long))
            case EntryFilledCall(at) =>
              && (r.Success? <==> s.phase.EntryPending?)
              && (r.Success? ==> r.value == s.(phase := Long, entries := s.entries + 1, openedAt := Some(at)))
            case ExitFilledCall(at, minutes) =>
              && (r.Success? <==> s.phase.ExitPending? && minutes > 0)
              && (r.Success? ==> r.value == s.(phase := Cooldown, openedAt := None,
                                               cooldownUntil := Some(at + minutes)))
            case CompleteCooldownCall(at) =>
              && (r.Success? <==> s.phase.Cooldown? && at >= s.cooldownUntil.value)
              && (r.Success? ==> r.value == s.(phase := Flat, cooldownUntil := None))
            case CloseCall =>
              && (r.Success? <==> !s.phase.SessionClosed?)
              && (r.Success? ==> r.value == s.(phase := SessionClosed, openedAt := None, cooldownUntil := None))
  {}

  function ExitFills(s: RuntimeState, calls: seq<Call>): nat
    decreases |calls|
  {
    if calls == [] then 0
    else
      var before := Run(s, calls[..|calls| - 1]);
      var last := calls[|calls| - 1];
      ExitFills(s, calls[..|calls| - 1]) + (if last.ExitFilledCall? && Apply(before, last).Success? then 1 else 0)
  }

  /** Opening and closing fills alternate: before the session is closed, exactly an open position is
      an opening fill without its closing one. */
  lemma {:induction false} FillsAlternate(calls: seq<Call>)
    ensures var s := Run(INITIAL, calls);
            var open := EntryFills(INITIAL, calls) - ExitFills(INITIAL, calls);
            0 <= open <= 1 && (!s.phase.SessionClosed? ==> (open == 1 <==> s.phase.Long? || s.phase.ExitPending?))
    decreases |calls|
  {
    if calls != [] {
      var front, last := calls[..|calls| - 1], calls[|calls| - 1];
      FillsAlternate(front);
      RunLaws(front);
      CallEffect(Run(INITIAL, front), last);
    }
  }

  /** The holding time is counted from the opening fill, while the position is open; asking for it
      before that raises. */
  lemma HoldingMeans(s: RuntimeState, clock: int)
    requires s.Valid()
    ensures HoldingMinutes(s, clock) ==
            if s.phase.Long? || s.phase.ExitPending? then
              if clock < s.openedAt.value then Failure(ClockBeforeOpening) else Success(Some(clock - s.openedAt.value))
            else Success(None)
    ensures CooldownActive(s, clock) <==> s.phase.Cooldown? && clock < s.cooldownUntil.value
  {}
}
