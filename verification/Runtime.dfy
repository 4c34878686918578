/** The mutable runtime. */
module Runtimes {
  import opened Wrappers
  import opened Phases

  /** A call that succeeds saves the next state of its one key; a call that raises saves nothing. */
  ghost predicate Did<K>(before: map<K, RuntimeState>, key: K, step: Next, r: Result<(), RuntimeError>,
                         after: map<K, RuntimeState>)
  {
    match step
    case Success(s) => r == Success(()) && after == before[key := s]
    case Failure(e) => r == Failure(e) && after == before
  }

  class StrategyRuntime<K(==)> {
    var states: map<K, RuntimeState>

    constructor ()
      ensures states == map[]
    {
      states := map[];
    }

    method Save(key: K, next: Next) returns (r: Result<(), RuntimeError>)
      modifies this
      ensures Did(old(states), key, next, r, states)
    {
      if next.Failure? { return Failure(next.error); }
      states := states[key := next.value];
      return Success(());
    }

    method RecordSignal(key: K, signal: Signal, at: int) returns (r: Result<(), RuntimeError>)
      modifies this
      ensures Did(old(states), key, Phases.RecordSignal(StateFor(old(states), key), signal, at), r, states)
    {
      r := Save(key, Phases.RecordSignal(StateFor(states, key), signal, at));
    }

    method Transition(key: K, to: Phase) returns (r: Result<(), RuntimeError>)
      modifies this
      ensures Did(old(states), key, Phases.Transition(StateFor(old(states), key), to), r, states)
    {
      r := Save(key, Phases.Transition(StateFor(states, key), to));
    }

    method OrderRejected(key: K) returns (r: Result<(), RuntimeError>)
      modifies this
      ensures Did(old(states), key, Phases.OrderRejected(StateFor(old(states), key)), r, states)
    {
      r := Save(key, Phases.OrderRejected(StateFor(states, key)));
    }

    method EntryFilled(key: K, at: int) returns (r: Result<(), RuntimeError>)
      modifies this
      ensures Did(old(states), key, Phases.EntryFilled(StateFor(old(states), key), at), r, states)
    {
      r := Save(key, Phases.EntryFilled(StateFor(states, key), at));
    }

    method ExitFilled(key: K, at: int, cooldownMinutes: int) returns (r: Result<(), RuntimeError>)
      modifies this
      ensures Did(old(states), key, Phases.ExitFilled(StateFor(old(states), key), at, cooldownMinutes), r, states)
    {
      r := Save(key, Phases.ExitFilled(StateFor(states, key), at, cooldownMinutes));
    }

    method CompleteCooldown(key: K, at: int) returns (r: Result<(), RuntimeError>)
      modifies this
      ensures Did(old(states), key, Phases.CompleteCooldown(StateFor(old(states), key), at), r, states)
    {
      r := Save(key, Phases.CompleteCooldown(StateFor(states, key), at));
    }

    method CloseSession(key: K) returns (r: Result<(), RuntimeError>)
      modifies this
      ensures Did(old(states), key, Phases.CloseSession(StateFor(old(states), key)), r, states)
    {
      r := Save(key, Phases.CloseSession(StateFor(states, key)));
    }
  }
}
