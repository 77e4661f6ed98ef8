/** The MVI state container that every screen's view model builds on: one
    current state, an unbounded FIFO queue of intents handled one at a time by
    the screen's handler, an optional saved-state slot that mirrors the state,
    and one-shot effects delivered only to the subscribers present when they
    are emitted. */
module Mvi {
  import opened Results
  import opened MviActions

  /** The key the container saves its state under. */
  const StateKey: string := "mvi_state_key"

  /** A lifecycle-scoped key/value store that outlives a view model. */
  class SavedStateHandle<S> {
    var values: map<string, S>

    constructor (initial: map<string, S>)
      ensures values == initial
    {
      values := initial;
    }

    method Get(key: string) returns (r: Option<S>)
      ensures r.Some? <==> key in values
      ensures r.Some? ==> r.value == values[key]
    {
      r := if key in values then Some(values[key]) else None;
    }

    method Set(key: string, value: S)
      modifies this
      ensures values == old(values)[key := value]
    {
      values := values[key := value];
    }
  }

  class MviViewModel<I, !S, E> {
    const handle: SavedStateHandle?<S>
    /** The screen's `handleIntent`, given the state current when the intent is dequeued. */
    const handleIntent: (I, S) -> seq<Action<S, E>>

    var state: S
    /** Intents sent and not yet handled, oldest first. */
    var intents: seq<I>
    /** What each current effect subscriber has received so far, by subscriber id. */
    var inboxes: map<nat, seq<E>>
    var nextSubscriber: nat

    /** Every intent ever sent, and those already handled, in order. */
    ghost var sent: seq<I>
    ghost var handled: seq<I>

    /** The saved slot, when there is a handle and it holds a value. */
    ghost function Saved(): Option<S>
      reads this, handle
    {
      if handle != null && StateKey in handle.values then Some(handle.values[StateKey]) else None
    }

    ghost predicate Valid()
      reads this, handle
    {
      // FIFO: intents are handled in the order they were sent, none skipped
      && sent == handled + intents
      // the saved slot, once written, mirrors the current state
      && (Saved().Some? ==> Saved().value == state)
      && (forall id :: id in inboxes ==> id < nextSubscriber)
    }

    /** Restores the saved state if the handle holds one and otherwise calls
        the factory, which therefore need only be callable in that case. */
    constructor (handle: SavedStateHandle?<S>, createInitialState: () --> S,
                 handleIntent: (I, S) -> seq<Action<S, E>>)
      requires (handle == null || StateKey !in handle.values) ==> createInitialState.requires()
      ensures Valid()
      ensures this.handle == handle && this.handleIntent == handleIntent
      ensures handle != null && StateKey in handle.values ==> state == handle.values[StateKey]
      ensures (handle == null || StateKey !in handle.values) ==> state == createInitialState()
      ensures intents == [] && sent == [] && handled == [] && inboxes == map[]
    {
      var saved: Option<S> := None;
      if handle != null {
        saved := handle.Get(StateKey);
      }
      this.handle := handle;
      this.handleIntent := handleIntent;
      state := match saved case Some(s) => s case None => createInitialState();
      intents := [];
      inboxes := map[];
      nextSubscriber := 0;
      sent, handled := [], [];
    }

    /** The `state` getter. */
    method GetState() returns (s: S)
      requires Valid()
      ensures s == state
      ensures Saved().Some? ==> s == Saved().value
    {
      s := state;
    }

    /** Enqueues `intent` at the back of the unbounded queue; never rejects,
        and touches neither the state, the slot nor the subscribers. */
    method SendIntent(intent: I)
      requires Valid()
      modifies this
      ensures Valid()
      ensures intents == old(intents) + [intent] && sent == old(sent) + [intent]
      ensures handled == old(handled) && state == old(state) && Saved() == old(Saved())
      ensures inboxes == old(inboxes) && nextSubscriber == old(nextSubscriber)
    {
      intents := intents + [intent];
      sent := sent + [intent];
    }

    /** Replaces the state by `reducer` applied to it and writes the new state
        to the saved slot when there is a handle. */
    method SetState(reducer: S -> S)
      requires Valid()
      modifies this, handle
      ensures Valid()
      ensures state == reducer(old(state))
      ensures handle != null ==> handle.values == old(handle.values)[StateKey := state]
      ensures handle != null ==> Saved() == Some(state)
      ensures intents == old(intents) && sent == old(sent) && handled == old(handled)
      ensures inboxes == old(inboxes) && nextSubscriber == old(nextSubscriber)
    {
      var newState := reducer(state);
      state := newState;
      if handle != null {
        handle.Set(StateKey, newState);
      }
    }

    /** Delivers `effect` to the subscribers present now; with none, it is dropped. */
    method SendEffect(effect: E)
      requires Valid()
      modifies this
      ensures Valid()
      ensures inboxes == Deliver(old(inboxes), [effect])
      ensures old(inboxes) == map[] ==> inboxes == map[]
      ensures state == old(state) && Saved() == old(Saved())
      ensures intents == old(intents) && sent == old(sent) && handled == old(handled)
      ensures nextSubscriber == old(nextSubscriber)
    {
      inboxes := Deliver(inboxes, [effect]);
    }

    /** Starts collecting the effect stream; the new subscriber has received nothing. */
    method SubscribeEffects() returns (id: nat)
      requires Valid()
      modifies this
      ensures Valid()
      ensures id !in old(inboxes) && inboxes == old(inboxes)[id := []]
      ensures id == old(nextSubscriber) && nextSubscriber == id + 1
      ensures state == old(state) && Saved() == old(Saved())
      ensures intents == old(intents) && sent == old(sent) && handled == old(handled)
    {
      id := nextSubscriber;
      inboxes := inboxes[id := []];
      nextSubscriber := nextSubscriber + 1;
    }

    /** Stops collecting the effect stream. */
    method UnsubscribeEffects(id: nat)
      requires Valid()
      modifies this
      ensures Valid()
      ensures inboxes == old(inboxes) - {id}
      ensures state == old(state) && Saved() == old(Saved())
      ensures intents == old(intents) && sent == old(sent) && handled == old(handled)
      ensures nextSubscriber == old(nextSubscriber)
    {
      inboxes := inboxes - {id};
    }

    /** Performs a handler's actions in order. */
    method Perform(actions: seq<Action<S, E>>)
      requires Valid()
      modifies this, handle
      ensures Valid()
      ensures state == Reduce(actions, old(state))
      ensures inboxes == Deliver(old(inboxes), Effects(actions))
      ensures handle != null ==>
        handle.values == (if CommitsState(actions) then old(handle.values)[StateKey := state] else old(handle.values))
      ensures intents == old(intents) && sent == old(sent) && handled == old(handled)
      ensures nextSubscriber == old(nextSubscriber)
    {
      DeliverNothing(inboxes);
      for k := 0 to |actions|
        invariant Valid()
        invariant state == Reduce(actions[..k], old(state))
        invariant inboxes == Deliver(old(inboxes), Effects(actions[..k]))
        invariant handle != null ==>
          handle.values == (if CommitsState(actions[..k]) then old(handle.values)[StateKey := state] else old(handle.values))
        invariant intents == old(intents) && sent == old(sent) && handled == old(handled)
        invariant nextSubscriber == old(nextSubscriber)
      {
        assert actions[..k + 1][..k] == actions[..k];
        match actions[k]
        case SetState(r) =>
          SetState(r);
        case Emit(e) =>
          DeliverAppend(old(inboxes), Effects(actions[..k]), [e]);
          SendEffect(e);
      }
      assert actions[..|actions|] == actions;
    }

    /** One turn of the collector: takes the oldest intent, if any, and handles
        it completely against the state current at that moment. */
    method ProcessNext() returns (processed: bool)
      requires Valid()
      modifies this, handle
      ensures Valid()
      ensures processed <==> old(intents) != []
      ensures !processed ==>
        && state == old(state) && inboxes == old(inboxes) && handled == old(handled) && Saved() == old(Saved())
        && intents == old(intents) && (handle != null ==> handle.values == old(handle.values))
      ensures processed ==>
        var actions := handleIntent(old(intents)[0], old(state));
        && intents == old(intents)[1..] && handled == old(handled) + [old(intents)[0]]
        && state == Reduce(actions, old(state))
        && inboxes == Deliver(old(inboxes), Effects(actions))
        && (handle != null ==>
             handle.values == (if CommitsState(actions) then old(handle.values)[StateKey := state] else old(handle.values)))
      ensures sent == old(sent) && nextSubscriber == old(nextSubscriber)
    {
      if intents == [] {
        return false;
      }
      var intent := intents[0];
      intents := intents[1..];
      handled := handled + [intent];
      Perform(handleIntent(intent, state));
      processed := true;
    }

    /** The collect loop run until the queue is empty: every pending intent is
        handled, oldest first, each against the state its predecessor left. */
    method ProcessAll()
      requires Valid()
      modifies this, handle
      ensures Valid()
      ensures intents == [] && handled == old(handled) + old(intents) && sent == old(sent)
      ensures state == StateAfter(handleIntent, old(intents), old(state))
      ensures inboxes == Deliver(old(inboxes), Emitted(handleIntent, old(intents), old(state)))
      ensures handle != null ==>
        handle.values == (if CommitsAny(handleIntent, old(intents), old(state))
                          then old(handle.values)[StateKey := state] else old(handle.values))
      ensures nextSubscriber == old(nextSubscriber)
    {
      ghost var done: seq<I> := [];
      DeliverNothing(inboxes);
      while intents != []
        invariant Valid()
        invariant old(intents) == done + intents
        invariant handled == old(handled) + done && sent == old(sent)
        invariant state == StateAfter(handleIntent, done, old(state))
        invariant inboxes == Deliver(old(inboxes), Emitted(handleIntent, done, old(state)))
        invariant handle != null ==>
          handle.values == (if CommitsAny(handleIntent, done, old(state))
                            then old(handle.values)[StateKey := state] else old(handle.values))
        invariant nextSubscriber == old(nextSubscriber)
        decreases |intents|
      {
        ghost var next := intents[0];
        ghost var actions := handleIntent(next, state);
        if !CommitsState(actions) {
          NoCommitKeepsState(actions, state);
        }
        var _ := ProcessNext();
        assert (done + [next])[..|done|] == done;
        DeliverAppend(old(inboxes), Emitted(handleIntent, done, old(state)), Effects(actions));
        done := done + [next];
      }
      assert done == old(intents);
    }
  }

  /** Starting again with the same handle after `setState` restores the
      committed state; the second factory is never needed. */
  method RestoreAfterSetState<I, S, E>(
    handle: SavedStateHandle<S>, createInitialState: () -> S, neverCalled: () --> S,
    handleIntent: (I, S) -> seq<Action<S, E>>, reducer: S -> S)
    returns (first: MviViewModel<I, S, E>, second: MviViewModel<I, S, E>)
    modifies handle
    ensures second.state == first.state
    ensures StateKey !in old(handle.values) ==> second.state == reducer(createInitialState())
    ensures StateKey in old(handle.values) ==> second.state == reducer(old(handle.values)[StateKey])
  {
    first := new MviViewModel(handle, createInitialState, handleIntent);
    first.SetState(reducer);
    second := new MviViewModel(handle, neverCalled, handleIntent);
  }

  /** A late subscriber receives only the effects emitted after it subscribed. */
  method LateSubscriber<I, S, E>(vm: MviViewModel<I, S, E>, early: E, late: E) returns (id: nat)
    requires vm.Valid()
    modifies vm
    ensures vm.Valid()
    ensures id in vm.inboxes && vm.inboxes[id] == [late]
    ensures vm.state == old(vm.state)
  {
    vm.SendEffect(early);
    id := vm.SubscribeEffects();
    vm.SendEffect(late);
  }

  datatype CounterIntent = Increment | Decrement
  datatype Counter = Counter(count: int)

  function CounterHandler(intent: CounterIntent, s: Counter): seq<Action<Counter, ()>>
  {
    match intent
    case Increment => [SetState((c: Counter) => Counter(c.count + 1))]
    case Decrement => [SetState((c: Counter) => Counter(c.count - 1))]
  }

  /** One collector turn of the counter screen, observed through the `state` getter. */
  method CounterTurn(vm: MviViewModel<CounterIntent, Counter, ()>) returns (count: int)
    requires vm.Valid() && vm.handle == null && vm.handleIntent == CounterHandler && vm.intents != []
    modifies vm
    ensures vm.Valid() && vm.intents == old(vm.intents)[1..]
    ensures count == vm.state.count ==
      if old(vm.intents)[0] == Increment then old(vm.state).count + 1 else old(vm.state).count - 1
  {
    var _ := vm.ProcessNext();
    var s := vm.GetState();
    count := s.count;
  }

  /** Three intents sent before any is processed are handled in order: the
      observed counts go 0, 1, 2, 1. */
  method CounterScenario() returns (observed: seq<int>)
    ensures observed == [0, 1, 2, 1]
  {
    var vm := new MviViewModel<CounterIntent, Counter, ()>(null, () => Counter(0), CounterHandler);
    vm.SendIntent(Increment);
    vm.SendIntent(Increment);
    vm.SendIntent(Decrement);
    var s := vm.GetState();
    var c1 := CounterTurn(vm);
    var c2 := CounterTurn(vm);
    var c3 := CounterTurn(vm);
    observed := [s.count, c1, c2, c3];
  }
}
