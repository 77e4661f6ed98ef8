/** What a screen's intent handler does, as values: the handler answers an
    intent with a sequence of actions that the container applies in order.
    The functions here are the reference meaning of handling one intent and
    of handling a queue of intents one after another. */
module MviActions {

  /** `setState(reducer)` or `sendEffect(effect)`, issued by a handler. */
  datatype Action<!S, E> = SetState(reducer: S -> S) | Emit(effect: E)

  /** The state after the reducers of `actions` are applied in order to `s`. */
  function Reduce<S, E>(actions: seq<Action<S, E>>, s: S): S
  {
    if actions == [] then s
    else
      var before := Reduce(actions[..|actions| - 1], s);
      match actions[|actions| - 1]
      case SetState(r) => r(before)
      case Emit(_) => before
  }

  /** The effects `actions` emit, in order. */
  function Effects<S, E>(actions: seq<Action<S, E>>): seq<E>
  {
    if actions == [] then []
    else
      var before := Effects(actions[..|actions| - 1]);
      match actions[|actions| - 1]
      case SetState(_) => before
      case Emit(e) => before + [e]
  }

  /** Whether `actions` commit a state at least once. */
  predicate CommitsState<S, E>(actions: seq<Action<S, E>>)
  {
    actions != [] && (actions[|actions| - 1].SetState? || CommitsState(actions[..|actions| - 1]))
  }

  /** Every current subscriber receives `effects`; nobody else does. */
  function Deliver<E>(inboxes: map<nat, seq<E>>, effects: seq<E>): map<nat, seq<E>>
  {
    map id | id in inboxes :: inboxes[id] + effects
  }

  /** The state after the intents of `queue` are handled one at a time, in
      order, starting from `s`; each intent sees the state its predecessors left. */
  function StateAfter<I, S, E>(handler: (I, S) -> seq<Action<S, E>>, queue: seq<I>, s: S): S
  {
    if queue == [] then s
    else
      var before := StateAfter(handler, queue[..|queue| - 1], s);
      Reduce(handler(queue[|queue| - 1], before), before)
  }

  /** The effects emitted while the intents of `queue` are handled in order. */
  function Emitted<I, S, E>(handler: (I, S) -> seq<Action<S, E>>, queue: seq<I>, s: S): seq<E>
  {
    if queue == [] then []
    else
      var prefix := queue[..|queue| - 1];
      Emitted(handler, prefix, s) + Effects(handler(queue[|queue| - 1], StateAfter(handler, prefix, s)))
  }

  /** Whether handling the intents of `queue` in order, starting from `s`,
      commits a state at least once. */
  predicate CommitsAny<I, S, E>(handler: (I, S) -> seq<Action<S, E>>, queue: seq<I>, s: S)
  {
    queue != [] &&
    var prefix := queue[..|queue| - 1];
    (CommitsState(handler(queue[|queue| - 1], StateAfter(handler, prefix, s))) || CommitsAny(handler, prefix, s))
  }

  /** Applying two action sequences one after the other is applying their concatenation. */
  lemma {:induction false} ReduceAppend<S, E>(a: seq<Action<S, E>>, b: seq<Action<S, E>>, s: S)
    ensures Reduce(a + b, s) == Reduce(b, Reduce(a, s))
  {
    if b == [] {
      assert a + b == a;
    } else {
      var b' := b[..|b| - 1];
      assert (a + b)[..|a + b| - 1] == a + b';
      assert (a + b)[|a + b| - 1] == b[|b| - 1];
      ReduceAppend(a, b', s);
    }
  }

  lemma {:induction false} EffectsAppend<S, E>(a: seq<Action<S, E>>, b: seq<Action<S, E>>)
    ensures Effects(a + b) == Effects(a) + Effects(b)
  {
    if b == [] {
      assert a + b == a;
    } else {
      var b' := b[..|b| - 1];
      assert (a + b)[..|a + b| - 1] == a + b';
      assert (a + b)[|a + b| - 1] == b[|b| - 1];
      EffectsAppend(a, b');
    }
  }

  /** The state is committed exactly when some action is a `SetState`. */
  lemma {:induction false} CommitsStateIff<S, E>(actions: seq<Action<S, E>>)
    ensures CommitsState(actions) <==> exists k :: 0 <= k < |actions| && actions[k].SetState?
  {
    if actions != [] {
      var prefix := actions[..|actions| - 1];
      CommitsStateIff(prefix);
      if CommitsState(prefix) {
        var k :| 0 <= k < |prefix| && prefix[k].SetState?;
        assert actions[k].SetState?;
      }
      forall k | 0 <= k < |actions| - 1 && actions[k].SetState?
        ensures CommitsState(prefix)
      {
        assert prefix[k].SetState?;
      }
    }
  }

  /** Emitting effects never changes the state. */
  lemma {:induction false} EmitsKeepState<S, E>(actions: seq<Action<S, E>>, s: S)
    requires forall k :: 0 <= k < |actions| ==> actions[k].Emit?
    ensures Reduce(actions, s) == s
    ensures !CommitsState(actions)
  {
    if actions != [] {
      EmitsKeepState(actions[..|actions| - 1], s);
    }
  }

  /** Actions that commit no state leave it unchanged. */
  lemma {:induction false} NoCommitKeepsState<S, E>(actions: seq<Action<S, E>>, s: S)
    requires !CommitsState(actions)
    ensures Reduce(actions, s) == s
  {
    if actions != [] {
      NoCommitKeepsState(actions[..|actions| - 1], s);
    }
  }

  /** Delivering no effects changes nobody's inbox. */
  lemma DeliverNothing<E>(inboxes: map<nat, seq<E>>)
    ensures Deliver(inboxes, []) == inboxes
  {
    forall id | id in inboxes
      ensures Deliver(inboxes, [])[id] == inboxes[id]
    {
      assert inboxes[id] + [] == inboxes[id];
    }
  }

  /** Delivering in two rounds is delivering the concatenation once; nobody
      subscribes or leaves in between. */
  lemma DeliverAppend<E>(inboxes: map<nat, seq<E>>, a: seq<E>, b: seq<E>)
    ensures Deliver(Deliver(inboxes, a), b) == Deliver(inboxes, a + b)
    ensures Deliver(inboxes, a).Keys == inboxes.Keys
  {
    forall id | id in inboxes
      ensures Deliver(Deliver(inboxes, a), b)[id] == Deliver(inboxes, a + b)[id]
    {
      assert inboxes[id] + a + b == inboxes[id] + (a + b);
    }
  }

  /** An effect emitted while nobody is subscribed is dropped, and a subscriber
      that joins afterwards receives only what is emitted after it joined. */
  lemma NoReplay<E>(inboxes: map<nat, seq<E>>, id: nat, before: seq<E>, after: seq<E>)
    requires id !in inboxes
    ensures Deliver(map[], before) == map[]
    ensures Deliver(Deliver(inboxes, before)[id := []], after)[id] == after
  {
  }

  /** Intents are handled in FIFO order: handling `q1 + q2` is handling `q1`,
      then handling `q2` from the state `q1` left behind. */
  lemma {:induction false} StateAfterAppend<I, S, E>(
    handler: (I, S) -> seq<Action<S, E>>, q1: seq<I>, q2: seq<I>, s: S)
    ensures StateAfter(handler, q1 + q2, s) == StateAfter(handler, q2, StateAfter(handler, q1, s))
  {
    if q2 == [] {
      assert q1 + q2 == q1;
    } else {
      var q2' := q2[..|q2| - 1];
      assert (q1 + q2)[..|q1 + q2| - 1] == q1 + q2';
      assert (q1 + q2)[|q1 + q2| - 1] == q2[|q2| - 1];
      StateAfterAppend(handler, q1, q2', s);
    }
  }

  /** The effects of `q1 + q2` are those of `q1` followed by those of `q2`. */
  lemma {:induction false} EmittedAppend<I, S, E>(
    handler: (I, S) -> seq<Action<S, E>>, q1: seq<I>, q2: seq<I>, s: S)
    ensures Emitted(handler, q1 + q2, s) ==
      Emitted(handler, q1, s) + Emitted(handler, q2, StateAfter(handler, q1, s))
  {
    if q2 == [] {
      assert q1 + q2 == q1;
    } else {
      var q2' := q2[..|q2| - 1];
      assert (q1 + q2)[..|q1 + q2| - 1] == q1 + q2';
      assert (q1 + q2)[|q1 + q2| - 1] == q2[|q2| - 1];
      EmittedAppend(handler, q1, q2', s);
      StateAfterAppend(handler, q1, q2', s);
    }
  }
}
