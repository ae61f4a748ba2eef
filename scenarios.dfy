/**
 * The repository's own tests (src/lib.rs:434-696) as verified scenarios:
 * two states joined by one edge, a decision function that always or never
 * fires, a duplicated edge, and a run with every hook registered.
 */
module Scenarios {
  import opened Wrappers
  import opened Graph
  import opened Engine

  const First := State("first_state")
  const Second := State("second_state")
  const Forward := Edge("from first to second", First, Second, "do it")
  const Go := Event("first event", ())

  /** The deliberately ambiguous twin of `Forward` (src/lib.rs:547-552). */
  const ForwardAgain := Edge("from first to second", First, Second, "do it again")

  /** Decision functions of the tests: fire on every edge, or on none. */
  const Always: Decision<(), string, ()> := (ev: Event<()>, e: Edge<string>, c: ()) => Some(())
  const Never: Decision<(), string, ()> := (ev: Event<()>, e: Edge<string>, c: ()) => None

  /** it_appropriately_transitions: the machine moves to the second state. */
  method TransitionsScenario() returns (m: StateMachine<(), string, ()>, outcome: Outcome)
    ensures outcome == Transitioned(First, Second, "from first to second")
    ensures m.currentState == Second
    ensures m.history == [TransitionRecord(First, Second, Go, Forward, ())]
  {
    m := new StateMachine(First, (), [First, Second], [Forward], Always, Hooks(false, false, false));
    OutgoingEdgesAllLeave([Forward], First);
    assert First in [First, Second] && [Forward][1..] == [];
    assert m.index[First.id] == [Forward];
    assert FiringEdges(Always, Go, [Forward], ()) == [Fired(Forward, ())];
    outcome := m.Dispatch(Go);
  }

  /** it_appropriately_does_not_transition: nothing moves, nothing is recorded. */
  method NoTransitionScenario() returns (m: StateMachine<(), string, ()>, outcome: Outcome)
    ensures outcome == NoTransition
    ensures m.currentState == First && m.history == []
  {
    m := new StateMachine(First, (), [First, Second], [Forward], Never, Hooks(false, false, false));
    OutgoingEdgesAllLeave([Forward], First);
    assert First in [First, Second] && [Forward][1..] == [];
    assert m.index[First.id] == [Forward];
    assert FiringEdges(Never, Go, [Forward], ()) == [];
    outcome := m.Dispatch(Go);
  }

  /** it_panics_on_multiple_transitions: two firing edges are refused. */
  method AmbiguousScenario() returns (m: StateMachine<(), string, ()>, outcome: Outcome)
    ensures outcome == AmbiguousTransition("first_state")
    ensures m.currentState == First && m.history == []
  {
    m := new StateMachine(First, (), [First, Second], [Forward, ForwardAgain], Always, Hooks(false, false, false));
    OutgoingEdgesAllLeave([Forward, ForwardAgain], First);
    assert First in [First, Second] && [Forward, ForwardAgain][1..][1..] == [];
    assert m.index[First.id] == [Forward, ForwardAgain];
    assert FiringEdges(Always, Go, [ForwardAgain], ()) == [Fired(ForwardAgain, ())];
    assert |FiringEdges(Always, Go, [Forward, ForwardAgain], ())| == 2;
    outcome := m.Dispatch(Go);
  }

  /**
   * it_calls_hooks: with all three hooks registered, one dispatch calls the
   * start hook, then the traversal hook, then appends the record, then calls
   * the end hook with the new state (the check the test leaves commented out).
   */
  method HooksScenario() returns (m: StateMachine<(), string, ()>, outcome: Outcome)
    ensures outcome == Transitioned(First, Second, "from first to second")
    ensures m.hookTrace == [
      StartDispatch(Go, First, ()),
      EdgeTraversal(Go, Forward, ()),
      Appended(TransitionRecord(First, Second, Go, Forward, ())),
      EndDispatch(Go, Second, ())
    ]
    ensures m.currentState == Second
  {
    m := new StateMachine(First, (), [First, Second], [Forward], Always, Hooks(true, true, true));
    OutgoingEdgesAllLeave([Forward], First);
    assert First in [First, Second] && [Forward][1..] == [];
    assert m.index[First.id] == [Forward];
    assert FiringEdges(Always, Go, [Forward], ()) == [Fired(Forward, ())];
    outcome := m.Dispatch(Go);
  }
}
