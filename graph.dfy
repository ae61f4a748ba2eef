/**
 * The live, reference-linked graph of the state machine engine: states,
 * events, edges and the records of executed transitions.
 *
 * In the source these hold references to each other; here they hold values.
 * A state has no field but its id, so two states are equal exactly when
 * their ids are equal, which is the identity the engine uses.
 */
module Graph {

  /** A named node of the automaton (src/lib.rs:25-27). */
  datatype State = State(id: string)

  /** A named stimulus carrying a caller-defined payload (src/lib.rs:30-33). */
  datatype Event<P> = Event(id: string, payload: P)

  /** A named directed edge with caller-defined metadata (src/lib.rs:36-41). */
  datatype Edge<I> = Edge(id: string, fromState: State, toState: State, info: I)

  /**
   * One executed transition (src/lib.rs:89-95). `context` is the context as
   * it was immediately before the transition.
   */
  datatype TransitionRecord<P, I, C> =
    TransitionRecord(fromState: State, toState: State, event: Event<P>, edge: Edge<I>, context: C)

  /** True when no two distinct positions of `edges` carry the same edge id. */
  ghost predicate UniqueEdgeIds<I>(edges: seq<Edge<I>>) {
    forall i, j :: 0 <= i < j < |edges| ==> edges[i].id != edges[j].id
  }

  /** True when no two distinct positions of `events` carry the same event id. */
  ghost predicate UniqueEventIds<P>(events: seq<Event<P>>) {
    forall i, j :: 0 <= i < j < |events| ==> events[i].id != events[j].id
  }
}
