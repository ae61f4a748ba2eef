/**
 * The hydrate/dehydrate codec (src/lib.rs:8-22, 43-169).
 *
 * Dehydration projects an edge or a transition record onto a flat form in
 * which every linked state, event and edge is replaced by its id. Hydration
 * resolves those ids again against a supplied universe of live objects by a
 * first-match linear search; an id that is not found is fatal in the source
 * (a panic) and a `Failure` here.
 */
module Codec {
  import opened Wrappers
  import opened Graph

  /** The id-addressed form of an edge (src/lib.rs:17-22). */
  datatype FlatEdge<I> = FlatEdge(id: string, fromStateId: string, toStateId: string, info: I)

  /** The id-addressed form of a transition record (src/lib.rs:8-14). */
  datatype FlatRecord<C> =
    FlatRecord(fromStateId: string, toStateId: string, eventId: string, edgeId: string, context: C)

  /** The three resolution failures, one per panic message of the source. */
  datatype HydrateError =
    | StateNotFound(stateId: string)
    | EventNotFound(eventId: string)
    | EdgeNotFound(edgeId: string)

  /**
   * The first element of `xs` that satisfies `p`, as `iter().find` returns it:
   * `None` exactly when no element satisfies `p`.
   */
  function Find<T>(xs: seq<T>, p: T -> bool): (r: Option<T>)
    ensures r.None? <==> forall k :: 0 <= k < |xs| ==> !p(xs[k])
    ensures r.Some? ==>
      exists k :: 0 <= k < |xs| && xs[k] == r.value && p(xs[k]) && forall j :: 0 <= j < k ==> !p(xs[j])
  {
    if |xs| == 0 then None
    else if p(xs[0]) then Some(xs[0])
    else
      var r := Find(xs[1..], p);
      assert forall k :: 1 <= k < |xs| ==> xs[k] == xs[1..][k - 1];
      r
  }

  /** `ev` is the first event of `events` whose id is `id`. */
  ghost predicate FirstEventWithId<P>(events: seq<Event<P>>, id: string, ev: Event<P>) {
    exists k :: 0 <= k < |events| && events[k] == ev && ev.id == id &&
      forall j :: 0 <= j < k ==> events[j].id != id
  }

  /** `e` is the first edge of `edges` whose id is `id`. */
  ghost predicate FirstEdgeWithId<I>(edges: seq<Edge<I>>, id: string, e: Edge<I>) {
    exists k :: 0 <= k < |edges| && edges[k] == e && e.id == id &&
      forall j :: 0 <= j < k ==> edges[j].id != id
  }

  ghost predicate HasEvent<P>(events: seq<Event<P>>, id: string) {
    exists k :: 0 <= k < |events| && events[k].id == id
  }

  ghost predicate HasEdge<I>(edges: seq<Edge<I>>, id: string) {
    exists k :: 0 <= k < |edges| && edges[k].id == id
  }

  /**
   * Resolves a state id against `states` (src/lib.rs:48-57 and 58-67). A
   * state is nothing but its id, so the state found is the state with that id.
   */
  function FindState(states: seq<State>, id: string): (r: Result<State, HydrateError>)
    ensures r == if State(id) in states then Success(State(id)) else Failure(StateNotFound(id))
  {
    match Find(states, (s: State) => s.id == id)
    case Some(s) => Success(s)
    case None => Failure(StateNotFound(id))
  }

  /** Resolves an event id against `events` by first match (src/lib.rs:126-135). */
  function FindEvent<P>(events: seq<Event<P>>, id: string): (r: Result<Event<P>, HydrateError>)
    ensures r.Success? <==> HasEvent(events, id)
    ensures r.Success? ==> FirstEventWithId(events, id, r.value)
    ensures r.Failure? ==> r.error == EventNotFound(id)
  {
    match Find(events, (ev: Event<P>) => ev.id == id)
    case Some(ev) => Success(ev)
    case None => Failure(EventNotFound(id))
  }

  /** Resolves an edge id against `edges` by first match (src/lib.rs:136-145). */
  function FindEdge<I>(edges: seq<Edge<I>>, id: string): (r: Result<Edge<I>, HydrateError>)
    ensures r.Success? <==> HasEdge(edges, id)
    ensures r.Success? ==> FirstEdgeWithId(edges, id, r.value)
    ensures r.Failure? ==> r.error == EdgeNotFound(id)
  {
    match Find(edges, (e: Edge<I>) => e.id == id)
    case Some(e) => Success(e)
    case None => Failure(EdgeNotFound(id))
  }

  /**
   * `Edge::hydrate` (src/lib.rs:44-74): resolves the from-state id, then the
   * to-state id; `id` and `info` are carried over unchanged.
   */
  function HydrateEdge<I>(flat: FlatEdge<I>, states: seq<State>): (r: Result<Edge<I>, HydrateError>)
    ensures r.Success? <==> State(flat.fromStateId) in states && State(flat.toStateId) in states
    ensures r.Failure? ==>
      r.error == StateNotFound(if State(flat.fromStateId) in states then flat.toStateId else flat.fromStateId)
    ensures r.Success? ==>
      && r.value.id == flat.id && r.value.info == flat.info
      && r.value.fromState in states && r.value.fromState.id == flat.fromStateId
      && r.value.toState in states && r.value.toState.id == flat.toStateId
  {
    var fromState :- FindState(states, flat.fromStateId);
    var toState :- FindState(states, flat.toStateId);
    Success(Edge(flat.id, fromState, toState, flat.info))
  }

  /** The `From<Edge>` projection (src/lib.rs:77-86). */
  function DehydrateEdge<I>(e: Edge<I>): FlatEdge<I> {
    FlatEdge(e.id, e.fromState.id, e.toState.id, e.info)
  }

  /**
   * `TransitionRecord::hydrate` (src/lib.rs:100-153): resolves the from-state,
   * the to-state, the event and the edge, in that order, each by first match;
   * the context is carried over unchanged.
   */
  function HydrateRecord<P, I, C>(
    flat: FlatRecord<C>, states: seq<State>, edges: seq<Edge<I>>, events: seq<Event<P>>
  ): (r: Result<TransitionRecord<P, I, C>, HydrateError>)
    ensures r.Success? <==>
      && State(flat.fromStateId) in states && State(flat.toStateId) in states
      && HasEvent(events, flat.eventId) && HasEdge(edges, flat.edgeId)
    ensures r.Failure? ==>
              r.error == if State(flat.fromStateId) !in states then StateNotFound(flat.fromStateId)
                         else if State(flat.toStateId) !in states then StateNotFound(flat.toStateId)
                         else if !HasEvent(events, flat.eventId) then EventNotFound(flat.eventId)
                         else EdgeNotFound(flat.edgeId)
    ensures r.Success? ==>
      && r.value.fromState in states && r.value.fromState.id == flat.fromStateId
      && r.value.toState in states && r.value.toState.id == flat.toStateId
      && FirstEventWithId(events, flat.eventId, r.value.event)
      && FirstEdgeWithId(edges, flat.edgeId, r.value.edge)
      && r.value.context == flat.context
  {
    var fromState :- FindState(states, flat.fromStateId);
    var toState :- FindState(states, flat.toStateId);
    var event :- FindEvent(events, flat.eventId);
    var edge :- FindEdge(edges, flat.edgeId);
    Success(TransitionRecord(fromState, toState, event, edge, flat.context))
  }

  /** The `From<TransitionRecord>` projection (src/lib.rs:156-169). */
  function DehydrateRecord<P, I, C>(rec: TransitionRecord<P, I, C>): FlatRecord<C> {
    FlatRecord(rec.fromState.id, rec.toState.id, rec.event.id, rec.edge.id, rec.context)
  }

  /** Hydrating and then dehydrating an edge gives back the flat form it came from. */
  lemma EdgeDehydrateAfterHydrate<I>(flat: FlatEdge<I>, states: seq<State>)
    requires HydrateEdge(flat, states).Success?
    ensures DehydrateEdge(HydrateEdge(flat, states).value) == flat
  {
  }

  /**
   * Dehydrating an edge and hydrating it over a universe that holds both of
   * its states reconstructs the very same edge.
   */
  lemma EdgeHydrateAfterDehydrate<I>(e: Edge<I>, states: seq<State>)
    requires e.fromState in states && e.toState in states
    ensures HydrateEdge(DehydrateEdge(e), states) == Success(e)
  {
  }

  /** Hydrating and then dehydrating a record gives back the flat form it came from. */
  lemma RecordDehydrateAfterHydrate<P, I, C>(
    flat: FlatRecord<C>, states: seq<State>, edges: seq<Edge<I>>, events: seq<Event<P>>)
    requires HydrateRecord(flat, states, edges, events).Success?
    ensures DehydrateRecord(HydrateRecord(flat, states, edges, events).value) == flat
  {
  }

  /**
   * Dehydrating a record and hydrating it over a universe that contains the
   * objects it refers to succeeds and reproduces the same ids and context;
   * when edge and event ids are unique in that universe it reproduces the
   * record itself.
   */
  lemma RecordHydrateAfterDehydrate<P, I, C>(
    rec: TransitionRecord<P, I, C>, states: seq<State>, edges: seq<Edge<I>>, events: seq<Event<P>>)
    requires rec.fromState in states && rec.toState in states
    requires rec.event in events && rec.edge in edges
    ensures HydrateRecord(DehydrateRecord(rec), states, edges, events).Success?
    ensures DehydrateRecord(HydrateRecord(DehydrateRecord(rec), states, edges, events).value) == DehydrateRecord(rec)
    ensures UniqueEdgeIds(edges) && UniqueEventIds(events) ==>
      HydrateRecord(DehydrateRecord(rec), states, edges, events) == Success(rec)
  {
  }
}
