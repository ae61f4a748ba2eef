/**
 * The state machine engine of src/lib.rs: the adjacency index built at
 * construction, the dispatch/transition algorithm and the hook pipeline.
 *
 * The three optional hooks are observers: the engine only promises when and
 * with what it calls them. They are modelled by a ghost trace to which every
 * hook call (and every history append, to fix its position among them) is
 * added as it happens.
 */
module Engine {
  import opened Wrappers
  import opened Graph

  /**
   * The caller's decision function (src/lib.rs:171-172): `Some(c)` when the
   * edge fires for the event under the context, with `c` the new context.
   */
  type Decision<!P, !I, !C> = (Event<P>, Edge<I>, C) -> Option<C>

  // ---------------------------------------------------------------------
  // Adjacency index (src/lib.rs:286-295)
  // ---------------------------------------------------------------------

  /** The edges of `edges` that leave `s`, in the order they are given. */
  function OutgoingEdges<I>(edges: seq<Edge<I>>, s: State): seq<Edge<I>> {
    if |edges| == 0 then []
    else (if edges[0].fromState == s then [edges[0]] else []) + OutgoingEdges(edges[1..], s)
  }

  lemma {:induction false} OutgoingEdgesConcat<I>(a: seq<Edge<I>>, b: seq<Edge<I>>, s: State)
    ensures OutgoingEdges(a + b, s) == OutgoingEdges(a, s) + OutgoingEdges(b, s)
  {
    if |a| == 0 {
      assert a + b == b;
    } else {
      assert (a + b)[1..] == a[1..] + b;
      OutgoingEdgesConcat(a[1..], b, s);
    }
  }

  /** An edge is listed under `s` exactly when it is configured and leaves `s`. */
  lemma {:induction false} OutgoingEdgesMembers<I>(edges: seq<Edge<I>>, s: State)
    ensures forall e :: e in OutgoingEdges(edges, s) <==> e in edges && e.fromState == s
  {
    if |edges| > 0 {
      assert edges == [edges[0]] + edges[1..];
      OutgoingEdgesMembers(edges[1..], s);
    }
  }

  /** When every edge leaves `s`, the entry of `s` is all of them, in order. */
  lemma {:induction false} OutgoingEdgesAllLeave<I>(edges: seq<Edge<I>>, s: State)
    requires forall e :: e in edges ==> e.fromState == s
    ensures OutgoingEdges(edges, s) == edges
  {
    if |edges| > 0 {
      assert edges == [edges[0]] + edges[1..];
      OutgoingEdgesAllLeave(edges[1..], s);
    }
  }

  /**
   * The index construction of `StateMachine::new` (src/lib.rs:286-295): one
   * entry per configured state, holding that state's outgoing edges in input
   * order. Edges leaving a state that is not configured appear nowhere.
   */
  method BuildIndex<I>(states: seq<State>, edges: seq<Edge<I>>) returns (index: map<string, seq<Edge<I>>>)
    ensures index.Keys == set s | s in states :: s.id
    ensures forall s :: s in states ==> index[s.id] == OutgoingEdges(edges, s)
  {
    index := map[];
    var i := 0;
    while i < |states|
      invariant 0 <= i <= |states|
      invariant index.Keys == set s | s in states[..i] :: s.id
      invariant forall s :: s in states[..i] ==> index[s.id] == OutgoingEdges(edges, s)
    {
      var state := states[i];
      var stateEdges := [];
      var j := 0;
      while j < |edges|
        invariant 0 <= j <= |edges|
        invariant stateEdges == OutgoingEdges(edges[..j], state)
      {
        assert edges[..j + 1] == edges[..j] + [edges[j]];
        assert [edges[j]][1..] == [];
        OutgoingEdgesConcat(edges[..j], [edges[j]], state);
        // The source compares addresses (ptr::eq); a state here is its id.
        if edges[j].fromState == state {
          stateEdges := stateEdges + [edges[j]];
        }
        j := j + 1;
      }
      assert edges[..j] == edges;
      assert states[..i + 1] == states[..i] + [state];
      index := index[state.id := stateEdges];
      i := i + 1;
    }
    assert states[..i] == states;
  }

  // ---------------------------------------------------------------------
  // Edge evaluation (src/lib.rs:359-373)
  // ---------------------------------------------------------------------

  /** An edge whose decision returned a value, with that value. */
  datatype Fired<I, C> = Fired(edge: Edge<I>, context: C)

  /** Every edge of `edges`, in order, for which `decide` returns a new context. */
  function FiringEdges<P, I, C>(decide: Decision<P, I, C>, event: Event<P>, edges: seq<Edge<I>>, ctx: C): seq<Fired<I, C>> {
    if |edges| == 0 then []
    else
      (match decide(event, edges[0], ctx) case Some(c) => [Fired(edges[0], c)] case None => [])
      + FiringEdges(decide, event, edges[1..], ctx)
  }

  lemma {:induction false} FiringEdgesConcat<P, I, C>(
    decide: Decision<P, I, C>, event: Event<P>, a: seq<Edge<I>>, b: seq<Edge<I>>, ctx: C)
    ensures FiringEdges(decide, event, a + b, ctx) == FiringEdges(decide, event, a, ctx) + FiringEdges(decide, event, b, ctx)
  {
    if |a| == 0 {
      assert a + b == b;
    } else {
      assert (a + b)[1..] == a[1..] + b;
      FiringEdgesConcat(decide, event, a[1..], b, ctx);
    }
  }

  /** `Fired(e, c)` is listed exactly when `e` is among `edges` and its decision returns `c`. */
  lemma {:induction false} FiringEdgesMembers<P, I, C>(decide: Decision<P, I, C>, event: Event<P>, edges: seq<Edge<I>>, ctx: C)
    ensures forall e, c :: Fired(e, c) in FiringEdges(decide, event, edges, ctx) <==> e in edges && decide(event, e, ctx) == Some(c)
    ensures forall e :: e in edges && decide(event, e, ctx).Some? ==>
      Fired(e, decide(event, e, ctx).value) in FiringEdges(decide, event, edges, ctx)
    ensures forall f :: f in FiringEdges(decide, event, edges, ctx) ==>
      f.edge in edges && decide(event, f.edge, ctx) == Some(f.context)
  {
    if |edges| > 0 {
      assert edges == [edges[0]] + edges[1..];
      FiringEdgesMembers(decide, event, edges[1..], ctx);
    }
  }

  /** No edge fires exactly when the decision function declines every edge. */
  lemma {:induction false} FiringEdgesEmpty<P, I, C>(decide: Decision<P, I, C>, event: Event<P>, edges: seq<Edge<I>>, ctx: C)
    ensures FiringEdges(decide, event, edges, ctx) == [] <==> forall e :: e in edges ==> decide(event, e, ctx).None?
  {
    FiringEdgesMembers(decide, event, edges, ctx);
    if FiringEdges(decide, event, edges, ctx) != [] {
      assert FiringEdges(decide, event, edges, ctx)[0] in FiringEdges(decide, event, edges, ctx);
    }
  }

  /** What the scan of the outgoing edges found. */
  datatype Selection<I, C> = NoEdge | Single(fired: Fired<I, C>) | Multiple

  /**
   * The loop of `dispatch` (src/lib.rs:359-373): asks `decide` about every
   * edge in order and stops, as the source's assertion does, at the second
   * edge that fires.
   */
  method ScanEdges<P, I, C>(decide: Decision<P, I, C>, event: Event<P>, edges: seq<Edge<I>>, ctx: C)
    returns (sel: Selection<I, C>)
    ensures sel.NoEdge? <==> |FiringEdges(decide, event, edges, ctx)| == 0
    ensures sel.Single? <==> |FiringEdges(decide, event, edges, ctx)| == 1
    ensures sel.Multiple? <==> |FiringEdges(decide, event, edges, ctx)| >= 2
    ensures sel.Single? ==> sel.fired == FiringEdges(decide, event, edges, ctx)[0]
  {
    sel := NoEdge;
    var i := 0;
    while i < |edges|
      invariant 0 <= i <= |edges|
      invariant !sel.Multiple?
      invariant sel.NoEdge? <==> FiringEdges(decide, event, edges[..i], ctx) == []
      invariant sel.Single? ==> FiringEdges(decide, event, edges[..i], ctx) == [sel.fired]
    {
      assert edges[..i + 1] == edges[..i] + [edges[i]];
      assert [edges[i]][1..] == [];
      FiringEdgesConcat(decide, event, edges[..i], [edges[i]], ctx);
      var result := decide(event, edges[i], ctx);
      if result.Some? {
        if sel.Single? {
          // "Cannot have multiple transitioning edges"
          assert edges == edges[..i + 1] + edges[i + 1..];
          FiringEdgesConcat(decide, event, edges[..i + 1], edges[i + 1..], ctx);
          return Multiple;
        }
        sel := Single(Fired(edges[i], result.value));
      }
      i := i + 1;
    }
    assert edges[..i] == edges;
  }

  // ---------------------------------------------------------------------
  // Hooks, outcomes and history
  // ---------------------------------------------------------------------

  /** Which of the three optional hooks are registered (src/lib.rs:182-218). */
  datatype Hooks = Hooks(start: bool, end: bool, traversal: bool)

  /** One observable step of a dispatch, in the order the engine takes them. */
  datatype TraceEntry<P, I, C> =
    | StartDispatch(event: Event<P>, state: State, context: C)
    | EdgeTraversal(event: Event<P>, edge: Edge<I>, context: C)
    | Appended(record: TransitionRecord<P, I, C>)
    | EndDispatch(event: Event<P>, state: State, context: C)

  /**
   * The result of one dispatch. The source returns nothing and panics on the
   * two configuration errors; here those are the last two alternatives.
   */
  datatype Outcome =
    | NoTransition
    | Transitioned(fromState: State, toState: State, edgeId: string)
    | MissingState(stateId: string)
    | AmbiguousTransition(stateId: string)

  /**
   * `history` is a walk along its own edges from `initial` to `current`:
   * each record goes from its edge's from-state to its edge's to-state, and
   * each record starts where the previous one ended.
   */
  ghost predicate IsPath<P, I, C>(history: seq<TransitionRecord<P, I, C>>, initial: State, current: State) {
    && (forall k :: 0 <= k < |history| ==>
          history[k].fromState == history[k].edge.fromState && history[k].toState == history[k].edge.toState)
    && (forall k :: 0 <= k < |history| - 1 ==> history[k].toState == history[k + 1].fromState)
    && (if |history| == 0 then current == initial
        else history[0].fromState == initial && history[|history| - 1].toState == current)
  }

  // ---------------------------------------------------------------------
  // The machine (src/lib.rs:174-432)
  // ---------------------------------------------------------------------

  class StateMachine<P, I, C> {
    ghost const initialState: State
    const states: seq<State>
    const edges: seq<Edge<I>>
    const index: map<string, seq<Edge<I>>>
    const decide: Decision<P, I, C>
    const hooks: Hooks

    var currentState: State
    var currentContext: C
    var history: seq<TransitionRecord<P, I, C>>
    ghost var hookTrace: seq<TraceEntry<P, I, C>>

    /**
     * Every index entry lists configured edges leaving the state it is
     * filed under, and the history is a walk along configured edges from the
     * initial state to the current one.
     */
    ghost predicate Valid()
      reads this
    {
      && (forall id, e :: id in index && e in index[id] ==> e in edges && e.fromState.id == id)
      && (forall k :: 0 <= k < |history| ==> history[k].edge in edges)
      && IsPath(history, initialState, currentState)
    }

    /** The edges leaving `s` that fire for `event` under `c`. */
    ghost function FiredFrom(event: Event<P>, s: State, c: C): seq<Fired<I, C>>
      requires s.id in index
    {
      FiringEdges(decide, event, index[s.id], c)
    }

    ghost function StartCall(event: Event<P>, s: State, c: C): seq<TraceEntry<P, I, C>> {
      if hooks.start then [StartDispatch(event, s, c)] else []
    }

    ghost function TraversalCall(event: Event<P>, e: Edge<I>, c: C): seq<TraceEntry<P, I, C>> {
      if hooks.traversal then [EdgeTraversal(event, e, c)] else []
    }

    ghost function EndCall(event: Event<P>, s: State, c: C): seq<TraceEntry<P, I, C>> {
      if hooks.end then [EndDispatch(event, s, c)] else []
    }

    /** `StateMachine::new` (src/lib.rs:242-342). */
    constructor (initialState: State, initialContext: C, states: seq<State>, edges: seq<Edge<I>>,
                 decide: Decision<P, I, C>, hooks: Hooks)
      ensures this.initialState == initialState
      ensures this.states == states && this.edges == edges && this.decide == decide && this.hooks == hooks
      ensures index.Keys == set s | s in states :: s.id
      ensures forall s :: s in states ==> index[s.id] == OutgoingEdges(edges, s)
      ensures currentState == initialState && currentContext == initialContext
      ensures history == [] && hookTrace == []
      ensures Valid()
    {
      var built := BuildIndex(states, edges);
      this.initialState := initialState;
      this.states := states;
      this.edges := edges;
      this.index := built;
      this.decide := decide;
      this.hooks := hooks;
      currentState := initialState;
      currentContext := initialContext;
      history := [];
      hookTrace := [];
      new;
      forall s | s in states {
        OutgoingEdgesMembers(edges, s);
      }
    }

    /**
     * `transition` (src/lib.rs:389-431): the edge-traversal hook sees the
     * context about to be installed, then a record holding the old state and
     * the old context is appended, and the edge's to-state and the new
     * context become current.
     *
     * At src/lib.rs:418 the source swaps `edge.to_state` into a temporary
     * copy of `current_state`, so its current state never moves. This method
     * models the evidently intended update instead; `TransitionAsWritten`
     * below models the code as written.
     */
    method Transition(event: Event<P>, edge: Edge<I>, context: C)
      requires Valid()
      requires edge in edges && edge.fromState == currentState
      modifies this
      ensures currentState == edge.toState && currentContext == context
      ensures history == old(history) + [TransitionRecord(old(currentState), edge.toState, event, edge, old(currentContext))]
      ensures hookTrace == old(hookTrace) + TraversalCall(event, edge, context) + [Appended(history[|history| - 1])]
      ensures Valid()
    {
      if hooks.traversal {
        hookTrace := hookTrace + [EdgeTraversal(event, edge, context)];
      }
      var record := TransitionRecord(currentState, edge.toState, event, edge, currentContext);
      history := history + [record];
      hookTrace := hookTrace + [Appended(record)];
      currentState, currentContext := edge.toState, context;
    }

    /**
     * `dispatch` (src/lib.rs:344-387). The start hook sees the state and
     * context before the dispatch. With no index entry for the current state,
     * or with a second firing edge, the source panics: nothing else happens.
     * With no firing edge nothing changes; with exactly one the transition is
     * taken. The end hook then sees the state and context after it.
     */
    method Dispatch(event: Event<P>) returns (outcome: Outcome)
      requires Valid()
      modifies this
      ensures Valid()
      ensures old(currentState).id !in index ==>
        && outcome == MissingState(old(currentState).id)
        && currentState == old(currentState) && currentContext == old(currentContext) && history == old(history)
        && hookTrace == old(hookTrace) + StartCall(event, old(currentState), old(currentContext))
      ensures old(currentState).id in index && |FiredFrom(event, old(currentState), old(currentContext))| == 0 ==>
        && outcome == NoTransition
        && currentState == old(currentState) && currentContext == old(currentContext) && history == old(history)
        && hookTrace == old(hookTrace) + StartCall(event, old(currentState), old(currentContext))
                                       + EndCall(event, old(currentState), old(currentContext))
      ensures old(currentState).id in index && |FiredFrom(event, old(currentState), old(currentContext))| == 1 ==>
        var f := FiredFrom(event, old(currentState), old(currentContext))[0];
        && f.edge in index[old(currentState).id] && decide(event, f.edge, old(currentContext)) == Some(f.context)
        && outcome == Transitioned(old(currentState), f.edge.toState, f.edge.id)
        && currentState == f.edge.toState && currentContext == f.context
        && history == old(history) + [TransitionRecord(old(currentState), f.edge.toState, event, f.edge, old(currentContext))]
        && hookTrace == old(hookTrace) + StartCall(event, old(currentState), old(currentContext))
                                       + TraversalCall(event, f.edge, f.context)
                                       + [Appended(history[|history| - 1])]
                                       + EndCall(event, f.edge.toState, f.context)
      ensures old(currentState).id in index && |FiredFrom(event, old(currentState), old(currentContext))| >= 2 ==>
        && outcome == AmbiguousTransition(old(currentState).id)
        && currentState == old(currentState) && currentContext == old(currentContext) && history == old(history)
        && hookTrace == old(hookTrace) + StartCall(event, old(currentState), old(currentContext))
    {
      if hooks.start {
        hookTrace := hookTrace + [StartDispatch(event, currentState, currentContext)];
      }
      if currentState.id !in index {
        // "Could not find a state"
        return MissingState(currentState.id);
      }
      var outgoing := index[currentState.id];
      var selection := ScanEdges(decide, event, outgoing, currentContext);
      if selection.Multiple? {
        return AmbiguousTransition(currentState.id);
      }
      if selection.Single? {
        var fired := selection.fired;
        FiringEdgesMembers(decide, event, outgoing, currentContext);
        assert fired in FiringEdges(decide, event, outgoing, currentContext);
        var from := currentState;
        Transition(event, fired.edge, fired.context);
        outcome := Transitioned(from, fired.edge.toState, fired.edge.id);
      } else {
        outcome := NoTransition;
      }
      if hooks.end {
        hookTrace := hookTrace + [EndDispatch(event, currentState, currentContext)];
      }
    }
  }

  // ---------------------------------------------------------------------
  // The update of src/lib.rs:418 as written
  // ---------------------------------------------------------------------

  /** The part of a machine that `transition` changes. */
  datatype Configuration<P, I, C> = Configuration(state: State, context: C, history: seq<TransitionRecord<P, I, C>>)

  /**
   * `transition` as the source has it: the record and the new context are
   * right, but the swap at src/lib.rs:418 writes `edge.to_state` into a
   * temporary, so the current state stays where it was.
   */
  function TransitionAsWritten<P, I, C>(cfg: Configuration<P, I, C>, event: Event<P>, edge: Edge<I>, context: C)
    : (r: Configuration<P, I, C>)
    ensures r.state == cfg.state
  {
    Configuration(cfg.state, context, cfg.history + [TransitionRecord(cfg.state, edge.toState, event, edge, cfg.context)])
  }

  /**
   * With the two states and the edge of the source's own hook test
   * (src/lib.rs:583-598), the as-written transition records a move to the
   * second state but leaves the machine in the first, so its history is no
   * longer a walk ending at the current state.
   */
  lemma AsWrittenLeavesStateBehind()
    ensures
      var first, second := State("first_state"), State("second_state");
      var edge := Edge("from first to second", first, second, "do it");
      var r := TransitionAsWritten(Configuration(first, (), []), Event("first event", ()), edge, ());
      && r.state == first && r.history[0].toState == second
      && !IsPath(r.history, first, r.state)
  {
  }

  /**
   * For every walk and every edge that leaves the current state for another
   * state, the as-written transition breaks the walk: the new record ends at
   * the edge's to-state while the machine stays put.
   */
  lemma AsWrittenBreaksPath<P, I, C>(
    cfg: Configuration<P, I, C>, initial: State, event: Event<P>, edge: Edge<I>, context: C)
    requires IsPath(cfg.history, initial, cfg.state)
    requires edge.fromState == cfg.state && edge.toState != cfg.state
    ensures !IsPath(TransitionAsWritten(cfg, event, edge, context).history, initial,
                    TransitionAsWritten(cfg, event, edge, context).state)
  {
  }
}
