# rusty-state-machine, modelled in Dafny

This project models the engine in `src/lib.rs`, a generic finite-state-machine engine. A caller configures states, edges between them, a decision function and up to three observer hooks. The caller then dispatches events against a running machine. For each event the engine does four things:

- it asks the decision function about every edge leaving the current state;
- it refuses a second matching edge;
- on exactly one match it takes the transition: it records the old state and context in the history and installs the new state and context;
- it calls the hooks around all of this.

The model also covers the id-addressed "flat" forms of edges and transition records, and the hydrate/dehydrate conversions between the flat and the linked forms.

Files:

- `wrappers.dfy`: `Option` and `Result`.
- `graph.dfy`: the datatypes `State`, `Event`, `Edge` and `TransitionRecord`.
- `codec.dfy`: `FlatEdge` and `FlatRecord` (`DeserializableEdge` and `DeserializableTransitionRecord` in the source), the first-match search, and hydration and dehydration with their round-trip lemmas.
- `engine.dfy`:
  - the adjacency index (`OutgoingEdges`, and `BuildIndex`, the nested loops of `new`);
  - the edge scan (`FiringEdges`, and `ScanEdges`, the loop of `dispatch`);
  - the `StateMachine` class with `Dispatch` and `Transition`;
  - the as-written model of the defect at line 418.
- `scenarios.dfy`: the repository's four tests, including the three that are commented out, as verified scenarios.

How the model represents the source:

- **Values instead of references.** States, events and edges are values here, not references. A state is nothing but its id, so equal states are exactly states with equal ids.
- **Index.** The index is a `map` from state id to the ordered outgoing edges.
- **Decision function.** It is a total function value `(Event, Edge, Context) -> Option<Context>`.
- **Hooks.** Each hook is a flag saying whether it is registered. Each call to a registered hook is added to a ghost `hookTrace` with the values it is passed. Each history append is also added to the trace, so the trace shows where the append falls among the hook calls.
- **Panics.** The source panics in three places: a current state with no index entry, a second matching edge, and an id that hydration cannot resolve. Here each of these is an error value (`Outcome.MissingState`, `Outcome.AmbiguousTransition`, `Result.Failure`). When dispatch stops with an error, state, context and history are unchanged, and only the start hook has run.

Choices where the model keeps the code's behaviour:

- **Checks at construction.** No referential-integrity check is made when the machine is built (src/lib.rs:286-295). An edge whose from-state is not configured is simply absent from the index.
- **Number of edges evaluated.** The scan stops at the second matching edge, where the source's `assert!` panics (src/lib.rs:367-370). The edges after it are not evaluated.
- **Hooks.** Only the three hooks the code calls are modelled. The state-exit and state-entry hooks are commented out (src/lib.rs:196-211, 395-404, 421-430).
- **Line 418.** Here the model departs from the code on purpose (src/lib.rs:418), and the finding below records it. The model moves the current state to the edge's to-state, as the code evidently intends.

## Model

| member | source | states |
|---|---|---|
| `Codec.Find` | src/lib.rs:48-50 | `iter().find`: `None` exactly when no element matches; otherwise the element at the first matching position |
| `Codec.FindState` | src/lib.rs:48-67 | resolving a state id succeeds exactly when a state with that id is in the universe and yields that state; otherwise it fails with `StateNotFound(id)` |
| `Codec.FindEvent` | src/lib.rs:126-135 | succeeds exactly when some event has the id; yields the first such event; otherwise it fails with `EventNotFound(id)` |
| `Codec.FindEdge` | src/lib.rs:136-145 | succeeds exactly when some edge has the id; yields the first such edge; otherwise it fails with `EdgeNotFound(id)` |
| `Codec.HydrateEdge` | src/lib.rs:44-74 | succeeds exactly when both state ids resolve; on failure it names the from-state id first, then the to-state id; on success `id` and `info` are copied and both states are members of the universe with the given ids |
| `Codec.HydrateRecord` | src/lib.rs:100-153 | succeeds exactly when all four ids resolve; on failure it reports the first missing id in the order from-state, to-state, event, edge; on success the event and the edge are the first matches and the context is carried over |
| `Codec.DehydrateEdge` | src/lib.rs:77-86 | the `From<Edge>` projection onto ids; its contract is the pair of round-trip lemmas `EdgeDehydrateAfterHydrate` and `EdgeHydrateAfterDehydrate` |
| `Codec.DehydrateRecord` | src/lib.rs:156-169 | the `From<TransitionRecord>` projection onto ids; its contract is the pair of round-trip lemmas `RecordDehydrateAfterHydrate` and `RecordHydrateAfterDehydrate` |
| `Codec.EdgeDehydrateAfterHydrate` | src/lib.rs:77-86 | dehydrating a hydrated edge gives back the flat edge it came from |
| `Codec.EdgeHydrateAfterDehydrate` | src/lib.rs:44-86 | hydrating a dehydrated edge, over a universe that holds both of its states, gives back the same edge |
| `Codec.RecordDehydrateAfterHydrate` | src/lib.rs:156-169 | dehydrating a hydrated record gives back the flat record it came from |
| `Codec.RecordHydrateAfterDehydrate` | src/lib.rs:100-169 | hydrating a dehydrated record over a universe containing its objects succeeds and reproduces the same ids and context; with unique edge and event ids it reproduces the record itself |
| `Engine.OutgoingEdges` | src/lib.rs:289-293 | the reference definition of one index entry; it is characterised by `OutgoingEdgesMembers` (which edges), `OutgoingEdgesConcat` (in input order) and `OutgoingEdgesAllLeave` |
| `Engine.OutgoingEdgesConcat` | src/lib.rs:289-293 | the outgoing-edge filter distributes over concatenation, so input order is kept |
| `Engine.OutgoingEdgesMembers` | src/lib.rs:289-293 | an edge is listed under a state exactly when it is configured and leaves that state |
| `Engine.OutgoingEdgesAllLeave` | src/lib.rs:289-293 | when every configured edge leaves a state, that state's entry is all of them, in order |
| `Engine.BuildIndex` | src/lib.rs:286-295 | the index has one key per configured state id; each entry is exactly that state's outgoing edges in input order |
| `Engine.FiringEdges` | src/lib.rs:364-373 | the reference definition of the edges that fire, in index order, with their new contexts; it is characterised by `FiringEdgesMembers`, `FiringEdgesEmpty` and `FiringEdgesConcat` |
| `Engine.FiringEdgesConcat` | src/lib.rs:364-373 | the list of firing edges distributes over concatenation of the edge list |
| `Engine.FiringEdgesMembers` | src/lib.rs:364-372 | `(e, c)` is listed as firing exactly when `e` is among the edges and the decision function returns `Some(c)` for it |
| `Engine.FiringEdgesEmpty` | src/lib.rs:374-376 | no edge fires exactly when the decision function declines every edge |
| `Engine.ScanEdges` | src/lib.rs:359-373 | the scan reports no edge, exactly one edge (the one that fires, with its new context) or several, according to how many edges fire |
| `Engine.StateMachine.constructor` | src/lib.rs:242-342 | every configured state has an index entry, which is exactly its outgoing edges in order; history is empty; the current state and context are the initial ones; no hook has been called |
| `Engine.StateMachine.Transition` | src/lib.rs:389-431 | the traversal hook runs with the new context, then exactly one record holding the old state, the to-state, the event, the edge and the old context is appended; the to-state and the new context become current; the history stays a walk along configured edges |
| `Engine.StateMachine.Dispatch` | src/lib.rs:344-387 | start hook first, with the old state and context; a missing index entry or two firing edges fail with nothing else changed; no firing edge leaves state, context and history unchanged; one firing edge takes exactly one transition; the end hook runs last, with the new state and context, whenever dispatch does not fail |
| `Engine.TransitionAsWritten` | src/lib.rs:414-420 | as written, `transition` leaves the current state where it was |
| `Engine.AsWrittenLeavesStateBehind` | src/lib.rs:418 | with the states and edge of the hook test, the as-written transition records a move to the second state but leaves the machine in the first |
| `Engine.AsWrittenBreaksPath` | src/lib.rs:414-420 | for every walk and every edge that leaves the current state for a different state, the as-written transition breaks the walk |
| `Scenarios.TransitionsScenario` | src/lib.rs:438-482 | with a decision that always fires, one dispatch moves the machine from the first state to the second and records exactly that transition |
| `Scenarios.NoTransitionScenario` | src/lib.rs:484-528 | with a decision that never fires, dispatch reports no transition; the machine stays in the first state with an empty history |
| `Scenarios.AmbiguousScenario` | src/lib.rs:530-579 | with two firing edges, dispatch fails as ambiguous and the machine stays in the first state with an empty history |
| `Scenarios.HooksScenario` | src/lib.rs:581-695 | with all hooks registered, the trace of one dispatch is: start, traversal, append, end (with the second state) |

## Left out

- Serialization: the serde `Serialize`/`Deserialize` derives and any concrete encoding are left out. Only the flat, id-addressed shapes are modelled.
- Rust mechanics: lifetimes, borrowing and the boxing of closures are left out.
- Hook closures: what the hooks do with their captured caller state is not modelled. A hook call is modelled by its trace entry. The `states` and `edges` arguments are constant fields, so the trace entries leave them out.
- The decision function: it is modelled as pure. A Rust `fn` pointer could perform I/O, which the model does not capture.
- Formatting and printing: the `Debug` implementation and the `println!` calls of the tests are left out.
- Dead code: the commented-out state-entry and state-exit hooks are not modelled.
- `HashMap`: its hashing and cost are not modelled. The index is a Dafny `map` keyed by state id.
- `BuildIndex`: it groups edges by state value, where the source compares addresses with `ptr::eq`. The two agree when every edge points at the configured state object that has its id. Two distinct state objects with one id cannot be told apart in this model.
- `Engine.StateMachine.Transition`: it requires the edge to be configured and to leave the current state. Its only caller, `dispatch`, always meets this, because the edge comes from the current state's index entry.
- `Engine.StateMachine.Dispatch`: a panic is modelled as an error outcome after which the machine can still be used. In the source the panic unwinds.
- `Option<&State>`: the current state is a plain `State`. The source's `unwrap` (src/lib.rs:348, 362, 381) never fails while only the engine writes the field, since `new` sets it to `Some`.
- Public fields: `transition_history`, `current_state`, `current_context`, `states` and `edges` are `pub` (src/lib.rs:175-179), so a caller may overwrite them between dispatches. The model does not capture such writes. Only the machine's own constructor and methods change its fields, which is what `Valid()` assumes: a machine whose current state or history a caller has rewritten need not satisfy the walk invariant, and one whose `current_state` is `None` would panic at src/lib.rs:348 or 362.

## Findings

| source | as written | input that shows it | evidently intended | confidence | as-written member | corrected member |
|---|---|---|---|---|---|---|
| src/lib.rs:418 | `std::mem::replace(&mut self.current_state.unwrap(), edge.to_state)` swaps into a temporary copy of the `Option<&State>`, so `current_state` never changes | states `first_state`, `second_state`; edge `first_state` to `second_state`; a decision that always fires; one dispatch records a move to `second_state` but the machine stays in `first_state` | `current_state` becomes `edge.to_state`, as the swap itself and the commented-out assertions at src/lib.rs:481 and src/lib.rs:693 say | high; not executed | `Engine.TransitionAsWritten`, shown by `Engine.AsWrittenLeavesStateBehind` and, for all inputs, `Engine.AsWrittenBreaksPath` | `Engine.StateMachine.Transition` (its postcondition and the preserved walk invariant in `Valid`) |
