# statize, modelled in Dafny

statize is a small Ruby mixin that turns a class into a table-driven finite
state machine. It has two halves, and the model keeps both.

**Declarations.** These run in the class body.
- `stateful(opts)` opens a profile. A profile has an initial state (`:open` by default) and the name of the host attribute that holds the state (`"state"` by default). Opening it again discards everything registered under it.
- `event(evt, {from => to, ...}, &block)` records three things:
  - each edge as a next state of its source;
  - the event among the events of the source;
  - the destination of the event for the source.
- An optional block is stored for the event.

The class keeps all of this in a per-profile registry.

**Instance operations.** These run on an object of such a class. They read and write the state attribute named by the object's active profile:
- `init_state` and `activate_state_profile`;
- `current_state`, `next_states` and `next_events`;
- `apply_state` and `apply_state!`;
- `trigger_event`, which runs its ladder of checks, calls the block before and after, and writes the destination.

The model is in four modules.

- `Base` (`base.dfy`) holds the shared vocabulary:
  - labels;
  - the library's four exceptions, plus `NoMethodError`;
  - the shape of a callback and of one callback invocation.
- `Builder` (`builder.dfy`) holds the declarations.
  - The registry entry of one profile is the record `Config`.
  - Each table update is a pure function (`WithTransition`, `WithStateEvent`, `WithEventState`, `WithBlock`). The loop of `event` is `AddPairs`, and a whole declaration is `Declare`.
  - The class `Registry` holds the class-level `@ops` and `@profile` and performs `stateful`, `event` and the four `add_*` helpers step by step. Each method is proved to leave in `ops` exactly what the pure functions describe.
  - The builder invariant `WellFormed` says two things:
    - next-state rows have no repeats;
    - every recorded destination is a next state of its source.

    Every declaration keeps it, and it is part of `Registry.Valid()`.
- `Engine` (`engine.dfy`) holds the instance side.
  - The host object is the record `Host`. It maps attribute names to values, and it has two sets: the attributes with a reader and the attributes with a writer.
  - `CurrentState`, `NextStates` and `NextEvents` are the lookups.
  - `Written`, `Applied`, `AppliedStrict`, `Initialized` and `Triggered` say what each mutator returns or raises and what it leaves in the host. `Triggered` also records the block calls it made, in order.
  - The class `Instance` holds `@aprof` and the host. Its methods perform the operations step by step, and each is proved equal to its function.
- `Scenarios` (`scenarios.dfy`) works through the library's own example class `Target` on the model.
  - It covers both the `state` and the `stat` variants, through a parameter for the attribute name.
  - It runs those steps on the object methods too.
  - It adds a two-profile example showing that profiles with different attributes do not interfere.

`NoMethodError` stands for the exception Ruby raises when a method is called on `nil`. The Ruby code reaches it in four cases:
- the profile was never opened. This covers the accessors, the instance operations, and an `event` before any `stateful` that has a block or a pair to store (`@ops` is still `nil`);
- `event` is given no transition hash (`nil.each`, `lib/statize.rb:51`);
- a state has no row in the transition table (`next_states`, and so `apply_state`);
- the current state is `nil` in `next_events`.

The model keeps each of these as an error result. It does not assume them away.

Three behaviours of the code that a reader might not expect, all followed by the model:
- `activate_state_profile` does more than switch the active profile. It also writes the profile's initial state into the host (`lib/statize.rb:149-152`), exactly like `init_state`. The model does the same: `Instance.ActivateStateProfile` performs `InitState`.
- The examples expect `Statize::InvalidStatusForEvent` (`spec/statize_spec.rb:50`), a constant the library does not define. The model raises the library's `InvalidStateForEvent` (`lib/statize.rb:201`).
- The examples pass `initial: :open` to `stateful`. `initial` is not a key the library reads (it reads `initial_state`), so the initial state `open` comes from the default. The scenarios open the profile without an initial state for that reason.

## Model

| member | source | states |
|---|---|---|
| `Builder.ProfileOf` | lib/statize.rb:29 | the profile being declared is the given `profile` option, or `default` when none is given |
| `Builder.Registry.Stateful` | lib/statize.rb:22-42 | the profile's entry becomes a fresh one: initial state `open` and attribute `state` unless overridden, and empty tables. Every other profile is as before, and the profile being declared is the opened one. The builder invariant is kept |
| `Builder.Registry.Event` | lib/statize.rb:46-59 | Before any `stateful` it changes nothing, and it returns normally exactly when it has neither a block nor a pair to store (an empty hash); otherwise it raises NoMethodError. With an open profile but without a transition hash it stores the block and then raises. Otherwise the open profile's entry becomes `Declare` of the old entry, every other profile is unchanged, and the invariant is kept |
| `Builder.Registry.AddTransitions` | lib/statize.rb:51-57 | the loop over the hash leaves exactly `AddPairs` of the entry it started from, pair by pair in insertion order |
| `Builder.Registry.AddStateTransition` | lib/statize.rb:87-92 | the row of `from` gains `to` unless it already holds it; nothing else changes |
| `Builder.Registry.AddStateEvents` | lib/statize.rb:95-98 | the events of `from` gain `evt` at the end, repeats kept; nothing else changes |
| `Builder.Registry.AddEventStates` | lib/statize.rb:101-104 | `evt` maps `from` to `to`, overwriting an earlier destination; nothing else changes |
| `Builder.Registry.AddEventBlock` | lib/statize.rb:106-108 | the block is stored for `evt` only when one is given |
| `Builder.AddPairs` | lib/statize.rb:51-57 | the loop of `event` never changes the initial state, the attribute name or the stored blocks |
| `Builder.InitialState` | lib/statize.rb:65-67 | answers the profile's initial state exactly when the profile was opened, and raises NoMethodError otherwise |
| `Builder.StateAttrName` | lib/statize.rb:61-63 | answers the profile's state attribute exactly when the profile was opened, and raises NoMethodError otherwise |
| `Builder.StatesTable` | lib/statize.rb:69-71 | answers the transition table exactly when the profile was opened, and raises NoMethodError otherwise |
| `Builder.StateEventsTable` | lib/statize.rb:73-75 | answers the state-to-events table exactly when the profile was opened, and raises NoMethodError otherwise |
| `Builder.EventStatesTable` | lib/statize.rb:77-79 | answers the event-to-destination table exactly when the profile was opened, and raises NoMethodError otherwise |
| `Builder.EventBlockTable` | lib/statize.rb:81-83 | answers the block table exactly when the profile was opened, and raises NoMethodError otherwise |
| `Builder.TransitionStep` | lib/statize.rb:87-92 | One transition update adds the single edge `from -> to`. Every old row stays a prefix of the new one, every other row keeps the same members, and rows stay free of repeats |
| `Builder.StateEventStep` | lib/statize.rb:95-98 | one events update appends `evt` to the row of `from` and to no other row |
| `Builder.EventStateStep` | lib/statize.rb:101-104 | one destination update sets `evt`'s destination for `from` and leaves every other event and source as it was |
| `Builder.AddPairsTransitions` | lib/statize.rb:87-92 | After `event`, `x` is a next state of `f` if and only if it was before or `(f, x)` is one of the declared pairs. The rows stay free of repeats, and the sources gain rows |
| `Builder.AddPairsStateEvents` | lib/statize.rb:95-98 | after `event`, the events of every state are its old events followed by `evt` once per declared pair leaving it, so states with no such pair keep their events |
| `Builder.AddPairsEventStates` | lib/statize.rb:101-104 | After `event`, `evt` maps each declared source to the destination the hash gives it last. Its other sources keep their old destinations, and every other event is unchanged |
| `Builder.AddPairWellFormed` | lib/statize.rb:54-56 | one iteration of the loop keeps the builder invariant |
| `Builder.AddPairsWellFormed` | lib/statize.rb:51-57 | the whole loop keeps the builder invariant: every recorded destination stays a next state of its source |
| `Builder.DeclareWellFormed` | lib/statize.rb:46-57 | `event` keeps the builder invariant, whether or not it is given a block |
| `Builder.DeclaredPair` | lib/statize.rb:46-57 | For every declared pair:<br>• the destination is a next state of the source;<br>• the event is among the source's events;<br>• the event maps the source to its last destination in the hash |
| `Builder.ReRegistration` | lib/statize.rb:87-104 | Declaring `e` from `f` twice, to `t1` and then `t2`, has three effects:<br>• `t2` wins in the destination table;<br>• both `t1` and `t2` stay next states of `f`;<br>• `e` appears twice more among the events of `f` |
| `Builder.BlockGoverns` | lib/statize.rb:106-108 | a later declaration without a block keeps the earlier block, and a later block replaces it |
| `Engine.ActiveProfile` | lib/statize.rb:247-250 | the active profile is never empty: the stored profile, or `default` when it is `nil` or empty |
| `Engine.CurrentState` | lib/statize.rb:225-231 | succeeds exactly for an opened profile. It answers a value exactly when the profile's attribute has a reader and holds one, and that value is the attribute's value; otherwise it answers `nil` |
| `Engine.NextStates` | lib/statize.rb:154-161 | `[]` for a `nil` or empty state and the row of the current state otherwise. It raises NoMethodError when the profile is unknown or the state has no row |
| `Engine.NextEvents` | lib/statize.rb:185-189 | Raises when the current state is `nil`. Otherwise it answers the events of the current state, or `nil` when the state has none |
| `Engine.Written` | lib/statize.rb:241-245 | Writes `st` into the active profile's attribute when it has a writer, and skips the write otherwise. No other attribute and no reader or writer changes. It raises NoMethodError for an unknown profile and leaves the host as it was |
| `Engine.Applied` | lib/statize.rb:163-178 | answers true exactly when `st` is a next state, and then writes it; answers false and leaves the host unchanged otherwise; raises what `next_states` raises |
| `Engine.AppliedStrict` | lib/statize.rb:179-182 | raises InvalidState exactly when `apply_state` answers false, succeeds exactly when it answers true, and leaves the host as `apply_state` does |
| `Engine.Initialized` | lib/statize.rb:144-147 | Writes the initial state of `prof` into the attribute of the resolved profile, without any transition check. It raises NoMethodError and leaves the host unchanged when `prof` was never opened |
| `Engine.Triggered` | lib/statize.rb:191-223 | A failure leaves the host unchanged and has called the block only before, never after. There are at most two block calls, before then after. The host changes only on success, and then the profile's attribute reads differently |
| `Engine.ReadAfterWrite` | lib/statize.rb:241-245 | what `update_state` writes, `current_state` reads back under the same profile |
| `Engine.ApplyMoves` | lib/statize.rb:163-178 | `apply_state(st)` answers true if and only if `st` is a next state. The state is then `st`, and otherwise it is unchanged |
| `Engine.TriggerLadder` | lib/statize.rb:191-223 | The rungs of `trigger_event`, and every failing rung keeps the state:<br>• an empty state is a silent no-op;<br>• an unknown event raises InvalidEvent;<br>• a state that is no source of the event raises InvalidStateForEvent;<br>• so does an empty destination;<br>• a block answering `false` raises UserHalt |
| `Engine.TriggerReachesDestination` | lib/statize.rb:203-214 | With the builder invariant, an event that passes every check succeeds. The state becomes the recorded destination, and the block is called before and after |
| `Engine.DeclaredEventFires` | lib/statize.rb:191-223 | right after `event(evt, pairs)`, triggering `evt` from a declared source moves the object to the destination the hash gives that source last |
| `Engine.TriggerMovesOnlyToDestination` | lib/statize.rb:191-223 | if `trigger_event` changes the host at all, it succeeded, the event was registered for the current state, and the state is now that event's destination |
| `Engine.InitWritesInitialState` | lib/statize.rb:144-147 | `init_state(prof)` succeeds and leaves the initial state of `prof`, whatever the state was before |
| `Engine.WriteIsolated` | lib/statize.rb:241-245 | a write under one profile leaves the current state, next states and next events of every profile with another attribute unchanged |
| `Engine.TriggerIsolated` | lib/statize.rb:191-223 | triggering an event under one profile leaves the state of every profile with another attribute unchanged |
| `Engine.InitIsolated` | lib/statize.rb:144-147 | `init_state` under one profile leaves the state of every profile with another attribute unchanged |
| `Engine.Instance.SetActiveProfile` | lib/statize.rb:252-254 | `@aprof` becomes the given value and the host is untouched |
| `Engine.Instance.ResolveActiveProfile` | lib/statize.rb:247-250 | answers the active profile and stores it in `@aprof` |
| `Engine.Instance.UpdateState` | lib/statize.rb:241-245 | returns and leaves exactly what `Written` says, under the active profile |
| `Engine.Instance.InitState` | lib/statize.rb:144-147 | returns and leaves exactly what `Initialized` says. `@aprof` holds `prof`, or the profile resolved from it once the write has run |
| `Engine.Instance.ActivateStateProfile` | lib/statize.rb:149-152 | the same outcome as `init_state(prof)` |
| `Engine.Instance.ApplyState` | lib/statize.rb:163-178 | returns and leaves exactly what `Applied` says, under the active profile |
| `Engine.Instance.ApplyStateBang` | lib/statize.rb:179-182 | returns and leaves exactly what `AppliedStrict` says |
| `Engine.Instance.TriggerEvent` | lib/statize.rb:191-223 | the outcome, the host afterwards and the block calls are exactly those of `Triggered` |
| `Scenarios.TargetTables` | spec/statize_spec.rb:15-24 | the four declarations of `Target` build exactly the tables written out in `TargetConfig` |
| `Scenarios.TargetWellFormed` | spec/statize_spec.rb:17-24 | those tables satisfy the builder invariant |
| `Scenarios.DeclareClose` | spec/statize_spec.rb:17 | `event :close, :open => :closed` on a fresh profile |
| `Scenarios.DeclareKiv` | spec/statize_spec.rb:18 | `event :kiv` with its two sources, in order |
| `Scenarios.DeclareReopen` | spec/statize_spec.rb:19 | `event :reopen, :kiv => :open` |
| `Scenarios.DeclareArchive` | spec/statize_spec.rb:21-24 | `event :archive` with its block stored |
| `Scenarios.TargetStartsOpen` | spec/statize_spec.rb:32-36 | a new `Target` is in `open` and offers the events close and kiv |
| `Scenarios.TargetClose` | spec/statize_spec.rb:38-39 | close moves open to closed |
| `Scenarios.TargetKivFromClosed` | spec/statize_spec.rb:41-42 | kiv moves closed to kiv |
| `Scenarios.TargetReopen` | spec/statize_spec.rb:44-45 | reopen moves kiv to open |
| `Scenarios.TargetKivFromOpen` | spec/statize_spec.rb:47 | kiv moves open to kiv |
| `Scenarios.TargetCloseFromKiv` | spec/statize_spec.rb:48-50 | close from kiv raises InvalidStateForEvent and keeps kiv |
| `Scenarios.TargetApplyUnknown` | spec/statize_spec.rb:58-60 | `apply_state(:notsure)` answers false and keeps open; `apply_state!` raises InvalidState |
| `Scenarios.TargetApplyClosed` | spec/statize_spec.rb:61-64 | `apply_state(:closed)` answers true and moves to closed, whose next states include kiv |
| `Scenarios.TargetArchiveHalts` | spec/statize_spec.rb:67-69 | archive calls its block once, raises UserHalt and keeps closed |
| `Scenarios.TwoProfilesKeepApart` | lib/statize.rb:241-245 | on an object with two profiles, closing under one leaves the other profile's state where it was |
| `Scenarios.DeclareTarget` | spec/statize_spec.rb:10-30 | the class body of `Target` run on a `Registry` leaves exactly `TargetConfig` under the default profile |
| `Scenarios.RunTarget` | spec/statize_spec.rb:32-69 | the first example run on the object methods: the refused close, the false `apply_state`, the halted archive, and the final state closed |

## Left out

- Freezing: the public accessors `states_table`, `state_events_table`, `event_states_table` and `event_block_table` freeze the live table they return (`lib/statize.rb:69-83`). Any call of them does this, from the class or from an instance operation. The freeze is shallow. A later declaration that only appends to existing rows still succeeds. One that needs a new key in a frozen table (a new source, a new event, or any block) raises FrozenError. It can fail part-way: for a new event, `add_state_events` and `add_state_transition` have already appended their rows when `add_event_states` raises (line 102). The model has no frozen state, and its declarations always complete.
- Lazy profile write in the lookups: `current_state`, `next_states` and `next_events` also store `:default` into `@aprof` when it is empty (`lib/statize.rb:248`). The model keeps them as pure lookups under `ActiveProfile(@aprof)`. The mutators of `Instance` perform the store, through `ResolveActiveProfile`.
- Ruby reflection: `respond_to?` and `send` become the reader and writer sets of `Host`.
- Class setup: `class_eval` of a block given to `stateful`, and `included`/`extend`. The declarations are plain calls on a `Registry`.
- Symbols versus strings: a state, event, profile or attribute is one `Label`, compared by content. `to_sym` and `to_s` become identities.
- Other option keys: `stateful` merges every option into the profile's entry (`lib/statize.rb:33-36`). The table helpers (lines 110-131) start from whatever is stored under `state_transfer`, `state_events`, `event_states` or `event_block_table`. So an option with one of those names seeds the profile with a caller-supplied table, which need not satisfy `WellFormed`. `Options` has only `profile`, `initial_state` and `state_attr_name`. `Registry.Stateful` therefore always starts the tables empty. The builder invariant, and with it `TriggerReachesDestination`, holds only for profiles opened without those four keys.
- An explicit `nil` option, profile or event: the model has no label for `nil`. An option is present or absent, and a profile or attribute name is a label. `init_state` called without an argument uses `:default`; the model's `InitState` always takes its profile explicitly, so that call is `InitState("default")`. `init_state(nil)` raises NoMethodError in Ruby through `initial_state(nil)` (lines 144-146, 66); the model cannot express it.
- Block side effects and the after-reply: a block is a pure function of `(action, evt, from, to)` returning false, true, `nil` or another object. `trigger_event` returns the after-call's value in Ruby; the model records the call and returns `Ok`. A Ruby block declaring fewer parameters receives the arguments shifted; only its reply matters here, and the model keeps only the reply.
- Helpers and logging: the `toolrack` helpers are written out as `IsEmpty` and `Proceeds`, and `teLogger` logging is dropped.
- Exception messages are not modelled; only which exception is raised, with its arguments.
- `version.rb` and the RSpec scaffolding are not part of this model. This version of `lib/statize.rb` has no state meanings, no state lists, no query for the known profiles and no per-call trigger callback, so the model has none either.
- Caller-visible mutation and `nil` states:
  - `stateful` deletes `:profile` from the caller's option hash (line 31), and the model's `Options` value is left as it was.
  - `next_events` returns the registry's own row (line 188), so a caller appending to it changes `state_events`. The model returns a copy.
  - `apply_state(nil)` raises NoMethodError on `nil.to_sym` (line 169). The model has no `nil` state to pass.
