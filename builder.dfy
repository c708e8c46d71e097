/**
 * The declaration-time side of statize (`Statize::ClassMethods`): a
 * per-profile registry of configuration filled by `stateful` and `event`.
 *
 * A profile's configuration is the value `Config`; the class `Registry` is
 * the host class's `@ops` / `@profile` pair, updated in place by the
 * builder methods. The pure functions below are the specification of those
 * updates, and the lemmas state what a sequence of declarations leaves in
 * the tables.
 */
module Builder {
  import opened Base

  /**
   * One profile's entry in `@ops`. All four tables exist from the start;
   * statize creates each one lazily as an empty hash on first access,
   * which no caller can tell apart.
   */
  datatype Config = Config(
    initialState: Label,
    stateAttrName: Label,
    stateTransfer: map<Label, seq<Label>>,       // from-state -> next states
    stateEvents: map<Label, seq<Label>>,         // from-state -> event names
    eventStates: map<Label, map<Label, Label>>,  // event -> from-state -> to-state
    eventBlocks: map<Label, Callback>)           // event -> callback

  /**
   * The option hash given to `stateful`: `Some` for a key that is present
   * (with its value converted by `to_s`), `None` for a missing key. For
   * `profile`, `None` also covers an explicit `nil` or `false`.
   */
  datatype Options = Options(
    profile: Option<Label>,
    initialState: Option<Label>,
    stateAttrName: Option<Label>)

  /** The table row for `k`, or the empty row when there is none. */
  function Row<V>(t: map<Label, seq<V>>, k: Label): seq<V>
  {
    if k in t then t[k] else []
  }

  /** The builder invariant: every declared destination is a next state of its source, and next-state rows have no repeats. */
  ghost predicate WellFormed(c: Config)
  {
    && (forall f :: f in c.stateTransfer ==> NoDup(c.stateTransfer[f]))
    && (forall e, f :: e in c.eventStates && f in c.eventStates[e] ==>
          f in c.stateTransfer && c.eventStates[e][f] in c.stateTransfer[f])
  }

  // ---------------------------------------------------------------------
  // stateful
  // ---------------------------------------------------------------------

  /** The profile `stateful` opens: `opts[:profile] || :default`. */
  function ProfileOf(opts: Options): (p: Label)
    ensures opts.profile.Some? ==> p == opts.profile.value
    ensures opts.profile.None? ==> p == "default"
  {
    match opts.profile
    case Some(n) => n
    case None => "default"
  }

  /** The fresh entry `stateful` stores: defaults merged with the given options, no tables. */
  function Opened(opts: Options): Config
  {
    Config(
      match opts.initialState case Some(s) => s case None => "open",
      match opts.stateAttrName case Some(s) => s case None => "state",
      map[], map[], map[], map[])
  }

  // ---------------------------------------------------------------------
  // The four table updates made by `event`
  // ---------------------------------------------------------------------

  /** `add_state_transition`: add `to` to the next states of `from`, unless it is already there. */
  function WithTransition(t: map<Label, seq<Label>>, from: Label, to: Label): (r: map<Label, seq<Label>>)
  {
    var prev := Row(t, from);
    t[from := if to in prev then prev else prev + [to]]
  }

  /** `add_state_events`: append `evt` to the events of `from`, repeats kept. */
  function WithStateEvent(t: map<Label, seq<Label>>, from: Label, evt: Label): (r: map<Label, seq<Label>>)
  {
    t[from := Row(t, from) + [evt]]
  }

  /** `add_event_states`: record `from -> to` under `evt`, overwriting an earlier destination. */
  function WithEventState(t: map<Label, map<Label, Label>>, evt: Label, from: Label, to: Label)
    : (r: map<Label, map<Label, Label>>)
  {
    var row := if evt in t then t[evt] else map[];
    t[evt := row[from := to]]
  }

  /** `add_event_block`: store the block for `evt` only when one is given. */
  function WithBlock(t: map<Label, Callback>, evt: Label, block: Option<Callback>): (r: map<Label, Callback>)
  {
    match block
    case None => t
    case Some(b) => t[evt := b]
  }

  /** One iteration of the loop in `event`: the pair `from => to`. */
  function AddPair(c: Config, evt: Label, from: Label, to: Label): Config
  {
    c.(stateEvents := WithStateEvent(c.stateEvents, from, evt),
       stateTransfer := WithTransition(c.stateTransfer, from, to),
       eventStates := WithEventState(c.eventStates, evt, from, to))
  }

  /** The whole loop in `event`, over the transition hash in its insertion order. */
  function AddPairs(c: Config, evt: Label, pairs: seq<(Label, Label)>): (r: Config)
    ensures r.initialState == c.initialState && r.stateAttrName == c.stateAttrName
    ensures r.eventBlocks == c.eventBlocks
    decreases |pairs|
  {
    if pairs == [] then c
    else
      var n := |pairs| - 1;
      AddPair(AddPairs(c, evt, pairs[..n]), evt, pairs[n].0, pairs[n].1)
  }

  /** Extending the hash by one pair adds one iteration. */
  lemma AddPairsSnoc(c: Config, evt: Label, pairs: seq<(Label, Label)>, i: nat)
    requires i < |pairs|
    ensures AddPairs(c, evt, pairs[..i + 1]) == AddPair(AddPairs(c, evt, pairs[..i]), evt, pairs[i].0, pairs[i].1)
  {
    assert pairs[..i + 1][..i] == pairs[..i];
  }

  /** The three table updates of one iteration, made one after the other on the registry, make one `AddPair`. */
  lemma PairUpdates(m: map<Label, Config>, p: Label, evt: Label, from: Label, to: Label)
    requires p in m
    ensures
      var m1 := m[p := m[p].(stateEvents := WithStateEvent(m[p].stateEvents, from, evt))];
      var m2 := m1[p := m1[p].(stateTransfer := WithTransition(m1[p].stateTransfer, from, to))];
      var m3 := m2[p := m2[p].(eventStates := WithEventState(m2[p].eventStates, evt, from, to))];
      m3 == m[p := AddPair(m[p], evt, from, to)]
  {
  }

  /** The block of `event`, stored before the loop runs. */
  function WithEventBlock(c: Config, evt: Label, block: Option<Callback>): Config
  {
    c.(eventBlocks := WithBlock(c.eventBlocks, evt, block))
  }

  /** What `event(evt, pairs, &block)` makes of a profile's entry. */
  function Declare(c: Config, evt: Label, pairs: seq<(Label, Label)>, block: Option<Callback>): Config
  {
    AddPairs(WithEventBlock(c, evt, block), evt, pairs)
  }

  // ---------------------------------------------------------------------
  // Accessors: `initial_state(prof)`, `states_table(prof)` and the rest.
  // Each raises NoMethodError when `prof` was never opened.
  // ---------------------------------------------------------------------

  function InitialState(ops: map<Label, Config>, prof: Label): (r: Result<Label>)
    ensures r.Ok? <==> prof in ops
    ensures r.Fail? ==> r.err == NoMethodError
    ensures r.Ok? ==> r.value == ops[prof].initialState
  {
    if prof in ops then Ok(ops[prof].initialState) else Fail(NoMethodError)
  }

  function StateAttrName(ops: map<Label, Config>, prof: Label): (r: Result<Label>)
    ensures r.Ok? <==> prof in ops
    ensures r.Fail? ==> r.err == NoMethodError
    ensures r.Ok? ==> r.value == ops[prof].stateAttrName
  {
    if prof in ops then Ok(ops[prof].stateAttrName) else Fail(NoMethodError)
  }

  function StatesTable(ops: map<Label, Config>, prof: Label): (r: Result<map<Label, seq<Label>>>)
    ensures r.Ok? <==> prof in ops
    ensures r.Fail? ==> r.err == NoMethodError
    ensures r.Ok? ==> r.value == ops[prof].stateTransfer
  {
    if prof in ops then Ok(ops[prof].stateTransfer) else Fail(NoMethodError)
  }

  function StateEventsTable(ops: map<Label, Config>, prof: Label): (r: Result<map<Label, seq<Label>>>)
    ensures r.Ok? <==> prof in ops
    ensures r.Fail? ==> r.err == NoMethodError
    ensures r.Ok? ==> r.value == ops[prof].stateEvents
  {
    if prof in ops then Ok(ops[prof].stateEvents) else Fail(NoMethodError)
  }

  function EventStatesTable(ops: map<Label, Config>, prof: Label): (r: Result<map<Label, map<Label, Label>>>)
    ensures r.Ok? <==> prof in ops
    ensures r.Fail? ==> r.err == NoMethodError
    ensures r.Ok? ==> r.value == ops[prof].eventStates
  {
    if prof in ops then Ok(ops[prof].eventStates) else Fail(NoMethodError)
  }

  function EventBlockTable(ops: map<Label, Config>, prof: Label): (r: Result<map<Label, Callback>>)
    ensures r.Ok? <==> prof in ops
    ensures r.Fail? ==> r.err == NoMethodError
    ensures r.Ok? ==> r.value == ops[prof].eventBlocks
  {
    if prof in ops then Ok(ops[prof].eventBlocks) else Fail(NoMethodError)
  }

  // ---------------------------------------------------------------------
  // What a declaration leaves in the tables
  // ---------------------------------------------------------------------

  /** The sources named by the pairs. */
  function Sources(pairs: seq<(Label, Label)>): set<Label>
    decreases |pairs|
  {
    if pairs == [] then {}
    else
      var n := |pairs| - 1;
      Sources(pairs[..n]) + {pairs[n].0}
  }

  /** The number of pairs whose source is `f`. */
  function CountFrom(pairs: seq<(Label, Label)>, f: Label): (k: nat)
    ensures k > 0 <==> f in Sources(pairs)
    decreases |pairs|
  {
    if pairs == [] then 0
    else
      var n := |pairs| - 1;
      CountFrom(pairs[..n], f) + (if pairs[n].0 == f then 1 else 0)
  }

  /** The destination of the last pair whose source is `f` (the one a Ruby hash keeps). */
  function LastDest(pairs: seq<(Label, Label)>, f: Label): (r: Option<Label>)
    ensures r.Some? ==> (f, r.value) in pairs
    ensures r.Some? <==> f in Sources(pairs)
    decreases |pairs|
  {
    if pairs == [] then None
    else
      var n := |pairs| - 1;
      if pairs[n].0 == f then Some(pairs[n].1) else LastDest(pairs[..n], f)
  }

  /** The source of every pair is among the sources. */
  lemma {:induction false} SourceAt(pairs: seq<(Label, Label)>, k: nat)
    requires k < |pairs|
    ensures pairs[k].0 in Sources(pairs)
    decreases |pairs|
  {
    var n := |pairs| - 1;
    if k < n {
      assert pairs[..n][k] == pairs[k];
      SourceAt(pairs[..n], k);
    }
  }

  /** An element of a non-empty sequence is in its prefix or is its last element. */
  lemma SplitLast<T>(s: seq<T>)
    requires s != []
    ensures forall x :: x in s <==> x in s[..|s| - 1] || x == s[|s| - 1]
  {
    assert s == s[..|s| - 1] + [s[|s| - 1]];
  }

  /** No next-state row has a repeat. */
  ghost predicate RowsNoDup(t: map<Label, seq<Label>>)
  {
    forall f :: f in t ==> NoDup(t[f])
  }

  /** One `add_state_transition` adds exactly the edge `from -> to`, keeps the old row as a prefix, and keeps rows repeat-free. */
  lemma TransitionStep(t: map<Label, seq<Label>>, from: Label, to: Label)
    ensures WithTransition(t, from, to).Keys == t.Keys + {from}
    ensures forall f, x :: x in Row(WithTransition(t, from, to), f) <==> x in Row(t, f) || (f == from && x == to)
    ensures forall f :: Row(t, f) <= Row(WithTransition(t, from, to), f)
    ensures RowsNoDup(t) ==> RowsNoDup(WithTransition(t, from, to))
  {
    var r := WithTransition(t, from, to);
    forall f, x
      ensures x in Row(r, f) <==> x in Row(t, f) || (f == from && x == to)
    {
      if f != from { assert Row(r, f) == Row(t, f); }
    }
    if RowsNoDup(t) {
      forall f | f in r
        ensures NoDup(r[f])
      {
        if f != from { assert r[f] == t[f]; }
      }
    }
  }

  /** One `add_state_events` appends `evt` to the row of `from` and to no other row. */
  lemma StateEventStep(t: map<Label, seq<Label>>, from: Label, evt: Label)
    ensures WithStateEvent(t, from, evt).Keys == t.Keys + {from}
    ensures forall f :: Row(WithStateEvent(t, from, evt), f) == if f == from then Row(t, f) + [evt] else Row(t, f)
  {
  }

  /** One `add_event_states` sets `evt`'s destination for `from` and changes no other entry. */
  lemma EventStateStep(t: map<Label, map<Label, Label>>, evt: Label, from: Label, to: Label)
    ensures WithEventState(t, evt, from, to).Keys == t.Keys + {evt}
    ensures forall e :: e in t && e != evt ==> WithEventState(t, evt, from, to)[e] == t[e]
    ensures WithEventState(t, evt, from, to)[evt].Keys == (if evt in t then t[evt].Keys else {}) + {from}
    ensures WithEventState(t, evt, from, to)[evt][from] == to
    ensures forall f :: evt in t && f in t[evt] && f != from ==> WithEventState(t, evt, from, to)[evt][f] == t[evt][f]
  {
  }

  /** After the loop, `to` is a next state of `from` exactly for the old edges and the given pairs; rows stay repeat-free. */
  lemma {:induction false} AddPairsTransitions(c: Config, evt: Label, pairs: seq<(Label, Label)>)
    ensures AddPairs(c, evt, pairs).stateTransfer.Keys == c.stateTransfer.Keys + Sources(pairs)
    ensures forall f, x :: x in Row(AddPairs(c, evt, pairs).stateTransfer, f) <==>
      x in Row(c.stateTransfer, f) || (f, x) in pairs
    ensures RowsNoDup(c.stateTransfer) ==> RowsNoDup(AddPairs(c, evt, pairs).stateTransfer)
    decreases |pairs|
  {
    if pairs != [] {
      var n := |pairs| - 1;
      var prefix := pairs[..n];
      var from, to := pairs[n].0, pairs[n].1;
      AddPairsTransitions(c, evt, prefix);
      var mid := AddPairs(c, evt, prefix).stateTransfer;
      assert AddPairs(c, evt, pairs).stateTransfer == WithTransition(mid, from, to);
      TransitionStep(mid, from, to);
      SplitLast(pairs);
    }
  }

  /** After the loop, the events of `f` are the old ones followed by `evt` once per pair from `f`. */
  lemma {:induction false} AddPairsStateEvents(c: Config, evt: Label, pairs: seq<(Label, Label)>, f: Label)
    ensures Row(AddPairs(c, evt, pairs).stateEvents, f) == Row(c.stateEvents, f) + Repeat(evt, CountFrom(pairs, f))
    ensures f in AddPairs(c, evt, pairs).stateEvents <==> f in c.stateEvents || CountFrom(pairs, f) > 0
    decreases |pairs|
  {
    if pairs != [] {
      var n := |pairs| - 1;
      AddPairsStateEvents(c, evt, pairs[..n], f);
      var mid := AddPairs(c, evt, pairs[..n]).stateEvents;
      StateEventStep(mid, pairs[n].0, evt);
      if pairs[n].0 == f {
        assert Repeat(evt, CountFrom(pairs[..n], f)) + [evt] == Repeat(evt, CountFrom(pairs, f));
      }
    }
  }

  /**
   * After the loop, a non-empty hash has registered `evt`; its row maps each
   * given source to the last destination given for it and keeps the other
   * old entries; other events are untouched.
   */
  lemma {:induction false} AddPairsEventStates(c: Config, evt: Label, pairs: seq<(Label, Label)>)
    ensures var r := AddPairs(c, evt, pairs).eventStates;
      && (evt in r <==> evt in c.eventStates || pairs != [])
      && (forall e :: e != evt ==> (e in r <==> e in c.eventStates))
      && (forall e :: e != evt && e in c.eventStates ==> r[e] == c.eventStates[e])
      && (evt in r ==> forall f :: f in r[evt] <==>
            (evt in c.eventStates && f in c.eventStates[evt]) || LastDest(pairs, f).Some?)
      && (evt in r ==> forall f :: LastDest(pairs, f).Some? ==> r[evt][f] == LastDest(pairs, f).value)
      && (evt in r ==> forall f :: LastDest(pairs, f).None? && f in r[evt] ==> r[evt][f] == c.eventStates[evt][f])
    decreases |pairs|
  {
    if pairs != [] {
      var n := |pairs| - 1;
      AddPairsEventStates(c, evt, pairs[..n]);
      var mid := AddPairs(c, evt, pairs[..n]).eventStates;
      var r := WithEventState(mid, evt, pairs[n].0, pairs[n].1);
      assert AddPairs(c, evt, pairs).eventStates == r;
      EventStateStep(mid, evt, pairs[n].0, pairs[n].1);
      forall f
        ensures f in r[evt] <==> (evt in c.eventStates && f in c.eventStates[evt]) || LastDest(pairs, f).Some?
        ensures LastDest(pairs, f).Some? ==> r[evt][f] == LastDest(pairs, f).value
        ensures LastDest(pairs, f).None? && f in r[evt] ==> r[evt][f] == c.eventStates[evt][f]
      {
        if f != pairs[n].0 {
          assert LastDest(pairs, f) == LastDest(pairs[..n], f);
        }
      }
    }
  }

  /** One pair keeps the builder invariant. */
  lemma AddPairWellFormed(c: Config, evt: Label, from: Label, to: Label)
    requires WellFormed(c)
    ensures WellFormed(AddPair(c, evt, from, to))
  {
    var r := AddPair(c, evt, from, to);
    TransitionStep(c.stateTransfer, from, to);
    EventStateStep(c.eventStates, evt, from, to);
    forall f | f in r.stateTransfer
      ensures NoDup(r.stateTransfer[f])
    {
      if f != from { assert r.stateTransfer[f] == c.stateTransfer[f]; }
    }
    forall e, f | e in r.eventStates && f in r.eventStates[e]
      ensures f in r.stateTransfer && r.eventStates[e][f] in r.stateTransfer[f]
    {
      if e == evt && f == from {
      } else {
        assert e in c.eventStates && f in c.eventStates[e] && r.eventStates[e][f] == c.eventStates[e][f];
        assert c.eventStates[e][f] in Row(c.stateTransfer, f);
      }
    }
  }

  /** The whole loop keeps the builder invariant. */
  lemma {:induction false} AddPairsWellFormed(c: Config, evt: Label, pairs: seq<(Label, Label)>)
    requires WellFormed(c)
    ensures WellFormed(AddPairs(c, evt, pairs))
    decreases |pairs|
  {
    if pairs != [] {
      var n := |pairs| - 1;
      AddPairsWellFormed(c, evt, pairs[..n]);
      AddPairWellFormed(AddPairs(c, evt, pairs[..n]), evt, pairs[n].0, pairs[n].1);
    }
  }

  /** A declaration keeps the builder invariant, and a fresh profile has it. */
  lemma DeclareWellFormed(c: Config, evt: Label, pairs: seq<(Label, Label)>, block: Option<Callback>)
    requires WellFormed(c)
    ensures WellFormed(Declare(c, evt, pairs, block))
    ensures WellFormed(WithEventBlock(c, evt, block))
  {
    AddPairsWellFormed(WithEventBlock(c, evt, block), evt, pairs);
  }

  /**
   * Every declared pair is in the tables after `event`: `to` is a next state
   * of `from`, `evt` is among the events of `from`, and `evt` maps `from` to
   * the last destination the hash gives it.
   */
  lemma DeclaredPair(c: Config, evt: Label, pairs: seq<(Label, Label)>, block: Option<Callback>, k: nat)
    requires k < |pairs|
    ensures var r := Declare(c, evt, pairs, block);
      && pairs[k].0 in r.stateTransfer && pairs[k].1 in r.stateTransfer[pairs[k].0]
      && pairs[k].0 in r.stateEvents && evt in r.stateEvents[pairs[k].0]
      && evt in r.eventStates && pairs[k].0 in r.eventStates[evt]
      && Some(r.eventStates[evt][pairs[k].0]) == LastDest(pairs, pairs[k].0)
  {
    var c0 := WithEventBlock(c, evt, block);
    var r := Declare(c, evt, pairs, block);
    var (f, t) := pairs[k];
    SourceAt(pairs, k);
    AddPairsTransitions(c0, evt, pairs);
    assert pairs[k] in pairs;
    assert t in Row(r.stateTransfer, f);
    AddPairsEventStates(c0, evt, pairs);
    AddPairsStateEvents(c0, evt, pairs, f);
    assert r.stateEvents[f][|Row(c0.stateEvents, f)|] == evt;
  }

  /**
   * Declaring the same (event, from) twice: the second destination wins in
   * the event table, both stay next states, and the event is listed twice.
   */
  lemma ReRegistration(c: Config, e: Label, f: Label, t1: Label, t2: Label)
    ensures var r := Declare(Declare(c, e, [(f, t1)], None), e, [(f, t2)], None);
      && r.eventStates[e][f] == t2
      && t1 in r.stateTransfer[f] && t2 in r.stateTransfer[f]
      && r.stateEvents[f] == Row(c.stateEvents, f) + [e, e]
  {
    var c0 := WithEventBlock(c, e, None);
    var c1 := Declare(c, e, [(f, t1)], None);
    var c2 := WithEventBlock(c1, e, None);
    var r := Declare(c1, e, [(f, t2)], None);
    DeclaredPair(c, e, [(f, t1)], None, 0);
    DeclaredPair(c1, e, [(f, t2)], None, 0);
    AddPairsTransitions(c2, e, [(f, t2)]);
    assert t1 in Row(r.stateTransfer, f);
    AddPairsStateEvents(c0, e, [(f, t1)], f);
    AddPairsStateEvents(c2, e, [(f, t2)], f);
    assert CountFrom([(f, t1)], f) == 1 by { assert [(f, t1)][..0] == []; }
    assert CountFrom([(f, t2)], f) == 1 by { assert [(f, t2)][..0] == []; }
    assert LastDest([(f, t2)], f) == Some(t2);
    assert Repeat(e, 1) == [e];
    assert Row(c2.stateEvents, f) == Row(c.stateEvents, f) + [e];
    assert Row(r.stateEvents, f) == Row(c.stateEvents, f) + [e] + [e];
  }

  /**
   * A block is stored only when given: a later declaration without one keeps
   * the earlier block, a later one with a block replaces it.
   */
  lemma BlockGoverns(c: Config, e: Label, p1: seq<(Label, Label)>, p2: seq<(Label, Label)>, b1: Callback, b2: Option<Callback>)
    ensures var r := Declare(Declare(c, e, p1, Some(b1)), e, p2, b2);
      e in r.eventBlocks && r.eventBlocks[e] == (if b2.Some? then b2.value else b1)
  {
  }

  // ---------------------------------------------------------------------
  // The class-level registry
  // ---------------------------------------------------------------------

  /** The `@ops` registry and the `@profile` of the declaration in progress, kept by a class that includes Statize. */
  class Registry {
    var ops: map<Label, Config>
    var profile: Option<Label>

    /** The profile being declared exists, and every profile satisfies the builder invariant. */
    ghost predicate Valid()
      reads this
    {
      && (profile.Some? ==> profile.value in ops)
      && (forall p :: p in ops ==> WellFormed(ops[p]))
    }

    /** A class that has not called `stateful` yet. */
    constructor ()
      ensures Valid()
      ensures ops == map[] && profile == None
    {
      ops := map[];
      profile := None;
    }

    /** `stateful(opts)`: (re)open a profile with fresh defaults, discarding its tables. */
    method Stateful(opts: Options)
      requires Valid()
      modifies this
      ensures Valid()
      ensures profile == Some(ProfileOf(opts))
      ensures ops == old(ops)[ProfileOf(opts) := Opened(opts)]
    {
      var defaults := Opened(Options(None, None, None));
      var p := ProfileOf(opts);
      profile := Some(p);
      var merged := defaults.(
        initialState := if opts.initialState.Some? then opts.initialState.value else defaults.initialState,
        stateAttrName := if opts.stateAttrName.Some? then opts.stateAttrName.value else defaults.stateAttrName);
      ops := ops[p := merged];
    }

    /**
     * `event(evt, pairs, &block)`: store the block, then register each pair
     * of the hash in order. Before any `stateful`, `@ops` is `nil`: storing a
     * block or a pair fails on it, and so does a missing hash, but an empty
     * hash without a block touches nothing and returns. With an open profile
     * but no hash, the block is stored and then `nil.each` fails.
     */
    method Event(evt: Label, transitions: Option<seq<(Label, Label)>>, block: Option<Callback>) returns (r: Result<()>)
      requires Valid()
      modifies this
      ensures Valid()
      ensures profile == old(profile)
      ensures old(profile).None? ==> ops == old(ops)
      ensures old(profile).None? ==> (r.Ok? <==> block.None? && transitions == Some([]))
      ensures old(profile).None? && r.Fail? ==> r.err == NoMethodError
      ensures old(profile).Some? && transitions.None? ==>
        r == Fail(NoMethodError) &&
        ops == old(ops)[old(profile).value := WithEventBlock(old(ops)[old(profile).value], evt, block)]
      ensures old(profile).Some? && transitions.Some? ==>
        r == Ok(()) &&
        ops == old(ops)[old(profile).value := Declare(old(ops)[old(profile).value], evt, transitions.value, block)]
    {
      if profile.None? {
        if block.None? && transitions == Some([]) {
          return Ok(());
        }
        return Fail(NoMethodError);
      }
      var p := profile.value;
      ghost var start := ops[p];
      AddEventBlock(p, evt, block);
      DeclareWellFormed(start, evt, [], block);
      if transitions.None? {
        return Fail(NoMethodError);
      }
      AddTransitions(p, evt, transitions.value);
      DeclareWellFormed(start, evt, transitions.value, block);
      r := Ok(());
    }

    /** The loop `args.first.each do |fromSt, toSt| ... end` of `event`. */
    method AddTransitions(p: Label, evt: Label, pairs: seq<(Label, Label)>)
      requires p in ops
      modifies this
      ensures profile == old(profile)
      ensures ops == old(ops)[p := AddPairs(old(ops)[p], evt, pairs)]
    {
      ghost var first := ops[p];
      var i := 0;
      while i < |pairs|
        invariant 0 <= i <= |pairs|
        invariant profile == old(profile) && p in ops
        invariant ops == old(ops)[p := AddPairs(first, evt, pairs[..i])]
      {
        var (from, to) := pairs[i];
        ghost var before := ops;
        AddStateEvents(p, from, evt);
        AddStateTransition(p, from, to);
        AddEventStates(p, evt, from, to);
        PairUpdates(before, p, evt, from, to);
        AddPairsSnoc(first, evt, pairs, i);
        ghost var done := AddPairs(first, evt, pairs[..i]);
        assert ops == old(ops)[p := done][p := AddPair(done, evt, from, to)];
        i := i + 1;
      }
      assert pairs[..i] == pairs;
    }

    /** `add_state_transition`. */
    method AddStateTransition(p: Label, from: Label, to: Label)
      requires p in ops
      modifies this
      ensures profile == old(profile)
      ensures ops == old(ops)[p := old(ops)[p].(stateTransfer := WithTransition(old(ops)[p].stateTransfer, from, to))]
    {
      var table := ops[p].stateTransfer;
      if from !in table {
        table := table[from := []];
      }
      if to !in table[from] {
        table := table[from := table[from] + [to]];
      }
      assert table == WithTransition(ops[p].stateTransfer, from, to);
      ops := ops[p := ops[p].(stateTransfer := table)];
    }

    /** `add_state_events`. */
    method AddStateEvents(p: Label, from: Label, evt: Label)
      requires p in ops
      modifies this
      ensures profile == old(profile)
      ensures ops == old(ops)[p := old(ops)[p].(stateEvents := WithStateEvent(old(ops)[p].stateEvents, from, evt))]
    {
      var table := ops[p].stateEvents;
      if from !in table {
        table := table[from := []];
      }
      table := table[from := table[from] + [evt]];
      assert table == WithStateEvent(ops[p].stateEvents, from, evt);
      ops := ops[p := ops[p].(stateEvents := table)];
    }

    /** `add_event_states`. */
    method AddEventStates(p: Label, evt: Label, from: Label, to: Label)
      requires p in ops
      modifies this
      ensures profile == old(profile)
      ensures ops == old(ops)[p := old(ops)[p].(eventStates := WithEventState(old(ops)[p].eventStates, evt, from, to))]
    {
      var table := ops[p].eventStates;
      if evt !in table {
        table := table[evt := map[]];
      }
      table := table[evt := table[evt][from := to]];
      assert table == WithEventState(ops[p].eventStates, evt, from, to);
      ops := ops[p := ops[p].(eventStates := table)];
    }

    /** `add_event_block`. */
    method AddEventBlock(p: Label, evt: Label, block: Option<Callback>)
      requires p in ops
      modifies this
      ensures profile == old(profile)
      ensures ops == old(ops)[p := WithEventBlock(old(ops)[p], evt, block)]
    {
      if block.Some? {
        ops := ops[p := ops[p].(eventBlocks := ops[p].eventBlocks[evt := block.value])];
      }
    }
  }
}
