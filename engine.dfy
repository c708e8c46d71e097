/**
 * The instance side of statize: the methods a stateful object gains by
 * including the module. The object carries the private active-profile field
 * `@aprof` and the host's state attribute, which it reads and writes through
 * the attribute name the active profile configures.
 *
 * The host object is the record `Host`: its attribute values and which of
 * them have a reader (`respond_to?(name)`) and a writer
 * (`respond_to?("name=")`). The pure functions below say what each
 * operation returns and what it leaves in the host; the class `Instance`
 * performs the operations step by step and is proved to agree with them.
 */
module Engine {
  import opened Base
  import opened Builder

  /** The host object: attribute values (absent = `nil`) and its reader and writer methods. */
  datatype Host = Host(attrs: map<Label, Label>, readable: set<Label>, writable: set<Label>)

  /** The outcome of `trigger_event`: what it returned or raised, the host afterwards, and the block calls made, in order. */
  datatype Step = Step(result: Result<()>, host: Host, calls: seq<Call>)

  /** `active_profile`: the stored profile, or `:default` when it is `nil` or empty. */
  function ActiveProfile(aprof: Option<Label>): (p: Label)
    ensures p != ""
    ensures !IsEmpty(aprof) ==> p == aprof.value
    ensures IsEmpty(aprof) ==> p == "default"
  {
    if IsEmpty(aprof) then "default" else aprof.value
  }

  /** The value of the attribute `name`, when the host has a reader for it. */
  function Read(h: Host, name: Label): Option<Label>
  {
    if name in h.readable && name in h.attrs then Some(h.attrs[name]) else None
  }

  /** `current_state` under profile `p`: `nil` without a reader; NoMethodError for an unknown profile. */
  function CurrentState(ops: map<Label, Config>, p: Label, h: Host): (r: Result<Option<Label>>)
    ensures r.Ok? <==> p in ops
    ensures r.Fail? ==> r.err == NoMethodError
    ensures r.Ok? ==> (r.value.Some? <==> ops[p].stateAttrName in h.readable && ops[p].stateAttrName in h.attrs)
    ensures r.Ok? && r.value.Some? ==> r.value.value == h.attrs[ops[p].stateAttrName]
  {
    match StateAttrName(ops, p)
    case Fail(e) => Fail(e)
    case Ok(name) => Ok(Read(h, name))
  }

  /**
   * `next_states`: the next states of the current state, `[]` when the
   * current state is `nil` or empty, and NoMethodError (`nil.map`) when the
   * current state has no row in the transition table.
   */
  function NextStates(ops: map<Label, Config>, p: Label, h: Host): (r: Result<seq<Label>>)
    ensures r.Ok? <==> p in ops && (IsEmpty(CurrentState(ops, p, h).value) ||
                                    CurrentState(ops, p, h).value.value in ops[p].stateTransfer)
    ensures r.Fail? ==> r.err == NoMethodError
    ensures r.Ok? && IsEmpty(CurrentState(ops, p, h).value) ==> r.value == []
    ensures r.Ok? && !IsEmpty(CurrentState(ops, p, h).value) ==>
      r.value == ops[p].stateTransfer[CurrentState(ops, p, h).value.value]
  {
    match CurrentState(ops, p, h)
    case Fail(e) => Fail(e)
    case Ok(cs) =>
      if IsEmpty(cs) then Ok([])
      else
        var table := ops[p].stateTransfer;
        if cs.value in table then Ok(table[cs.value]) else Fail(NoMethodError)
  }

  /**
   * `next_events`: the events registered from the current state, `nil` when
   * there are none, and NoMethodError (`nil.to_sym`) when the current state
   * is `nil`.
   */
  function NextEvents(ops: map<Label, Config>, p: Label, h: Host): (r: Result<Option<seq<Label>>>)
    ensures r.Ok? <==> p in ops && CurrentState(ops, p, h).value.Some?
    ensures r.Fail? ==> r.err == NoMethodError
    ensures r.Ok? ==> var s := CurrentState(ops, p, h).value.value;
      (r.value.Some? <==> s in ops[p].stateEvents) &&
      (r.value.Some? ==> r.value.value == ops[p].stateEvents[s])
  {
    match StateEventsTable(ops, p)
    case Fail(e) => Fail(e)
    case Ok(se) =>
      match CurrentState(ops, p, h)
      case Fail(e) => Fail(e)
      case Ok(cs) =>
        if cs.None? then Fail(NoMethodError)
        else Ok(if cs.value in se then Some(se[cs.value]) else None)
  }

  /**
   * `update_state(st)` under profile `p`: write `st` into the attribute the
   * profile names, or skip the write when the host has no writer for it.
   */
  function Written(ops: map<Label, Config>, p: Label, h: Host, st: Label): (r: (Result<()>, Host))
    ensures r.0.Ok? <==> p in ops
    ensures r.0.Fail? ==> r.0.err == NoMethodError && r.1 == h
    ensures r.1.readable == h.readable && r.1.writable == h.writable
    ensures forall k :: p !in ops || k != ops[p].stateAttrName ==>
      (k in r.1.attrs <==> k in h.attrs) && (k in h.attrs ==> r.1.attrs[k] == h.attrs[k])
    ensures p in ops && ops[p].stateAttrName in h.writable ==>
      ops[p].stateAttrName in r.1.attrs && r.1.attrs[ops[p].stateAttrName] == st
    ensures p in ops && ops[p].stateAttrName !in h.writable ==> r.1 == h
  {
    match StateAttrName(ops, p)
    case Fail(e) => (Fail(e), h)
    case Ok(name) =>
      if name in h.writable then (Ok(()), h.(attrs := h.attrs[name := st])) else (Ok(()), h)
  }

  /**
   * `apply_state(st)`: move to `st` when it is one of the next states and
   * answer true; otherwise answer false and change nothing.
   */
  function Applied(ops: map<Label, Config>, p: Label, h: Host, st: Label): (r: (Result<bool>, Host))
    ensures r.0.Ok? <==> NextStates(ops, p, h).Ok?
    ensures r.0.Fail? ==> r.0 == Fail(NextStates(ops, p, h).err)
    ensures r.0.Ok? ==> (r.0.value <==> st in NextStates(ops, p, h).value)
    ensures r.0 != Ok(true) ==> r.1 == h
    ensures r.0 == Ok(true) ==> r.1 == Written(ops, p, h, st).1
  {
    match NextStates(ops, p, h)
    case Fail(e) => (Fail(e), h)
    case Ok(ns) =>
      if st in ns then (Ok(true), Written(ops, p, h, st).1) else (Ok(false), h)
  }

  /** `apply_state!(st)`: `apply_state` that raises InvalidState instead of answering false. */
  function AppliedStrict(ops: map<Label, Config>, p: Label, h: Host, st: Label): (r: (Result<()>, Host))
    ensures r.0 == Fail(InvalidState(st)) <==> Applied(ops, p, h, st).0 == Ok(false)
    ensures r.0.Ok? <==> Applied(ops, p, h, st).0 == Ok(true)
    ensures Applied(ops, p, h, st).0.Fail? ==> r.0 == Fail(Applied(ops, p, h, st).0.err)
    ensures r.1 == Applied(ops, p, h, st).1
  {
    var (res, h') := Applied(ops, p, h, st);
    match res
    case Fail(e) => (Fail(e), h')
    case Ok(moved) => if moved then (Ok(()), h') else (Fail(InvalidState(st)), h')
  }

  /**
   * `init_state(prof)` and `activate_state_profile(prof)`: make `prof` the
   * active profile and write its initial state without any transition check.
   * The initial state is looked up under `prof` itself, the attribute under
   * the resolved active profile.
   */
  function Initialized(ops: map<Label, Config>, prof: Label, h: Host): (r: (Result<()>, Host))
    ensures prof !in ops ==> r == (Fail(NoMethodError), h)
    ensures prof in ops ==> r == Written(ops, ActiveProfile(Some(prof)), h, ops[prof].initialState)
  {
    match InitialState(ops, prof)
    case Fail(e) => (Fail(e), h)
    case Ok(init) => Written(ops, ActiveProfile(Some(prof)), h, init)
  }

  /**
   * `trigger_event(evt)`: the ladder of checks, the before-callback, the
   * write, then the after-callback.
   */
  function Triggered(ops: map<Label, Config>, p: Label, h: Host, evt: Label): (s: Step)
    ensures s.result.Fail? ==> s.host == h
    ensures s.result.Fail? ==> forall i :: 0 <= i < |s.calls| ==> s.calls[i].action == Before
    ensures |s.calls| <= 2
    ensures |s.calls| == 2 ==> s.calls[0].action == Before && s.calls[1].action == After
    ensures s.host != h ==> s.result.Ok? && p in ops && Read(s.host, ops[p].stateAttrName) != Read(h, ops[p].stateAttrName)
  {
    match CurrentState(ops, p, h)
    case Fail(e) => Step(Fail(e), h, [])
    case Ok(cs) =>
      if IsEmpty(cs) then Step(Ok(()), h, [])
      else
        var cst := cs.value;
        var table := ops[p].eventStates;
        if evt !in table then Step(Fail(InvalidEvent(evt, p)), h, [])
        else if cst !in table[evt] then Step(Fail(InvalidStateForEvent(cst, evt)), h, [])
        else
          var dest := table[evt][cst];
          if dest == "" then Step(Fail(InvalidStateForEvent(cst, evt)), h, [])
          else
            var blocks := ops[p].eventBlocks;
            var before := if evt in blocks then [Call(Before, evt, cst, dest)] else [];
            var reply := if evt in blocks then blocks[evt](Before, evt, cst, dest) else ReplyTrue;
            if !Proceeds(reply) then Step(Fail(UserHalt(evt, dest)), h, before)
            else
              var (res, h') := Applied(ops, p, h, dest);
              if res.Fail? then Step(Fail(res.err), h, before)
              else Step(Ok(()), h', before + (if evt in blocks then [Call(After, evt, cst, dest)] else []))
  }

  // ---------------------------------------------------------------------
  // Properties of the instance operations
  // ---------------------------------------------------------------------

  /** What `update_state` writes is what `current_state` reads back under the same profile. */
  lemma ReadAfterWrite(ops: map<Label, Config>, p: Label, h: Host, st: Label)
    requires p in ops && ops[p].stateAttrName in h.readable && ops[p].stateAttrName in h.writable
    ensures Written(ops, p, h, st).0 == Ok(())
    ensures CurrentState(ops, p, Written(ops, p, h, st).1) == Ok(Some(st))
  {
  }

  /** When `apply_state` answers true on a host with reader and writer, the state is the one asked for. */
  lemma ApplyMoves(ops: map<Label, Config>, p: Label, h: Host, st: Label)
    requires p in ops && ops[p].stateAttrName in h.readable && ops[p].stateAttrName in h.writable
    ensures Applied(ops, p, h, st).0 == Ok(true) <==> NextStates(ops, p, h).Ok? && st in NextStates(ops, p, h).value
    ensures Applied(ops, p, h, st).0 == Ok(true) ==> CurrentState(ops, p, Applied(ops, p, h, st).1) == Ok(Some(st))
    ensures Applied(ops, p, h, st).0 != Ok(true) ==> CurrentState(ops, p, Applied(ops, p, h, st).1) == CurrentState(ops, p, h)
  {
    if Applied(ops, p, h, st).0 == Ok(true) {
      ReadAfterWrite(ops, p, h, st);
    }
  }

  /**
   * The ladder of `trigger_event` for an opened profile: which outcome each
   * rung produces, and that every failing rung leaves the state as it was.
   */
  lemma TriggerLadder(ops: map<Label, Config>, p: Label, h: Host, evt: Label)
    requires p in ops
    ensures var cs := CurrentState(ops, p, h).value; var s := Triggered(ops, p, h, evt);
      var table := ops[p].eventStates;
      && (IsEmpty(cs) ==> s == Step(Ok(()), h, []))
      && (!IsEmpty(cs) && evt !in table ==> s.result == Fail(InvalidEvent(evt, p)))
      && (!IsEmpty(cs) && evt in table && cs.value !in table[evt] ==>
            s.result == Fail(InvalidStateForEvent(cs.value, evt)))
      && (!IsEmpty(cs) && evt in table && cs.value in table[evt] && table[evt][cs.value] == "" ==>
            s.result == Fail(InvalidStateForEvent(cs.value, evt)))
      && (!IsEmpty(cs) && evt in table && cs.value in table[evt] && evt in ops[p].eventBlocks &&
          ops[p].eventBlocks[evt](Before, evt, cs.value, table[evt][cs.value]) == ReplyFalse &&
          table[evt][cs.value] != "" ==>
            s.result == Fail(UserHalt(evt, table[evt][cs.value])))
      && (s.result.Fail? ==> CurrentState(ops, p, s.host) == CurrentState(ops, p, h))
  {
  }

  /**
   * With a well-formed table, an event that passes every check reaches its
   * declared destination: the inner `apply_state` cannot answer false, and
   * the block is called before and after.
   */
  lemma TriggerReachesDestination(ops: map<Label, Config>, p: Label, h: Host, evt: Label, cst: Label)
    requires p in ops && WellFormed(ops[p])
    requires ops[p].stateAttrName in h.readable && ops[p].stateAttrName in h.writable
    requires Read(h, ops[p].stateAttrName) == Some(cst) && cst != ""
    requires evt in ops[p].eventStates && cst in ops[p].eventStates[evt]
    requires ops[p].eventStates[evt][cst] != ""
    requires evt in ops[p].eventBlocks ==>
      Proceeds(ops[p].eventBlocks[evt](Before, evt, cst, ops[p].eventStates[evt][cst]))
    ensures var s := Triggered(ops, p, h, evt); var dest := ops[p].eventStates[evt][cst];
      && s.result == Ok(())
      && CurrentState(ops, p, s.host) == Ok(Some(dest))
      && s.calls == (if evt in ops[p].eventBlocks then [Call(Before, evt, cst, dest), Call(After, evt, cst, dest)] else [])
  {
    var dest := ops[p].eventStates[evt][cst];
    assert dest in ops[p].stateTransfer[cst];
    ApplyMoves(ops, p, h, dest);
  }

  /**
   * Declaration and firing together: right after `event(evt, pairs)` on a
   * well-formed entry, triggering `evt` from a source of the hash moves the
   * object to the destination the hash gives that source last.
   */
  lemma DeclaredEventFires(ops: map<Label, Config>, p: Label, h: Host, c: Config, evt: Label,
                           pairs: seq<(Label, Label)>, block: Option<Callback>, k: nat, dest: Label)
    requires p in ops && WellFormed(c) && ops[p] == Declare(c, evt, pairs, block) && k < |pairs|
    requires ops[p].stateAttrName in h.readable && ops[p].stateAttrName in h.writable
    requires Read(h, ops[p].stateAttrName) == Some(pairs[k].0) && pairs[k].0 != ""
    requires LastDest(pairs, pairs[k].0) == Some(dest) && dest != ""
    requires evt in ops[p].eventBlocks ==> Proceeds(ops[p].eventBlocks[evt](Before, evt, pairs[k].0, dest))
    ensures Triggered(ops, p, h, evt).result == Ok(())
    ensures CurrentState(ops, p, Triggered(ops, p, h, evt).host) == Ok(Some(dest))
  {
    DeclaredPair(c, evt, pairs, block, k);
    DeclareWellFormed(c, evt, pairs, block);
    TriggerReachesDestination(ops, p, h, evt, pairs[k].0);
  }

  /**
   * The converse: when `trigger_event` changes the host at all, the event was
   * registered for the current state and the host now holds its destination.
   */
  lemma TriggerMovesOnlyToDestination(ops: map<Label, Config>, p: Label, h: Host, evt: Label)
    requires Triggered(ops, p, h, evt).host != h
    ensures p in ops
    ensures var c := ops[p]; var cs := Read(h, c.stateAttrName);
      && Triggered(ops, p, h, evt).result == Ok(())
      && cs.Some? && cs.value != "" && evt in c.eventStates && cs.value in c.eventStates[evt]
      && CurrentState(ops, p, Triggered(ops, p, h, evt).host) == Ok(Some(c.eventStates[evt][cs.value]))
  {
    var cst := Read(h, ops[p].stateAttrName).value;
    var dest := ops[p].eventStates[evt][cst];
    ApplyMoves(ops, p, h, dest);
  }

  /** `init_state(prof)` writes the initial state of `prof`, whatever the current state is. */
  lemma InitWritesInitialState(ops: map<Label, Config>, prof: Label, h: Host)
    requires prof in ops && prof != ""
    requires ops[prof].stateAttrName in h.readable && ops[prof].stateAttrName in h.writable
    ensures Initialized(ops, prof, h).0 == Ok(())
    ensures CurrentState(ops, prof, Initialized(ops, prof, h).1) == Ok(Some(ops[prof].initialState))
  {
    ReadAfterWrite(ops, prof, h, ops[prof].initialState);
  }

  /** A write under profile `p` leaves the state of every profile with another attribute as it was. */
  lemma WriteIsolated(ops: map<Label, Config>, p: Label, q: Label, h: Host, st: Label)
    requires q in ops && (p in ops ==> ops[p].stateAttrName != ops[q].stateAttrName)
    ensures CurrentState(ops, q, Written(ops, p, h, st).1) == CurrentState(ops, q, h)
    ensures NextStates(ops, q, Written(ops, p, h, st).1) == NextStates(ops, q, h)
    ensures NextEvents(ops, q, Written(ops, p, h, st).1) == NextEvents(ops, q, h)
  {
    assert Read(Written(ops, p, h, st).1, ops[q].stateAttrName) == Read(h, ops[q].stateAttrName);
  }

  /** An event triggered under `p` never touches the state of a profile with another attribute. */
  lemma TriggerIsolated(ops: map<Label, Config>, p: Label, q: Label, h: Host, evt: Label)
    requires q in ops && (p in ops ==> ops[p].stateAttrName != ops[q].stateAttrName)
    ensures CurrentState(ops, q, Triggered(ops, p, h, evt).host) == CurrentState(ops, q, h)
  {
    var s := Triggered(ops, p, h, evt);
    if s.host != h {
      TriggerMovesOnlyToDestination(ops, p, h, evt);
      var cst := Read(h, ops[p].stateAttrName).value;
      WriteIsolated(ops, p, q, h, ops[p].eventStates[evt][cst]);
    }
  }

  /** `init_state(prof)` never touches the state of a profile with another attribute. */
  lemma InitIsolated(ops: map<Label, Config>, prof: Label, q: Label, h: Host)
    requires q in ops
    requires ActiveProfile(Some(prof)) in ops ==> ops[ActiveProfile(Some(prof))].stateAttrName != ops[q].stateAttrName
    ensures CurrentState(ops, q, Initialized(ops, prof, h).1) == CurrentState(ops, q, h)
  {
    if prof in ops {
      WriteIsolated(ops, ActiveProfile(Some(prof)), q, h, ops[prof].initialState);
    }
  }

  // ---------------------------------------------------------------------
  // The stateful object
  // ---------------------------------------------------------------------

  /**
   * An object of a class that included statize: its class's registry, the
   * private `@aprof` and the host attributes the state lives in.
   */
  class Instance {
    const klass: Registry
    var aprof: Option<Label>
    var host: Host

    constructor (klass: Registry, host: Host)
      ensures this.klass == klass && this.host == host && aprof == None
    {
      this.klass := klass;
      this.host := host;
      aprof := None;
    }

    /** `set_active_profile(val)`. */
    method SetActiveProfile(val: Option<Label>)
      modifies this
      ensures aprof == val && host == old(host)
    {
      aprof := val;
    }

    /** `active_profile`: stores `:default` in `@aprof` when it is empty, then answers it. */
    method ResolveActiveProfile() returns (p: Label)
      modifies this
      ensures p == ActiveProfile(old(aprof)) && aprof == Some(p) && host == old(host)
    {
      if IsEmpty(aprof) {
        aprof := Some("default");
      }
      p := aprof.value;
    }

    /** `update_state(st)`. */
    method UpdateState(st: Label) returns (r: Result<()>)
      modifies this
      ensures (r, host) == Written(klass.ops, ActiveProfile(old(aprof)), old(host), st)
      ensures aprof == Some(ActiveProfile(old(aprof)))
    {
      var p := ResolveActiveProfile();
      var name := StateAttrName(klass.ops, p);
      if name.Fail? {
        return Fail(name.err);
      }
      if name.value in host.writable {
        host := host.(attrs := host.attrs[name.value := st]);
      }
      r := Ok(());
    }

    /** `init_state(prof)`: set the profile, then write its initial state. */
    method InitState(prof: Label) returns (r: Result<()>)
      modifies this
      ensures (r, host) == Initialized(klass.ops, prof, old(host))
      ensures aprof == if prof in klass.ops then Some(ActiveProfile(Some(prof))) else Some(prof)
    {
      SetActiveProfile(Some(prof));
      var init := InitialState(klass.ops, prof);
      if init.Fail? {
        return Fail(init.err);
      }
      r := UpdateState(init.value);
    }

    /** `activate_state_profile(prof)`: the same steps as `init_state(prof)`. */
    method ActivateStateProfile(prof: Label) returns (r: Result<()>)
      modifies this
      ensures (r, host) == Initialized(klass.ops, prof, old(host))
      ensures aprof == if prof in klass.ops then Some(ActiveProfile(Some(prof))) else Some(prof)
    {
      r := InitState(prof);
    }

    /** `apply_state(st)`. */
    method ApplyState(st: Label) returns (r: Result<bool>)
      modifies this
      ensures (r, host) == Applied(klass.ops, ActiveProfile(old(aprof)), old(host), st)
      ensures aprof == Some(ActiveProfile(old(aprof)))
    {
      var p := ResolveActiveProfile();
      var ns := NextStates(klass.ops, p, host);
      if ns.Fail? {
        return Fail(ns.err);
      }
      if st in ns.value {
        var _ := UpdateState(st);
        r := Ok(true);
      } else {
        r := Ok(false);
      }
    }

    /** `apply_state!(st)`. */
    method ApplyStateBang(st: Label) returns (r: Result<()>)
      modifies this
      ensures (r, host) == AppliedStrict(klass.ops, ActiveProfile(old(aprof)), old(host), st)
      ensures aprof == Some(ActiveProfile(old(aprof)))
    {
      var res := ApplyState(st);
      match res
      case Fail(e) => r := Fail(e);
      case Ok(moved) => r := if moved then Ok(()) else Fail(InvalidState(st));
    }

    /** `trigger_event(evt)`, answering the outcome and the block calls it made. */
    method TriggerEvent(evt: Label) returns (r: Result<()>, calls: seq<Call>)
      modifies this
      ensures Step(r, host, calls) == Triggered(klass.ops, ActiveProfile(old(aprof)), old(host), evt)
      ensures aprof == Some(ActiveProfile(old(aprof)))
    {
      calls := [];
      var p := ResolveActiveProfile();
      var cs := CurrentState(klass.ops, p, host);
      if cs.Fail? {
        return Fail(cs.err), calls;
      }
      if IsEmpty(cs.value) {
        return Ok(()), calls;
      }
      var cst := cs.value.value;
      var tbl := EventStatesTable(klass.ops, p).value;
      if evt !in tbl {
        return Fail(InvalidEvent(evt, p)), calls;
      }
      if cst !in tbl[evt] {
        return Fail(InvalidStateForEvent(cst, evt)), calls;
      }
      var dest := tbl[evt][cst];
      if dest == "" {
        return Fail(InvalidStateForEvent(cst, evt)), calls;
      }
      var blocks := EventBlockTable(klass.ops, p).value;
      var update := ReplyTrue;
      if evt in blocks {
        update := blocks[evt](Before, evt, cst, dest);
        calls := calls + [Call(Before, evt, cst, dest)];
      }
      if update == ReplyNil || update == ReplyOther {
        update := ReplyTrue;
      }
      if update == ReplyFalse {
        return Fail(UserHalt(evt, dest)), calls;
      }
      var applied := ApplyState(dest);
      if applied.Fail? {
        return Fail(applied.err), calls;
      }
      if evt in blocks {
        calls := calls + [Call(After, evt, cst, dest)];
      }
      r := Ok(());
    }
  }
}
