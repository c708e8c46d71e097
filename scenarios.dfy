/**
 * The flows of the library's own examples, worked out on the model: the
 * class `Target` declares the events close, kiv, reopen and archive (whose
 * block always answers `false`), includes an accessor for its state
 * attribute, and calls `init_state` from its constructor.
 *
 * Both example classes pass `initial: :open`, a key the library does not
 * read; the initial state is `open` through the default. The second
 * example names the state attribute `stat`; the lemmas below are stated for
 * any attribute name `attr`, which covers both.
 */
module Scenarios {
  import opened Base
  import opened Builder
  import opened Engine

  /** The block of the archive event: it refuses the transition. */
  const Refuse: Callback := (a, e, f, t) => ReplyFalse

  /** The declarations of `Target`, from `stateful` on. */
  function Declared(attr: Label): Config
  {
    var c0 := Opened(Options(None, None, Some(attr)));
    var c1 := Declare(c0, "close", [("open", "closed")], None);
    var c2 := Declare(c1, "kiv", [("open", "kiv"), ("closed", "kiv")], None);
    var c3 := Declare(c2, "reopen", [("kiv", "open")], None);
    Declare(c3, "archive", [("closed", "archived")], Some(Refuse))
  }

  /** The entry after `event :close`, written out. */
  function AfterClose(attr: Label): Config
  {
    Config("open", attr,
      map["open" := ["closed"]],
      map["open" := ["close"]],
      map["close" := map["open" := "closed"]],
      map[])
  }

  /** The entry after `event :kiv`, written out. */
  function AfterKiv(attr: Label): Config
  {
    Config("open", attr,
      map["open" := ["closed", "kiv"], "closed" := ["kiv"]],
      map["open" := ["close", "kiv"], "closed" := ["kiv"]],
      map["close" := map["open" := "closed"], "kiv" := map["open" := "kiv", "closed" := "kiv"]],
      map[])
  }

  /** The entry after `event :reopen`, written out. */
  function AfterReopen(attr: Label): Config
  {
    Config("open", attr,
      map["open" := ["closed", "kiv"], "closed" := ["kiv"], "kiv" := ["open"]],
      map["open" := ["close", "kiv"], "closed" := ["kiv"], "kiv" := ["reopen"]],
      map["close" := map["open" := "closed"], "kiv" := map["open" := "kiv", "closed" := "kiv"],
          "reopen" := map["kiv" := "open"]],
      map[])
  }

  /** The tables of `Target` once every declaration has run, written out. */
  function TargetConfig(attr: Label): Config
  {
    Config("open", attr,
      map["open" := ["closed", "kiv"], "closed" := ["kiv", "archived"], "kiv" := ["open"]],
      map["open" := ["close", "kiv"], "closed" := ["kiv", "archive"], "kiv" := ["reopen"]],
      map["close" := map["open" := "closed"], "kiv" := map["open" := "kiv", "closed" := "kiv"],
          "reopen" := map["kiv" := "open"], "archive" := map["closed" := "archived"]],
      map["archive" := Refuse])
  }

  /** The class-level registry of `Target`: only the default profile. */
  function TargetOps(attr: Label): map<Label, Config>
  {
    map["default" := TargetConfig(attr)]
  }

  /** A `Target` whose accessor pair for `attr` holds `st`. */
  function Holding(attr: Label, st: Label): Host
  {
    Host(map[attr := st], {attr}, {attr})
  }

  /** `event :close, :open => :closed` on the fresh entry. */
  lemma DeclareClose(attr: Label)
    ensures Declare(Opened(Options(None, None, Some(attr))), "close", [("open", "closed")], None) == AfterClose(attr)
  {
    var c0 := Opened(Options(None, None, Some(attr)));
    assert Declare(c0, "close", [("open", "closed")], None) == AddPair(c0, "close", "open", "closed");
    assert [] + ["closed"] == ["closed"] && [] + ["close"] == ["close"];
  }

  /** The entry halfway through `event :kiv`, after its first pair. */
  function KivFromOpen(attr: Label): Config
  {
    Config("open", attr,
      map["open" := ["closed", "kiv"]],
      map["open" := ["close", "kiv"]],
      map["close" := map["open" := "closed"], "kiv" := map["open" := "kiv"]],
      map[])
  }

  /** The first pair of `event :kiv`, `:open => :kiv`. */
  lemma KivFirstPair(attr: Label)
    ensures AddPair(AfterClose(attr), "kiv", "open", "kiv") == KivFromOpen(attr)
  {
    var c := AddPair(AfterClose(attr), "kiv", "open", "kiv");
    assert ["closed"] + ["kiv"] == ["closed", "kiv"] && ["close"] + ["kiv"] == ["close", "kiv"];
    assert c.stateTransfer == KivFromOpen(attr).stateTransfer;
    assert c.stateEvents == KivFromOpen(attr).stateEvents;
    assert c.eventStates == KivFromOpen(attr).eventStates;
  }

  /** The second pair of `event :kiv`, `:closed => :kiv`. */
  lemma KivSecondPair(attr: Label)
    ensures AddPair(KivFromOpen(attr), "kiv", "closed", "kiv") == AfterKiv(attr)
  {
    var c := AddPair(KivFromOpen(attr), "kiv", "closed", "kiv");
    assert [] + ["kiv"] == ["kiv"];
    assert c.stateTransfer == AfterKiv(attr).stateTransfer;
    assert c.stateEvents == AfterKiv(attr).stateEvents;
    assert c.eventStates == AfterKiv(attr).eventStates;
  }

  /** `event :kiv, :open => :kiv, :closed => :kiv`. */
  lemma DeclareKiv(attr: Label)
    ensures Declare(AfterClose(attr), "kiv", [("open", "kiv"), ("closed", "kiv")], None) == AfterKiv(attr)
  {
    var c1 := AfterClose(attr);
    var kiv := [("open", "kiv"), ("closed", "kiv")];
    assert kiv[..1] == [("open", "kiv")] && kiv[..1][..0] == [];
    assert WithEventBlock(c1, "kiv", None) == c1;
    assert AddPairs(c1, "kiv", kiv[..1]) == AddPair(c1, "kiv", "open", "kiv");
    KivFirstPair(attr);
    KivSecondPair(attr);
  }

  /** `event :reopen, :kiv => :open`. */
  lemma DeclareReopen(attr: Label)
    ensures Declare(AfterKiv(attr), "reopen", [("kiv", "open")], None) == AfterReopen(attr)
  {
    assert Declare(AfterKiv(attr), "reopen", [("kiv", "open")], None) == AddPair(AfterKiv(attr), "reopen", "kiv", "open");
    assert [] + ["open"] == ["open"] && [] + ["reopen"] == ["reopen"];
  }

  /** The one pair of `event :archive`, `:closed => :archived`, once the block is stored. */
  lemma ArchivePair(attr: Label)
    ensures AddPair(AfterReopen(attr).(eventBlocks := map["archive" := Refuse]), "archive", "closed", "archived") == TargetConfig(attr)
  {
    var c := AddPair(AfterReopen(attr).(eventBlocks := map["archive" := Refuse]), "archive", "closed", "archived");
    assert ["kiv"] + ["archived"] == ["kiv", "archived"] && ["kiv"] + ["archive"] == ["kiv", "archive"];
    assert c.stateTransfer == TargetConfig(attr).stateTransfer;
    assert c.stateEvents == TargetConfig(attr).stateEvents;
    assert c.eventStates == TargetConfig(attr).eventStates;
  }

  /** `event :archive, :closed => :archived` with its refusing block. */
  lemma DeclareArchive(attr: Label)
    ensures Declare(AfterReopen(attr), "archive", [("closed", "archived")], Some(Refuse)) == TargetConfig(attr)
  {
    var c3 := AfterReopen(attr);
    assert WithEventBlock(c3, "archive", Some(Refuse)) == c3.(eventBlocks := map["archive" := Refuse]);
    assert Declare(c3, "archive", [("closed", "archived")], Some(Refuse)) ==
      AddPair(c3.(eventBlocks := map["archive" := Refuse]), "archive", "closed", "archived");
    ArchivePair(attr);
  }

  /** The declarations of `Target` build exactly the tables written out above. */
  lemma TargetTables(attr: Label)
    ensures Declared(attr) == TargetConfig(attr)
  {
    DeclareClose(attr);
    DeclareKiv(attr);
    DeclareReopen(attr);
    DeclareArchive(attr);
  }

  /** The tables of `Target` satisfy the builder invariant, because each declaration keeps it. */
  lemma TargetWellFormed(attr: Label)
    ensures WellFormed(TargetConfig(attr))
  {
    DeclareClose(attr);
    DeclareKiv(attr);
    DeclareReopen(attr);
    DeclareArchive(attr);
    var c0 := Opened(Options(None, None, Some(attr)));
    DeclareWellFormed(c0, "close", [("open", "closed")], None);
    DeclareWellFormed(AfterClose(attr), "kiv", [("open", "kiv"), ("closed", "kiv")], None);
    DeclareWellFormed(AfterKiv(attr), "reopen", [("kiv", "open")], None);
    DeclareWellFormed(AfterReopen(attr), "archive", [("closed", "archived")], Some(Refuse));
  }

  /** `Target.new`: the constructor's `init_state` leaves the object in `open`, with events to offer. */
  lemma TargetStartsOpen(attr: Label)
    ensures Initialized(TargetOps(attr), "default", Host(map[], {attr}, {attr})) == (Ok(()), Holding(attr, "open"))
    ensures NextEvents(TargetOps(attr), "default", Holding(attr, "open")) == Ok(Some(["close", "kiv"]))
  {
  }

  /** close moves the object from open to closed; the event has no block. */
  lemma TargetClose(attr: Label)
    ensures Triggered(TargetOps(attr), "default", Holding(attr, "open"), "close") == Step(Ok(()), Holding(attr, "closed"), [])
  {
  }

  /** kiv moves the object from closed to kiv. */
  lemma TargetKivFromClosed(attr: Label)
    ensures Triggered(TargetOps(attr), "default", Holding(attr, "closed"), "kiv") == Step(Ok(()), Holding(attr, "kiv"), [])
  {
  }

  /** kiv moves the object from open to kiv. */
  lemma TargetKivFromOpen(attr: Label)
    ensures Triggered(TargetOps(attr), "default", Holding(attr, "open"), "kiv") == Step(Ok(()), Holding(attr, "kiv"), [])
  {
  }

  /** reopen moves the object from kiv back to open. */
  lemma TargetReopen(attr: Label)
    ensures Triggered(TargetOps(attr), "default", Holding(attr, "kiv"), "reopen") == Step(Ok(()), Holding(attr, "open"), [])
  {
  }

  /** close from kiv is refused with InvalidStateForEvent and the object stays in kiv. */
  lemma TargetCloseFromKiv(attr: Label)
    ensures Triggered(TargetOps(attr), "default", Holding(attr, "kiv"), "close") ==
      Step(Fail(InvalidStateForEvent("kiv", "close")), Holding(attr, "kiv"), [])
  {
  }

  /** `apply_state(:notsure)` from open answers false and keeps open, and `apply_state!` raises. */
  lemma TargetApplyUnknown(attr: Label)
    ensures Applied(TargetOps(attr), "default", Holding(attr, "open"), "notsure") == (Ok(false), Holding(attr, "open"))
    ensures AppliedStrict(TargetOps(attr), "default", Holding(attr, "open"), "notsure").0 == Fail(InvalidState("notsure"))
  {
  }

  /** `apply_state(:closed)` from open answers true, and kiv is then among the next states. */
  lemma TargetApplyClosed(attr: Label)
    ensures Applied(TargetOps(attr), "default", Holding(attr, "open"), "closed") == (Ok(true), Holding(attr, "closed"))
    ensures NextStates(TargetOps(attr), "default", Holding(attr, "closed")) == Ok(["kiv", "archived"])
  {
    var ops := TargetOps(attr);
    assert NextStates(ops, "default", Holding(attr, "open")) == Ok(["closed", "kiv"]);
    assert Written(ops, "default", Holding(attr, "open"), "closed").1 == Holding(attr, "closed");
    assert Read(Holding(attr, "closed"), attr) == Some("closed");
    assert CurrentState(ops, "default", Holding(attr, "closed")) == Ok(Some("closed"));
  }

  /** archive from closed calls its block once, is halted by it, and leaves the object closed. */
  lemma TargetArchiveHalts(attr: Label)
    ensures Triggered(TargetOps(attr), "default", Holding(attr, "closed"), "archive") ==
      Step(Fail(UserHalt("archive", "archived")), Holding(attr, "closed"), [Call(Before, "archive", "closed", "archived")])
  {
  }

  /**
   * Two profiles on one object, each with its own state attribute: closing
   * under the default profile moves attribute `a` and leaves `b`, which the
   * other profile reads, where it was.
   */
  lemma TwoProfilesKeepApart(a: Label, b: Label, other: Label)
    requires a != b
    ensures var ops := map["default" := TargetConfig(a), "review" := TargetConfig(b)];
      var h := Host(map[a := "open", b := other], {a, b}, {a, b});
      var s := Triggered(ops, "default", h, "close");
      && s.result == Ok(())
      && CurrentState(ops, "default", s.host) == Ok(Some("closed"))
      && CurrentState(ops, "review", s.host) == CurrentState(ops, "review", h)
  {
    var ops := map["default" := TargetConfig(a), "review" := TargetConfig(b)];
    var h := Host(map[a := "open", b := other], {a, b}, {a, b});
    var c := ops["default"];
    assert c == TargetConfig(a);
    TargetWellFormed(a);
    assert Read(h, c.stateAttrName) == Some("open");
    assert c.eventStates["close"]["open"] == "closed";
    assert "close" !in c.eventBlocks;
    TriggerReachesDestination(ops, "default", h, "close", "open");
    TriggerIsolated(ops, "default", "review", h, "close");
  }

  /** One `event` declaration in a class whose only profile is the default one. */
  method DeclareOnDefault(k: Registry, evt: Label, pairs: seq<(Label, Label)>, block: Option<Callback>, ghost before: Config)
    requires k.Valid() && k.profile == Some("default") && k.ops == map["default" := before]
    modifies k
    ensures k.Valid() && k.profile == Some("default")
    ensures k.ops == map["default" := Declare(before, evt, pairs, block)]
  {
    var _ := k.Event(evt, Some(pairs), block);
  }

  /** The class body of `Target`: `stateful` followed by the four `event` declarations. */
  method DeclareTarget(attr: Label) returns (k: Registry)
    ensures fresh(k) && k.Valid()
    ensures k.ops == TargetOps(attr) && k.profile == Some("default")
  {
    k := new Registry();
    k.Stateful(Options(None, None, Some(attr)));
    DeclareClose(attr);
    DeclareOnDefault(k, "close", [("open", "closed")], None, Opened(Options(None, None, Some(attr))));
    DeclareKiv(attr);
    DeclareOnDefault(k, "kiv", [("open", "kiv"), ("closed", "kiv")], None, AfterClose(attr));
    DeclareReopen(attr);
    DeclareOnDefault(k, "reopen", [("kiv", "open")], None, AfterKiv(attr));
    DeclareArchive(attr);
    DeclareOnDefault(k, "archive", [("closed", "archived")], Some(Refuse), AfterReopen(attr));
  }

  /**
   * The first example run on the objects: `Target.new`, close, kiv, reopen,
   * kiv, a refused close, reopen, `apply_state(:notsure)`,
   * `apply_state(:closed)` and the halted archive.
   */
  method RunTarget(attr: Label) returns (refused: Result<()>, unknown: Result<bool>, halted: Result<()>, last: Host)
    ensures refused == Fail(InvalidStateForEvent("kiv", "close"))
    ensures unknown == Ok(false)
    ensures halted == Fail(UserHalt("archive", "archived"))
    ensures last == Holding(attr, "closed")
  {
    var k := DeclareTarget(attr);
    var t := new Instance(k, Host(map[], {attr}, {attr}));
    var _ := t.InitState("default");
    TargetStartsOpen(attr);
    assert t.host == Holding(attr, "open");
    var _, _ := t.TriggerEvent("close");
    TargetClose(attr);
    var _, _ := t.TriggerEvent("kiv");
    TargetKivFromClosed(attr);
    var _, _ := t.TriggerEvent("reopen");
    TargetReopen(attr);
    var _, _ := t.TriggerEvent("kiv");
    TargetKivFromOpen(attr);
    var calls;
    refused, calls := t.TriggerEvent("close");
    TargetCloseFromKiv(attr);
    var _, _ := t.TriggerEvent("reopen");
    unknown := t.ApplyState("notsure");
    TargetApplyUnknown(attr);
    var _ := t.ApplyState("closed");
    TargetApplyClosed(attr);
    halted, calls := t.TriggerEvent("archive");
    TargetArchiveHalts(attr);
    last := t.host;
  }
}
