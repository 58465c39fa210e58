/** The pinned listen port across boots (main_transport_port.go, main.go, the bind in
    internal/transport/server.go). */
module PortPin {
  import opened Text

  /** The pin file; Garbage covers everything unreadable. */
  datatype File = Missing | Garbage | Holds(port: int)

  predicate IsPort(p: int) { 1 <= p <= 65535 }

  /** loadTransportPort: 0 for no pin. */
  function Pinned(file: File): (p: int)
    ensures p == 0 || (IsPort(p) && file == Holds(p))
    ensures forall q :: IsPort(q) && file == Holds(q) ==> p == q
  {
    if file.Holds? && IsPort(file.port) then file.port else 0
  }

  /** One boot's inputs, and what the kernel and the disk answer during it. A port in `taken`
      is refused as unavailable, one in `broken` for another reason; an ephemeral bind lands
      on `ephemeral` or fails. No settings directory, or pinning switched off, is !dir. */
  datatype Boot = Boot(
    listen: int, settings: int, reset: bool, dir: bool,
    taken: set<int>, broken: set<int>, ephemeral: Option<int>,
    writes: bool, removes: bool)

  predicate CanHave(b: Boot, port: int) { port !in b.taken && port !in b.broken }

  /** An ephemeral bind lands on a port that can be had. */
  predicate KernelAnswers(b: Boot) {
    b.ephemeral.Some? ==> IsPort(b.ephemeral.value) && CanHave(b, b.ephemeral.value)
  }

  datatype Outcome = Serving(port: int) | Down

  datatype Pin = Pin(dir: bool, requested: int)

  // ---- what a boot does, told from its inputs

  function AfterReset(file: File, b: Boot): File {
    if b.reset && b.removes then Missing else file
  }

  predicate Automatic(b: Boot) { b.listen == 0 && b.dir && b.settings == 0 }

  /** The port the boot asks for; 0 asks for any. */
  function Asked(file: File, b: Boot): int {
    if b.listen != 0 then b.listen
    else if !b.dir then 0
    else if b.settings != 0 then b.settings
    else Pinned(AfterReset(file, b))
  }

  /** Only a pinned port that is merely taken gives way to an ephemeral one. */
  function OutcomeOf(file: File, b: Boot): Outcome {
    var port := Asked(file, b);
    if port != 0 && CanHave(b, port) then Serving(port)
    else if (port == 0 || (Automatic(b) && port !in b.broken)) && b.ephemeral.Some? then Serving(b.ephemeral.value)
    else Down
  }

  function FileAfter(file: File, b: Boot): File {
    if b.listen != 0 || !b.dir then file
    else
      var before := if Automatic(b) then AfterReset(file, b) else file;
      match OutcomeOf(file, b)
      case Serving(port) =>
        if (Automatic(b) && port == Asked(file, b)) || !b.writes then before else Holds(port)
      case Down =>
        if Automatic(b) && Asked(file, b) != 0 && b.removes then Missing else before
  }

  /** The file after a sequence of boots. */
  function FileAfterAll(file: File, boots: seq<Boot>): File {
    if boots == [] then file else FileAfter(FileAfterAll(file, boots[..|boots| - 1]), boots[|boots| - 1])
  }

  // ---- the code

  class Config {
    var port: int
    var ephemeralPortFallback: bool

    constructor (listen: int)
      ensures port == listen && !ephemeralPortFallback
    {
      port, ephemeralPortFallback := listen, false;
    }
  }

  class PinFile {
    var state: File

    constructor (file: File)
      ensures state == file
    {
      state := file;
    }

    /** clearTransportPort: removing a missing file is success. */
    method Clear(removes: bool)
      modifies this
      ensures state == if removes then Missing else old(state)
      ensures removes ==> Pinned(state) == 0
    {
      if state.Missing? || !removes { return; }
      state := Missing;
    }

    /** storeTransportPort: best effort. */
    method Store(port: int, writes: bool)
      modifies this
      ensures state == if writes then Holds(port) else old(state)
      ensures writes && IsPort(port) ==> Pinned(state) == port
    {
      if writes { state := Holds(port); }
    }

    /** pinTransportPort: settles the port this boot asks for. */
    method PinTransportPort(cfg: Config, b: Boot) returns (pin: Pin)
      requires cfg.port == b.listen && !cfg.ephemeralPortFallback
      modifies this, cfg
      ensures cfg.port == Asked(old(state), b)
      ensures cfg.ephemeralPortFallback <==> Automatic(b) && cfg.port != 0
      ensures state == if Automatic(b) then AfterReset(old(state), b) else old(state)
      ensures pin.dir <==> b.listen == 0 && b.dir
      ensures pin.requested == if Automatic(b) then cfg.port else 0
    {
      if cfg.port != 0 { return Pin(false, 0); }
      if !b.dir { return Pin(false, 0); }
      if b.settings != 0 {
        cfg.port := b.settings;
        return Pin(true, 0);
      }
      if b.reset { Clear(b.removes); }
      var port := Pinned(state);
      if port != 0 {
        cfg.port := port;
        cfg.ephemeralPortFallback := true;
      }
      return Pin(true, port);
    }

    method Adopt(pin: Pin, bound: int, writes: bool)
      modifies this
      ensures state ==
              if pin.dir && bound != 0 && bound != pin.requested && writes then Holds(bound) else old(state)
    {
      if !pin.dir || bound == 0 || bound == pin.requested { return; }
      Store(bound, writes);
    }

    method ClearOnFailedBind(pin: Pin, removes: bool)
      modifies this
      ensures state == if pin.dir && pin.requested != 0 && removes then Missing else old(state)
    {
      if !pin.dir || pin.requested == 0 { return; }
      Clear(removes);
    }

    /** A boot, from the pin to the adoption of what was bound. */
    method Run(b: Boot) returns (r: Outcome)
      requires KernelAnswers(b)
      modifies this
      ensures r == OutcomeOf(old(state), b)
      ensures state == FileAfter(old(state), b)
    {
      var cfg := new Config(b.listen);
      var pin := PinTransportPort(cfg, b);
      r := Listen(cfg, b);
      match r
      case Serving(port) => Adopt(pin, port, b.writes);
      case Down => ClearOnFailedBind(pin, b.removes);
    }
  }

  datatype Bind = Bound(port: int) | PortUnavailable | OtherFailure

  function BindAt(port: int, b: Boot): Bind {
    if port == 0 then (if b.ephemeral.Some? then Bound(b.ephemeral.value) else OtherFailure)
    else if port in b.broken then OtherFailure
    else if port in b.taken then PortUnavailable
    else Bound(port)
  }

  /** Server.listen: one ephemeral retry, for a preferred port that was unavailable. */
  method Listen(cfg: Config, b: Boot) returns (r: Outcome)
    ensures cfg.port != 0 && CanHave(b, cfg.port) ==> r == Serving(cfg.port)
    ensures cfg.port == 0 || (cfg.ephemeralPortFallback && cfg.port in b.taken && cfg.port !in b.broken) ==>
              r == if b.ephemeral.Some? then Serving(b.ephemeral.value) else Down
    ensures cfg.port != 0 && !CanHave(b, cfg.port) && (!cfg.ephemeralPortFallback || cfg.port in b.broken) ==> r == Down
  {
    var first := BindAt(cfg.port, b);
    if first.Bound? { return Serving(first.port); }
    if !cfg.ephemeralPortFallback || cfg.port == 0 || !first.PortUnavailable? { return Down; }
    var again := BindAt(0, b);
    return if again.Bound? then Serving(again.port) else Down;
  }

  // ---- what holds over boots

  /** A boot given an explicit port never touches the file. */
  lemma {:induction false} ListenLeavesTheFile(file: File, boots: seq<Boot>)
    requires forall k :: 0 <= k < |boots| ==> boots[k].listen != 0
    ensures FileAfterAll(file, boots) == file
  {
    if boots != [] { ListenLeavesTheFile(file, boots[..|boots| - 1]); }
  }

  predicate Records(b: Boot) { b.listen == 0 && b.dir && b.writes }

  /** A boot with no flag and no setting. */
  predicate Plain(b: Boot) { Automatic(b) && !b.reset }

  /** What a boot serves on is what the next one finds pinned. */
  lemma ServedIsPinned(file: File, b: Boot)
    requires Records(b) && KernelAnswers(b) && (b.settings == 0 || IsPort(b.settings))
    requires OutcomeOf(file, b).Serving?
    ensures Pinned(FileAfter(file, b)) == OutcomeOf(file, b).port
  {
  }

  lemma {:induction false} FileAfterSome(file: File, a: seq<Boot>, b: seq<Boot>)
    ensures FileAfterAll(file, a + b) == FileAfterAll(FileAfterAll(file, a), b)
  {
    if b == [] {
      assert a + b == a;
    } else {
      assert (a + b)[..|a + b| - 1] == a + b[..|b| - 1];
      FileAfterSome(file, a, b[..|b| - 1]);
    }
  }

  /** In any run: once a boot has recorded the port it served on, the next boot without flag
      or setting, with only --listen boots in between, moves off that port only if it cannot
      be had then. A recorded settings port is kept the same way after it is cleared. */
  lemma PortSticks(file: File, boots: seq<Boot>, i: nat, j: nat)
    requires i < j < |boots|
    requires Records(boots[i]) && KernelAnswers(boots[i]) && (boots[i].settings == 0 || IsPort(boots[i].settings))
    requires OutcomeOf(FileAfterAll(file, boots[..i]), boots[i]).Serving?
    requires forall k :: i < k < j ==> boots[k].listen != 0
    requires Plain(boots[j]) && KernelAnswers(boots[j])
    ensures var port := OutcomeOf(FileAfterAll(file, boots[..i]), boots[i]).port;
            Asked(FileAfterAll(file, boots[..j]), boots[j]) == port &&
            (OutcomeOf(FileAfterAll(file, boots[..j]), boots[j]) == Serving(port) <==>
              CanHave(boots[j], port))
  {
    assert boots[..i + 1][..i] == boots[..i];
    assert boots[..j] == boots[..i + 1] + boots[i + 1..j];
    FileAfterSome(file, boots[..i + 1], boots[i + 1..j]);
    ListenLeavesTheFile(FileAfterAll(file, boots[..i + 1]), boots[i + 1..j]);
    ServedIsPinned(FileAfterAll(file, boots[..i]), boots[i]);
  }

  /** A settings port is served or the boot fails: it never gives way to another port. */
  lemma SettingsNeverFallBack(file: File, b: Boot)
    requires b.listen == 0 && b.dir && b.settings != 0
    ensures OutcomeOf(file, b) == if CanHave(b, b.settings) then Serving(b.settings) else Down
    ensures OutcomeOf(file, b).Down? ==> FileAfter(file, b) == file
    ensures OutcomeOf(file, b).Serving? && b.writes && IsPort(b.settings) ==> Pinned(FileAfter(file, b)) == b.settings
  {
  }

  /** A pin fails a boot twice running exactly when the file could not be removed after the
      first time (and, a port being only out of reach, the second bind fails too). */
  lemma FailedPinIsDropped(file: File, b: Boot, c: Boot)
    requires Plain(b) && Plain(c) && Pinned(file) != 0 && OutcomeOf(file, b).Down?
    ensures Asked(FileAfter(file, b), c) == if b.removes then 0 else Pinned(file)
    ensures b.removes && c.ephemeral.Some? ==> OutcomeOf(FileAfter(file, b), c).Serving?
  {
  }

  /** --listen wins over the setting and the pin; the setting wins over the pin; and without
      either the pin is asked for, unless it is reset. */
  lemma WhoIsAsked(file: File, b: Boot, pin: int)
    requires IsPort(pin) && file == Holds(pin)
    ensures b.listen != 0 ==> Asked(file, b) == b.listen
    ensures b.listen == 0 && b.dir && b.settings != 0 ==> Asked(file, b) == b.settings
    ensures b.listen == 0 && b.dir && b.settings == 0 ==> Asked(file, b) == if b.reset && b.removes then 0 else pin
    ensures b.listen == 0 && !b.dir ==> Asked(file, b) == 0
  {
  }

  /** A --listen port is served or the boot fails. */
  lemma ListenNeverFallsBack(file: File, b: Boot)
    requires b.listen != 0
    ensures OutcomeOf(file, b) == if b.listen !in b.taken && b.listen !in b.broken then Serving(b.listen) else Down
  {
  }

  /** A reset drops the pin before the bind: the boot takes any port, and that one is pinned. */
  lemma ResetMovesOn(file: File, b: Boot, other: int)
    requires b.listen == 0 && b.dir && b.settings == 0 && b.reset && b.removes && b.writes
    requires b.ephemeral == Some(other) && IsPort(other)
    ensures OutcomeOf(file, b) == Serving(other) && FileAfter(file, b) == Holds(other)
  {
  }

  /** A pin that is taken gives way to any port, which is pinned instead; one that is refused
      for another reason fails the boot, and is dropped. */
  lemma PinGivesWay(b: Boot, pin: int, other: int)
    requires Plain(b) && b.writes && b.removes && IsPort(pin) && IsPort(other) && b.ephemeral == Some(other) && pin != other
    ensures pin in b.taken && pin !in b.broken ==>
              OutcomeOf(Holds(pin), b) == Serving(other) && FileAfter(Holds(pin), b) == Holds(other)
    ensures pin in b.broken ==> OutcomeOf(Holds(pin), b) == Down && FileAfter(Holds(pin), b) == Missing
  {
  }

  /** Two boots that find pinned port 8080 broken, on a disk that lets no file be removed. */
  lemma PinFailsTwice()
    ensures var b := Boot(0, 0, false, true, {}, {8080}, Some(40000), true, false);
            Plain(b) && KernelAnswers(b) && OutcomeOf(Holds(8080), b) == Down &&
            FileAfter(Holds(8080), b) == Holds(8080) && OutcomeOf(FileAfter(Holds(8080), b), b) == Down
  {
  }

  /** Boots whose pin could not be had. */
  function Refusals(file: File, boots: seq<Boot>): nat
    decreases |boots|
  {
    if boots == [] then 0
    else
      (if Pinned(file) != 0 && !CanHave(boots[0], Pinned(file)) then 1 else 0) +
      Refusals(FileAfter(file, boots[0]), boots[1..])
  }

  /** Boots that serve on another port than the last one served on (0 for none yet). */
  function Changes(served: int, file: File, boots: seq<Boot>): nat
    decreases |boots|
  {
    if boots == [] then 0
    else
      match OutcomeOf(file, boots[0])
      case Serving(port) =>
        (if served != 0 && port != served then 1 else 0) + Changes(port, FileAfter(file, boots[0]), boots[1..])
      case Down => Changes(served, FileAfter(file, boots[0]), boots[1..])
  }

  predicate PlainRun(boots: seq<Boot>) {
    forall k :: 0 <= k < |boots| ==>
      Plain(boots[k]) && boots[k].writes && KernelAnswers(boots[k])
  }

  lemma {:induction false} ChangesFrom(served: int, file: File, boots: seq<Boot>)
    requires PlainRun(boots)
    ensures Changes(served, file, boots) <= Refusals(file, boots) + if served != 0 && Pinned(file) != served then 1 else 0
    decreases |boots|
  {
    if boots != [] {
      assert Plain(boots[0]) && boots[0].writes && KernelAnswers(boots[0]);
      match OutcomeOf(file, boots[0])
      case Serving(port) =>
        ServedIsPinned(file, boots[0]);
        ChangesFrom(port, FileAfter(file, boots[0]), boots[1..]);
      case Down =>
        ChangesFrom(served, FileAfter(file, boots[0]), boots[1..]);
    }
  }

  /** Every change of port is paid for by a boot whose pin could not be had. */
  lemma ChangesArePaidFor(file: File, boots: seq<Boot>)
    requires PlainRun(boots)
    ensures Changes(Pinned(file), file, boots) <= Refusals(file, boots)
    ensures Changes(0, file, boots) <= Refusals(file, boots)
  {
    ChangesFrom(Pinned(file), file, boots);
    ChangesFrom(0, file, boots);
  }

  /** Ports taken for good cost one change, however long the run. */
  lemma {:induction false} TakenForGoodCostsOne(taken: set<int>, file: File, boots: seq<Boot>)
    requires PlainRun(boots)
    requires forall k :: 0 <= k < |boots| ==> boots[k].taken == taken && boots[k].broken == {} && boots[k].ephemeral.Some?
    ensures Refusals(file, boots) == if boots != [] && Pinned(file) in taken && Pinned(file) != 0 then 1 else 0
    decreases |boots|
  {
    if boots != [] {
      assert Plain(boots[0]) && boots[0].writes && KernelAnswers(boots[0]) && boots[0].taken == taken;
      ServedIsPinned(file, boots[0]);
      TakenForGoodCostsOne(taken, FileAfter(file, boots[0]), boots[1..]);
    }
  }
}
