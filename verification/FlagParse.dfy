/** Flags before, between and after positional arguments (cmd/ao-harness/cli.go), over the
    argument syntax of Go's flag package. */
module FlagParse {
  import opened Text

  /** The flags of a set: those that take no value of their own, those that need one, and the
      values each accepts. */
  datatype Defs = Defs(bools: set<string>, values: set<string>, accepts: (string, string) -> bool)

  /** One Set call. A flag set's state is the fold of these, in order; a refused one, which may
      have changed its flag before refusing, is the last. */
  datatype Setting = Setting(name: string, value: string)

  datatype One =
    | Stop                                // a positional, or nothing left
    | Terminator                          // "--"
    | Takes(setting: Setting, n: nat)     // n arguments used
    | Rejects(setting: Setting, n: nat)   // n arguments used, and the flag refused the value
    | Bad(n: nat)                         // bad syntax (none used), unknown flag or no value left

  function IndexOfEquals(s: string): (i: nat)
    ensures i <= |s| && '=' !in s[..i] && (i < |s| ==> s[i] == '=')
  {
    if s == "" || s[0] == '=' then 0
    else
      var i := IndexOfEquals(s[1..]);
      assert s[..i + 1] == [s[0]] + s[1..][..i];
      i + 1
  }

  predicate IsFlagLike(arg: string) { |arg| >= 2 && arg[0] == '-' }

  /** The name and, after the first equals sign, the value of a flag argument. */
  function Body(arg: string): string
    requires IsFlagLike(arg)
  {
    if arg[1] == '-' then arg[2..] else arg[1..]
  }

  /** FlagSet.parseOne. */
  function ParseOne(defs: Defs, args: seq<string>): (one: One)
    ensures one.Takes? ==> 1 <= one.n <= |args| && defs.accepts(one.setting.name, one.setting.value)
    ensures one.Rejects? ==> 1 <= one.n <= |args| && !defs.accepts(one.setting.name, one.setting.value)
    ensures one.Bad? ==> one.n <= |args|
  {
    if args == [] || !IsFlagLike(args[0]) then Stop
    else if args[0] == "--" then Terminator
    else
      var body := Body(args[0]);
      if body == "" || body[0] == '-' || body[0] == '=' then Bad(0)
      else
        var eq := IndexOfEquals(body);
        var name := body[..eq];
        if name in defs.bools then
          SetCall(defs, Setting(name, if eq < |body| then body[eq + 1..] else "true"), 1)
        else if name !in defs.values then Bad(1)
        else if eq < |body| then SetCall(defs, Setting(name, body[eq + 1..]), 1)
        else if |args| < 2 then Bad(1)
        else SetCall(defs, Setting(name, args[1]), 2)
  }

  function SetCall(defs: Defs, setting: Setting, n: nat): One {
    if defs.accepts(setting.name, setting.value) then Takes(setting, n) else Rejects(setting, n)
  }

  datatype Parsed = Parsed(settings: seq<Setting>, rest: seq<string>, ok: bool)

  /** FlagSet.Parse: takes flags until a positional or "--". */
  function Parse(defs: Defs, args: seq<string>): (p: Parsed)
    ensures |p.rest| <= |args|
    decreases |args|
  {
    match ParseOne(defs, args)
    case Stop => Parsed([], args, true)
    case Terminator => Parsed([], args[1..], true)
    case Rejects(setting, n) => Parsed([setting], args[n..], false)
    case Bad(n) => Parsed([], args[n..], false)
    case Takes(setting, n) =>
      var more := Parse(defs, args[n..]);
      Parsed([setting] + more.settings, more.rest, more.ok)
  }

  datatype Permuted = Permuted(settings: seq<Setting>, positionals: Option<seq<string>>)

  function Put(settings: seq<Setting>, positionals: seq<string>, p: Permuted): Permuted {
    Permuted(settings + p.settings, if p.positionals.None? then None else Some(positionals + p.positionals.value))
  }

  /** Parsing up to each positional in turn. */
  function Rounds(defs: Defs, args: seq<string>): (p: Permuted)
    decreases |args|
  {
    var parsed := Parse(defs, args);
    if !parsed.ok then Permuted(parsed.settings, None)
    else if parsed.rest == [] then Permuted(parsed.settings, Some([]))
    else Put(parsed.settings, [parsed.rest[0]], Rounds(defs, parsed.rest[1..]))
  }

  function FirstDashes(args: seq<string>): (k: nat)
    ensures k <= |args| && "--" !in args[..k] && (k < |args| ==> args[k] == "--")
  {
    if args == [] || args[0] == "--" then 0
    else
      var k := FirstDashes(args[1..]);
      assert args[..k + 1] == [args[0]] + args[1..][..k];
      k + 1
  }

  /** What the whole call leaves set and returns. */
  function Permute(defs: Defs, args: seq<string>): Permuted {
    var k := FirstDashes(args);
    var p := Rounds(defs, args[..k]);
    if k == |args| || p.positionals.None? then p
    else Permuted(p.settings, Some(p.positionals.value + args[k + 1..]))
  }

  class FlagSet {
    const defs: Defs
    var settings: seq<Setting>
    var rest: seq<string>

    constructor (defs: Defs)
      ensures this.defs == defs && settings == [] && rest == []
    {
      this.defs, settings, rest := defs, [], [];
    }

    /** Parse, one argument at a time; Set calls made before an error stay made, the
        failing one included. */
    method ParseArgs(args: seq<string>) returns (ok: bool)
      modifies this
      ensures settings == old(settings) + Parse(defs, args).settings
      ensures rest == Parse(defs, args).rest && ok == Parse(defs, args).ok
    {
      rest := args;
      while true
        invariant |rest| <= |args|
        invariant settings + Parse(defs, rest).settings == old(settings) + Parse(defs, args).settings
        invariant Parse(defs, rest).rest == Parse(defs, args).rest && Parse(defs, rest).ok == Parse(defs, args).ok
        decreases |rest|
      {
        match ParseOne(defs, rest)
        case Stop => return true;
        case Terminator =>
          rest := rest[1..];
          return true;
        case Rejects(setting, n) =>
          settings := settings + [setting];
          rest := rest[n..];
          return false;
        case Bad(n) =>
          rest := rest[n..];
          return false;
        case Takes(setting, n) =>
          assert settings + ([setting] + Parse(defs, rest[n..]).settings) == settings + [setting] + Parse(defs, rest[n..]).settings;
          settings := settings + [setting];
          rest := rest[n..];
      }
    }

    /** The rounds: every one drops at least the positional it stopped at. */
    method ParseRounds(args: seq<string>) returns (positionals: Option<seq<string>>)
      modifies this
      ensures settings == old(settings) + Rounds(defs, args).settings
      ensures positionals == Rounds(defs, args).positionals
    {
      var left, found: seq<string> := args, [];
      ghost var base, whole := settings, Rounds(defs, args);
      ghost var made: seq<Setting> := [];
      PutNothing(whole);
      positionals := None;
      var done := false;
      while !done
        invariant settings == base + made
        invariant !done ==> Put(made, found, Rounds(defs, left)) == whole
        invariant done ==> Permuted(made, positionals) == whole
        decreases !done, |left|
      {
        done, positionals, left, found, made := Round(left, found, base, made);
      }
    }

    /** One Parse, and the positional it stopped at. */
    method Round(left0: seq<string>, found0: seq<string>, ghost base: seq<Setting>, ghost made0: seq<Setting>)
      returns (done: bool, positionals: Option<seq<string>>, left: seq<string>, found: seq<string>, ghost made: seq<Setting>)
      requires settings == base + made0
      modifies this
      ensures settings == base + made
      ensures done ==> Permuted(made, positionals) == Put(made0, found0, Rounds(defs, left0))
      ensures !done ==> |left| < |left0| && Put(made, found, Rounds(defs, left)) == Put(made0, found0, Rounds(defs, left0))
    {
      ghost var round := Parse(defs, left0);
      RoundOf(defs, left0, round, made0, found0);
      Grouped(base, made0, round.settings);
      made, left, found, positionals := made0 + round.settings, left0, found0, None;
      var ok := ParseArgs(left0);
      done := !ok || rest == [];
      if ok && done { positionals := Some(found0); }
      if !done { left, found := rest[1..], found0 + [rest[0]]; }
    }

    /** parsePermuted. */
    method ParsePermuted(args: seq<string>) returns (positionals: Option<seq<string>>)
      modifies this
      ensures settings == old(settings) + Permute(defs, args).settings
      ensures positionals == Permute(defs, args).positionals
    {
      var k := FindDashes(args);
      positionals := ParseRounds(args[..k]);
      if k < |args| && positionals.Some? {
        positionals := Some(positionals.value + args[k + 1..]);
      }
    }
  }

  method FindDashes(args: seq<string>) returns (k: nat)
    ensures k == FirstDashes(args)
  {
    k := 0;
    while k < |args| && args[k] != "--"
      invariant k <= |args| && "--" !in args[..k]
    {
      assert args[..k + 1] == args[..k] + [args[k]];
      k := k + 1;
    }
    DashesAre(args, k);
  }

  lemma Grouped<T>(a: seq<T>, b: seq<T>, c: seq<T>)
    ensures a + b + c == a + (b + c)
  {
  }

  lemma RoundOf(defs: Defs, left: seq<string>, round: Parsed, made: seq<Setting>, found: seq<string>)
    requires round == Parse(defs, left)
    ensures Put(made, found, Rounds(defs, left)) ==
            if !round.ok then Permuted(made + round.settings, None)
            else if round.rest == [] then Permuted(made + round.settings, Some(found))
            else Put(made + round.settings, found + [round.rest[0]], Rounds(defs, round.rest[1..]))
    ensures round.rest != [] ==> |round.rest[1..]| < |left|
  {
    if round.ok && round.rest != [] {
      PutTwice(made, round.settings, found, [round.rest[0]], Rounds(defs, round.rest[1..]));
    } else {
      assert found + [] == found;
    }
  }

  lemma {:induction false} DashesAre(args: seq<string>, k: nat)
    requires k <= |args| && "--" !in args[..k] && (k < |args| ==> args[k] == "--")
    ensures FirstDashes(args) == k
  {
    var f := FirstDashes(args);
    assert forall i :: 0 <= i < k ==> args[i] in args[..k];
    assert forall i :: 0 <= i < f ==> args[i] in args[..f];
  }

  // ---- flag units and positionals

  /** A command line's pieces, before they are written out: -name or --name alone, with
      =value, with the value as the next argument, or a positional. */
  datatype Item =
    | Switch(name: string, twoDashes: bool)
    | Attached(name: string, value: string, twoDashes: bool)
    | Separate(name: string, value: string, twoDashes: bool)
    | Positional(arg: string)

  predicate IsName(name: string) { name != "" && name[0] != '-' && '=' !in name }

  predicate WellFormed(defs: Defs, item: Item) {
    match item
    case Switch(name, _) => IsName(name) && name in defs.bools && defs.accepts(name, "true")
    case Attached(name, value, _) => IsName(name) && (name in defs.bools || name in defs.values) && defs.accepts(name, value)
    case Separate(name, value, _) => IsName(name) && name !in defs.bools && name in defs.values && defs.accepts(name, value)
    case Positional(arg) => !IsFlagLike(arg)
  }

  function Dashed(name: string, twoDashes: bool): string {
    (if twoDashes then "--" else "-") + name
  }

  function Written(item: Item): (args: seq<string>)
    ensures |args| >= 1
  {
    match item
    case Switch(name, two) => [Dashed(name, two)]
    case Attached(name, value, two) => [Dashed(name, two) + "=" + value]
    case Separate(name, value, two) => [Dashed(name, two), value]
    case Positional(arg) => [arg]
  }

  function WrittenAll(items: seq<Item>): seq<string> {
    if items == [] then [] else Written(items[0]) + WrittenAll(items[1..])
  }

  function SettingOf(item: Item): seq<Setting> {
    match item
    case Switch(name, _) => [Setting(name, "true")]
    case Attached(name, value, _) => [Setting(name, value)]
    case Separate(name, value, _) => [Setting(name, value)]
    case Positional(_) => []
  }

  function Settings(items: seq<Item>): seq<Setting> {
    if items == [] then [] else SettingOf(items[0]) + Settings(items[1..])
  }

  function Positionals(items: seq<Item>): seq<string> {
    if items == [] then []
    else (if items[0].Positional? then [items[0].arg] else []) + Positionals(items[1..])
  }

  function Units(items: seq<Item>): seq<Item> {
    if items == [] then [] else (if items[0].Positional? then [] else [items[0]]) + Units(items[1..])
  }

  predicate AllWellFormed(defs: Defs, items: seq<Item>) {
    forall i :: 0 <= i < |items| ==> WellFormed(defs, items[i])
  }

  /** The one value that breaks the promise: a separate "--". */
  predicate DashesValue(item: Item) { item.Separate? && item.value == "--" }

  lemma EqualsAt(name: string, rest: string)
    requires '=' !in name
    ensures IndexOfEquals(name + rest) >= |name|
    ensures rest == "" || rest[0] == '=' ==> IndexOfEquals(name + rest) == |name|
  {
    var s := name + rest;
    var i := IndexOfEquals(s);
    assert forall k :: 0 <= k < |name| ==> s[k] == name[k];
    if rest != "" && rest[0] == '=' {
      assert s[|name|] == '=';
      assert forall k :: |name| < k <= |s| ==> s[..k][|name|] == '=';
    }
  }

  lemma BodyOf(name: string, rest: string, two: bool)
    requires IsName(name)
    ensures IsFlagLike(Dashed(name, two) + rest) && Dashed(name, two) + rest != "--"
    ensures Body(Dashed(name, two) + rest) == name + rest
  {
    var arg := Dashed(name, two) + rest;
    if two {
      assert arg[1] == '-' && |arg| > 2;
    } else {
      assert arg[1] == name[0];
    }
  }

  lemma TakesBare(defs: Defs, name: string, two: bool, rest: seq<string>)
    requires IsName(name)
    ensures var args := [Dashed(name, two)] + rest;
            ParseOne(defs, args) ==
            if name in defs.bools then SetCall(defs, Setting(name, "true"), 1)
            else if name !in defs.values || rest == [] then Bad(1)
            else SetCall(defs, Setting(name, rest[0]), 2)
  {
    BodyOf(name, "", two);
    EqualsAt(name, "");
    assert Dashed(name, two) + "" == Dashed(name, two) && name + "" == name;
  }

  lemma TakesAttached(defs: Defs, name: string, value: string, two: bool, rest: seq<string>)
    requires IsName(name) && (name in defs.bools || name in defs.values)
    ensures ParseOne(defs, [Dashed(name, two) + "=" + value] + rest) == SetCall(defs, Setting(name, value), 1)
  {
    BodyOf(name, "=" + value, two);
    EqualsAt(name, "=" + value);
    assert Dashed(name, two) + "=" + value == Dashed(name, two) + ("=" + value);
    var body := name + ("=" + value);
    assert body[..|name|] == name && body[|name| + 1..] == value;
  }

  /** A well-formed unit is taken whole, whatever follows it. */
  lemma TakesUnit(defs: Defs, item: Item, rest: seq<string>)
    requires WellFormed(defs, item) && !item.Positional?
    ensures SettingOf(item) != []
    ensures ParseOne(defs, Written(item) + rest) == Takes(SettingOf(item)[0], |Written(item)|)
  {
    match item
    case Switch(name, two) => TakesBare(defs, name, two, rest);
    case Attached(name, value, two) => TakesAttached(defs, name, value, two, rest);
    case Separate(name, value, two) =>
      assert Written(item) + rest == [Dashed(name, two)] + ([value] + rest);
      TakesBare(defs, name, two, [value] + rest);
  }

  /** A flag argument is its dashes and its body. */
  lemma DashesAndBody(arg: string)
    requires IsFlagLike(arg)
    ensures arg == Dashed(Body(arg), arg[1] == '-')
  {
  }

  /** What is taken starts with a well-formed unit. */
  lemma TakenIsAUnit(defs: Defs, args: seq<string>)
    requires ParseOne(defs, args).Takes?
    ensures exists item: Item, rest: seq<string> :: !item.Positional? && WellFormed(defs, item) && args == Written(item) + rest
  {
    var arg, two, body := args[0], args[0][1] == '-', Body(args[0]);
    DashesAndBody(arg);
    var eq := IndexOfEquals(body);
    var name := body[..eq];
    var one := ParseOne(defs, args);
    assert args == [arg] + args[1..];
    if eq < |body| {
      var item := Attached(name, body[eq + 1..], two);
      assert arg == Dashed(name, two) + "=" + body[eq + 1..];
      assert WellFormed(defs, item) && args == Written(item) + args[1..];
    } else if name in defs.bools {
      assert body == name;
      assert WellFormed(defs, Switch(name, two)) && args == Written(Switch(name, two)) + args[1..];
    } else {
      assert body == name && args[1..] == [args[1]] + args[2..];
      var item := Separate(name, args[1], two);
      assert WellFormed(defs, item) && args == Written(item) + args[2..];
    }
  }

  /** One argument's parse: it stops before a positional or at the end, ends at "--", takes
      exactly what starts with a well-formed unit, and fails on anything else. */
  lemma ParseOneIff(defs: Defs, args: seq<string>)
    ensures ParseOne(defs, args).Stop? <==> args == [] || WellFormed(defs, Positional(args[0]))
    ensures ParseOne(defs, args).Terminator? <==> args != [] && args[0] == "--"
    ensures ParseOne(defs, args).Takes? <==>
            exists item: Item, rest: seq<string> :: !item.Positional? && WellFormed(defs, item) && args == Written(item) + rest
  {
    if ParseOne(defs, args).Takes? { TakenIsAUnit(defs, args); }
    if item: Item, rest: seq<string> :| !item.Positional? && WellFormed(defs, item) && args == Written(item) + rest {
      TakesUnit(defs, item, rest);
    }
  }

  lemma RoundsTakesItem(defs: Defs, item: Item, rest: seq<string>)
    requires WellFormed(defs, item)
    ensures Rounds(defs, Written(item) + rest) ==
            Put(SettingOf(item), if item.Positional? then [item.arg] else [], Rounds(defs, rest))
  {
    var args := Written(item) + rest;
    if item.Positional? {
      assert Parse(defs, args) == Parsed([], args, true);
      assert args[0] == item.arg && args[1..] == rest;
    } else {
      TakesUnit(defs, item, rest);
      assert args[|Written(item)|..] == rest;
      var parsed := Parse(defs, rest);
      assert Parse(defs, args) == Parsed(SettingOf(item) + parsed.settings, parsed.rest, parsed.ok);
      if parsed.ok && parsed.rest != [] {
        PutTwice(SettingOf(item), parsed.settings, [], [parsed.rest[0]], Rounds(defs, parsed.rest[1..]));
        assert [] + [parsed.rest[0]] == [parsed.rest[0]];
      } else if parsed.ok {
        var none: seq<string> := [];
        assert none + none == none;
      }
    }
  }

  lemma PutTwice(a: seq<Setting>, b: seq<Setting>, x: seq<string>, y: seq<string>, p: Permuted)
    ensures Put(a, x, Put(b, y, p)) == Put(a + b, x + y, p)
  {
    assert a + b + p.settings == a + (b + p.settings);
    if p.positionals.Some? {
      assert x + y + p.positionals.value == x + (y + p.positionals.value);
    }
  }

  lemma PutNothing(p: Permuted)
    ensures Put([], [], p) == p
  {
    if p.positionals.Some? { assert [] + p.positionals.value == p.positionals.value; }
  }

  lemma {:induction false} RoundsTakesItems(defs: Defs, items: seq<Item>, rest: seq<string>)
    requires AllWellFormed(defs, items)
    ensures Rounds(defs, WrittenAll(items) + rest) == Put(Settings(items), Positionals(items), Rounds(defs, rest))
  {
    if items == [] {
      assert WrittenAll(items) + rest == rest;
      PutNothing(Rounds(defs, rest));
    } else {
      assert WrittenAll(items) + rest == Written(items[0]) + (WrittenAll(items[1..]) + rest);
      RoundsTakesItem(defs, items[0], WrittenAll(items[1..]) + rest);
      RoundsTakesItems(defs, items[1..], rest);
      PutTwice(SettingOf(items[0]), Settings(items[1..]),
               if items[0].Positional? then [items[0].arg] else [], Positionals(items[1..]), Rounds(defs, rest));
    }
  }

  lemma NoDashesWritten(defs: Defs, item: Item)
    requires WellFormed(defs, item)
    ensures "--" in Written(item) <==> DashesValue(item)
    ensures Written(item)[0] != "--"
  {
    match item
    case Switch(name, two) =>
      BodyOf(name, "", two);
      assert Dashed(name, two) + "" == Dashed(name, two);
    case Attached(name, value, two) =>
      BodyOf(name, "=" + value, two);
      assert Dashed(name, two) + "=" + value == Dashed(name, two) + ("=" + value);
    case Separate(name, value, two) =>
      BodyOf(name, "", two);
      assert Dashed(name, two) + "" == Dashed(name, two);
    case Positional(_) =>
  }

  lemma {:induction false} NoDashesAnywhere(defs: Defs, items: seq<Item>)
    requires AllWellFormed(defs, items) && forall i :: 0 <= i < |items| ==> !DashesValue(items[i])
    ensures "--" !in WrittenAll(items)
  {
    if items != [] {
      NoDashesWritten(defs, items[0]);
      NoDashesAnywhere(defs, items[1..]);
    }
  }

  /** A command line: the items, and after a "--" anything at all. */
  function Line(items: seq<Item>, trailing: Option<seq<string>>): seq<string> {
    WrittenAll(items) + if trailing.Some? then ["--"] + trailing.value else []
  }

  function Intended(items: seq<Item>, trailing: Option<seq<string>>): Permuted {
    Permuted(Settings(items), Some(Positionals(items) + if trailing.Some? then trailing.value else []))
  }

  lemma LineIsCut(defs: Defs, items: seq<Item>, trailing: Option<seq<string>>)
    requires AllWellFormed(defs, items) && forall i :: 0 <= i < |items| ==> !DashesValue(items[i])
    ensures var args, k := Line(items, trailing), FirstDashes(Line(items, trailing));
            args[..k] == WrittenAll(items) && (k == |args| <==> trailing.None?) &&
            (trailing.Some? ==> args[k + 1..] == trailing.value)
  {
    var args, k := Line(items, trailing), |WrittenAll(items)|;
    NoDashesAnywhere(defs, items);
    assert args[..k] == WrittenAll(items);
    DashesAre(args, k);
  }

  lemma RoundsOfWritten(defs: Defs, items: seq<Item>)
    requires AllWellFormed(defs, items)
    ensures Rounds(defs, WrittenAll(items)) == Permuted(Settings(items), Some(Positionals(items)))
  {
    RoundsTakesItems(defs, items, []);
    assert WrittenAll(items) + [] == WrittenAll(items);
    assert Rounds(defs, []) == Permuted([], Some([]));
    assert Settings(items) + [] == Settings(items) && Positionals(items) + [] == Positionals(items);
  }

  lemma ReadsAsIntended(defs: Defs, items: seq<Item>, trailing: Option<seq<string>>)
    requires AllWellFormed(defs, items) && forall i :: 0 <= i < |items| ==> !DashesValue(items[i])
    ensures Permute(defs, Line(items, trailing)) == Intended(items, trailing)
  {
    LineIsCut(defs, items, trailing);
    RoundsOfWritten(defs, items);
    if trailing.None? { assert Positionals(items) + [] == Positionals(items); }
  }

  lemma {:induction false} WrittenAppend(a: seq<Item>, b: seq<Item>)
    ensures WrittenAll(a + b) == WrittenAll(a) + WrittenAll(b)
  {
    if a == [] {
      assert a + b == b;
    } else {
      assert (a + b)[1..] == a[1..] + b;
      WrittenAppend(a[1..], b);
    }
  }

  lemma WrittenAround(items: seq<Item>, i: nat)
    requires i < |items|
    ensures WrittenAll(items) == WrittenAll(items[..i]) + (Written(items[i]) + WrittenAll(items[i + 1..]))
  {
    assert items == items[..i] + items[i..];
    assert items[i..][0] == items[i] && items[i..][1..] == items[i + 1..];
    WrittenAppend(items[..i], items[i..]);
  }

  lemma LineIsCutAtTheValue(defs: Defs, items: seq<Item>, trailing: Option<seq<string>>, i: nat)
    requires AllWellFormed(defs, items) && i < |items| && DashesValue(items[i])
    requires forall j :: 0 <= j < i ==> !DashesValue(items[j])
    ensures var args, k := Line(items, trailing), FirstDashes(Line(items, trailing));
            k < |args| && args[..k] == WrittenAll(items[..i]) + [Dashed(items[i].name, items[i].twoDashes)]
  {
    var args, before, flag := Line(items, trailing), WrittenAll(items[..i]), Dashed(items[i].name, items[i].twoDashes);
    NoDashesAnywhere(defs, items[..i]);
    NoDashesWritten(defs, items[i]);
    WrittenAround(items, i);
    assert before + [flag] <= args && args[|before| + 1] == "--";
    DashesAre(args, |before| + 1);
  }

  /** A separate value "--" is taken for the end of the flags, and its flag left without a
      value: the call fails, with only the settings before it made. */
  lemma DashesValueFails(defs: Defs, items: seq<Item>, trailing: Option<seq<string>>, i: nat)
    requires AllWellFormed(defs, items) && i < |items| && DashesValue(items[i])
    requires forall j :: 0 <= j < i ==> !DashesValue(items[j])
    ensures Permute(defs, Line(items, trailing)) == Permuted(Settings(items[..i]), None)
  {
    var flag := Dashed(items[i].name, items[i].twoDashes);
    LineIsCutAtTheValue(defs, items, trailing, i);
    RoundsTakesItems(defs, items[..i], [flag]);
    LoneFlagFails(defs, items[i].name, items[i].twoDashes);
    assert Settings(items[..i]) + [] == Settings(items[..i]);
  }

  lemma LoneFlagFails(defs: Defs, name: string, two: bool)
    requires IsName(name) && name !in defs.bools && name in defs.values
    ensures Rounds(defs, [Dashed(name, two)]) == Permuted([], None)
  {
    TakesBare(defs, name, two, []);
    assert [Dashed(name, two)] + [] == [Dashed(name, two)];
  }

  /** An argument that fails the parse ends the call with nothing returned, and only the Set
      calls made up to it. */
  lemma FailingArgumentFails(defs: Defs, items: seq<Item>, args: seq<string>)
    requires AllWellFormed(defs, items) && (ParseOne(defs, args).Bad? || ParseOne(defs, args).Rejects?)
    ensures Rounds(defs, WrittenAll(items) + args) ==
            Permuted(Settings(items) + if ParseOne(defs, args).Rejects? then [ParseOne(defs, args).setting] else [], None)
  {
    RoundsTakesItems(defs, items, args);
  }

  /** An unknown flag, a bad one, and a value its flag refuses are such arguments. */
  lemma WhatFails(defs: Defs, name: string, value: string, two: bool, rest: seq<string>)
    requires IsName(name)
    ensures name !in defs.bools && name !in defs.values ==> ParseOne(defs, [Dashed(name, two)] + rest) == Bad(1)
    ensures name !in defs.bools && name in defs.values && !defs.accepts(name, value) ==>
              ParseOne(defs, [Dashed(name, two), value] + rest) == Rejects(Setting(name, value), 2)
    ensures (name in defs.bools || name in defs.values) && !defs.accepts(name, value) ==>
              ParseOne(defs, [Dashed(name, two) + "=" + value] + rest) == Rejects(Setting(name, value), 1)
    ensures name in defs.bools && !defs.accepts(name, "true") ==>
              ParseOne(defs, [Dashed(name, two)] + rest) == Rejects(Setting(name, "true"), 1)
    ensures ParseOne(defs, ["---"] + rest) == ParseOne(defs, ["-="] + rest) == Bad(0)
  {
    TakesBare(defs, name, two, rest);
    TakesBare(defs, name, two, [value] + rest);
    assert [Dashed(name, two), value] + rest == [Dashed(name, two)] + ([value] + rest);
    if name in defs.bools || name in defs.values { TakesAttached(defs, name, value, two, rest); }
    assert (["---"] + rest)[0] == "---" && Body("---") == "-";
    assert (["-="] + rest)[0] == "-=" && Body("-=") == "=";
  }

  /** A lone dash, like anything that does not start with one, is a positional. */
  lemma LoneDashIsPositional(defs: Defs, rest: seq<string>)
    ensures ParseOne(defs, ["-"] + rest) == ParseOne(defs, [""] + rest) == ParseOne(defs, ["x-"] + rest) == Stop
  {
    assert (["-"] + rest)[0] == "-" && ([""] + rest)[0] == "" && (["x-"] + rest)[0] == "x-";
  }

  /** A whole command line with such an argument, and no "--" before it, is refused. */
  lemma RefusedLine(defs: Defs, items: seq<Item>, args: seq<string>)
    requires AllWellFormed(defs, items) && (forall i :: 0 <= i < |items| ==> !DashesValue(items[i]))
    requires "--" !in args && (ParseOne(defs, args).Bad? || ParseOne(defs, args).Rejects?)
    ensures Permute(defs, WrittenAll(items) + args).positionals.None?
  {
    NoDashesAnywhere(defs, items);
    PermuteUncut(defs, WrittenAll(items) + args);
    FailingArgumentFails(defs, items, args);
  }

  lemma PermuteUncut(defs: Defs, line: seq<string>)
    requires "--" !in line
    ensures Permute(defs, line) == Rounds(defs, line)
  {
    assert line[..|line|] == line;
    DashesAre(line, |line|);
  }

  lemma {:induction false} FirstDashesValue(items: seq<Item>, k: nat)
    requires k < |items| && DashesValue(items[k])
    ensures exists i :: 0 <= i < |items| && DashesValue(items[i]) && forall j :: 0 <= j < i ==> !DashesValue(items[j])
    decreases k
  {
    if j :| 0 <= j < k && DashesValue(items[j]) { FirstDashesValue(items, j); }
  }

  /** Any interleaving of flag units and positionals, and anything after a "--", is read as
      intended exactly when no flag's separate value is "--". */
  lemma ReadAsIntendedIff(defs: Defs, items: seq<Item>, trailing: Option<seq<string>>)
    requires AllWellFormed(defs, items)
    ensures Permute(defs, Line(items, trailing)) == Intended(items, trailing) <==>
            forall i :: 0 <= i < |items| ==> !DashesValue(items[i])
  {
    if k :| 0 <= k < |items| && DashesValue(items[k]) {
      FirstDashesValue(items, k);
      var i :| 0 <= i < |items| && DashesValue(items[i]) && forall j :: 0 <= j < i ==> !DashesValue(items[j]);
      DashesValueFails(defs, items, trailing, i);
    } else {
      ReadsAsIntended(defs, items, trailing);
    }
  }

  lemma {:induction false} UnitsOf(defs: Defs, items: seq<Item>)
    requires AllWellFormed(defs, items)
    ensures AllWellFormed(defs, Units(items)) && Settings(Units(items)) == Settings(items) && Positionals(Units(items)) == []
  {
    if items != [] {
      UnitsOf(defs, items[1..]);
      var units := Units(items[1..]);
      if !items[0].Positional? {
        assert Units(items) == [items[0]] + units && Units(items)[1..] == units;
        assert forall i :: 0 < i < |Units(items)| ==> Units(items)[i] == units[i - 1];
      } else {
        assert Units(items) == units;
      }
    }
  }

  /** Parsing a run of units alone takes them all. */
  lemma {:induction false} ParseTakesUnits(defs: Defs, units: seq<Item>)
    requires AllWellFormed(defs, units) && forall i :: 0 <= i < |units| ==> !units[i].Positional?
    ensures Parse(defs, WrittenAll(units)) == Parsed(Settings(units), [], true)
  {
    if units != [] {
      TakesUnit(defs, units[0], WrittenAll(units[1..]));
      assert WrittenAll(units)[|Written(units[0])|..] == WrittenAll(units[1..]);
      ParseTakesUnits(defs, units[1..]);
    }
  }

  /** The flag state is that of the flag package parsing the units alone, in order. */
  lemma SameAsUnitsAlone(defs: Defs, items: seq<Item>, trailing: Option<seq<string>>)
    requires AllWellFormed(defs, items) && forall i :: 0 <= i < |items| ==> !DashesValue(items[i])
    ensures Permute(defs, Line(items, trailing)).settings == Parse(defs, WrittenAll(Units(items))).settings
  {
    ReadsAsIntended(defs, items, trailing);
    UnitsOf(defs, items);
    NoPositionalUnits(items);
    ParseTakesUnits(defs, Units(items));
  }

  lemma {:induction false} NoPositionalUnits(items: seq<Item>)
    ensures forall i :: 0 <= i < |Units(items)| ==> !Units(items)[i].Positional?
  {
    if items != [] { NoPositionalUnits(items[1..]); }
  }

  /** "-m" with the message "--" as the next argument: the call fails with nothing set. */
  lemma DashesMessageIsLost()
    ensures var defs, items := Defs({}, {"m"}, (_, _) => true), [Separate("m", "--", false)];
            AllWellFormed(defs, items) && Line(items, None) == ["-m", "--"] &&
            Permute(defs, ["-m", "--"]) == Permuted([], None) &&
            Intended(items, None) == Permuted([Setting("m", "--")], Some([]))
  {
    var defs, items := Defs({}, {"m"}, (_, _) => true), [Separate("m", "--", false)];
    assert items[1..] == [] && items[..0] == [];
    assert Dashed("m", false) == "-m";
    assert WrittenAll(items) == ["-m", "--"] + WrittenAll([]);
    assert Line(items, None) == ["-m", "--"];
    assert Settings(items) == [Setting("m", "--")] + Settings([]);
    assert Positionals(items) == [] + Positionals([]);
    DashesValueFails(defs, items, None, 0);
  }
}
