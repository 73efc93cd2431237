/** Command-line flag parsing and the typed getters over an optional string
    (src/lib/parser.ts). A value is `Option<string>`: `None` is `undefined`. */
module Parser {
  import opened Common

  /** The value a flag gets when it has no `=value` part, or an empty one. */
  const DEFAULT_ENV_FILE := "./.env"

  /** An argument that `parseFlags` looks at. */
  predicate IsFlag(arg: string) {
    StartsWith(arg, "--")
  }

  /** The flag's name: the text after `--` up to the first `=`. */
  function FlagName(arg: string): string
    requires IsFlag(arg)
  {
    assert arg[0] == '-' && arg[1] == '-';
    match IndexOf(arg, '=')
    case None => arg[2..]
    case Some(i) => arg[2..i]
  }

  /** The flag's value: the text between the first and the second `=`, or the
      default env file when that text is missing or empty. */
  function FlagValue(arg: string): string
  {
    match IndexOf(arg, '=')
    case None => DEFAULT_ENV_FILE
    case Some(i) =>
      var after := arg[i + 1..];
      var v := match IndexOf(after, '=')
        case None => after
        case Some(j) => after[..j];
      if v == "" then DEFAULT_ENV_FILE else v
  }

  /** The dictionary `parseFlags(argv)` builds: each flag, left to right,
      writes its value under its name. */
  function Flags(argv: seq<string>): map<string, string>
  {
    if argv == [] then map[]
    else
      var arg := argv[|argv| - 1];
      var before := Flags(argv[..|argv| - 1]);
      if IsFlag(arg) then before[FlagName(arg) := FlagValue(arg)] else before
  }

  /** What destructuring `arg.split('=')` into `[flag, value]` yields agrees with
      FlagName and FlagValue. */
  lemma SplitFlag(arg: string)
    requires IsFlag(arg)
    ensures var parts := Split(arg, '=');
      |parts[0]| >= 2 && parts[0][2..] == FlagName(arg)
      && (if |parts| > 1 && parts[1] != "" then parts[1] else DEFAULT_ENV_FILE) == FlagValue(arg)
  {
    assert arg[0] == '-' && arg[1] == '-';
    SplitHead(arg, '=');
    match IndexOf(arg, '=')
    case None =>
    case Some(i) =>
      SplitHead(arg[i + 1..], '=');
  }

  /** parseFlags (src/lib/parser.ts): the loop over `argv` filling `flags`. */
  method ParseFlags(argv: seq<string>) returns (flags: map<string, string>)
    ensures flags == Flags(argv)
  {
    flags := map[];
    for n := 0 to |argv|
      invariant flags == Flags(argv[..n])
    {
      var arg := argv[n];
      assert argv[..n + 1][..n] == argv[..n];
      if StartsWith(arg, "--") {
        var parts := Split(arg, '=');
        SplitFlag(arg);
        var flag := parts[0];
        var value: Option<string> := if |parts| > 1 then Some(parts[1]) else None;
        var flagName := flag[2..];
        flags := flags[flagName := if value.Some? && value.value != "" then value.value else DEFAULT_ENV_FILE];
      }
    }
    assert argv[..|argv|] == argv;
  }

  /** The keys of the result are exactly the names of the `--` arguments. */
  lemma {:induction false} FlagsKeys(argv: seq<string>)
    ensures Flags(argv).Keys == set a | a in argv && IsFlag(a) :: FlagName(a)
  {
    if argv != [] {
      var init, last := argv[..|argv| - 1], argv[|argv| - 1];
      FlagsKeys(init);
      assert argv == init + [last];
      var names := set a | a in argv && IsFlag(a) :: FlagName(a);
      var initNames := set a | a in init && IsFlag(a) :: FlagName(a);
      if IsFlag(last) {
        assert names == initNames + {FlagName(last)};
      } else {
        assert names == initNames;
      }
    }
  }

  /** A flag that no later flag of the same name follows decides that name's value:
      a repeated flag keeps its last value. */
  lemma {:induction false} FlagsLastWins(argv: seq<string>, i: nat)
    requires i < |argv| && IsFlag(argv[i])
    requires forall j :: i < j < |argv| && IsFlag(argv[j]) ==> FlagName(argv[j]) != FlagName(argv[i])
    ensures FlagName(argv[i]) in Flags(argv)
    ensures Flags(argv)[FlagName(argv[i])] == FlagValue(argv[i])
  {
    var init := argv[..|argv| - 1];
    if i < |argv| - 1 {
      FlagsLastWins(init, i);
    }
  }

  /** An argument that does not start with `--` has no effect, wherever it stands. */
  lemma {:induction false} FlagsIgnoreNonFlag(xs: seq<string>, a: string, ys: seq<string>)
    requires !IsFlag(a)
    ensures Flags(xs + [a] + ys) == Flags(xs + ys)
    decreases |ys|
  {
    if ys == [] {
      assert xs + [a] + ys == xs + [a];
      assert (xs + [a])[..|xs + [a]| - 1] == xs;
      assert xs + ys == xs;
    } else {
      var ys' := ys[..|ys| - 1];
      FlagsIgnoreNonFlag(xs, a, ys');
      assert (xs + [a] + ys)[..|xs + [a] + ys| - 1] == xs + [a] + ys';
      assert (xs + ys)[..|xs + ys| - 1] == xs + ys';
    }
  }

  /** A flag without `=`, or with an empty value, maps to the default env file. */
  lemma FlagWithoutValue(bare: string, empty: string)
    requires bare == "--env" && empty == "--env="
    ensures Flags([bare]) == map["env" := DEFAULT_ENV_FILE]
    ensures Flags([empty]) == map["env" := DEFAULT_ENV_FILE]
  {
    FlagsSingle(bare);
    FlagsSingle(empty);
    assert bare[..2] == "--" && empty[..2] == "--";
    assert IndexOf(bare, '=') == None;
    assert IndexOf(empty, '=') == Some(5) by {
      assert empty[5] == '=' && '=' !in empty[..5];
    }
    assert FlagName(bare) == bare[2..] == "env";
    assert FlagName(empty) == empty[2..5] == "env";
    assert empty[6..] == "" && IndexOf("", '=') == None;
    assert FlagValue(empty) == DEFAULT_ENV_FILE;
  }

  /** Text after a second `=` is dropped. */
  lemma FlagSecondEquals(arg: string)
    requires arg == "--a=b=c"
    ensures Flags([arg]) == map["a" := "b"]
  {
    FlagsSingle(arg);
    assert arg[..2] == "--";
    assert IndexOf(arg, '=') == Some(3) by {
      assert arg[3] == '=' && '=' !in arg[..3];
    }
    var after := arg[4..];
    assert after == "b=c";
    assert IndexOf(after, '=') == Some(1) by {
      assert after[1] == '=' && '=' !in after[..1];
    }
    assert after[..1] == "b";
    assert FlagName(arg) == arg[2..3] == "a";
    assert FlagValue(arg) == "b";
  }

  /** A plain argument is skipped. */
  lemma FlagAfterPlainArgument(argv: seq<string>)
    requires argv == ["serve", "--port=1"]
    ensures Flags(argv) == map["port" := "1"]
  {
    var before := ["serve"];
    assert argv == before + ["--port=1"];
    assert Flags(before) == map[] by {
      PlainArgumentAlone();
    }
    assert Flags(argv) == Flags(before)["port" := "1"] by {
      PortFlag("--port=1", "1");
      FlagsSnoc(before, "--port=1");
    }
  }

  lemma PlainArgumentAlone()
    ensures Flags(["serve"]) == map[]
  {
    FlagsSingle("serve");
    assert !IsFlag("serve") by { assert "serve"[..2][0] == 's'; }
  }

  /** A repeated flag keeps its last value. */
  lemma FlagRepeated(argv: seq<string>)
    requires argv == ["serve", "--port=1", "--port=2"]
    ensures Flags(argv) == map["port" := "2"]
  {
    var before := ["serve", "--port=1"];
    calc {
      Flags(argv);
      { SecondPortFlag(argv, before); }
      Flags(before)["port" := "2"];
      { FlagAfterPlainArgument(before); }
      map["port" := "1"]["port" := "2"];
      map["port" := "2"];
    }
  }

  lemma SecondPortFlag(argv: seq<string>, before: seq<string>)
    requires before == ["serve", "--port=1"] && argv == before + ["--port=2"]
    ensures Flags(argv) == Flags(before)["port" := "2"]
  {
    PortFlag("--port=2", "2");
    FlagsSnoc(before, "--port=2");
  }

  /** A one-argument command line. */
  lemma FlagsSingle(arg: string)
    ensures Flags([arg]) == if IsFlag(arg) then map[FlagName(arg) := FlagValue(arg)] else map[]
  {
    FlagsSnoc([], arg);
    assert [] + [arg] == [arg];
  }

  /** Appending one argument updates the dictionary by that argument alone. */
  lemma FlagsSnoc(argv: seq<string>, arg: string)
    ensures Flags(argv + [arg]) == if IsFlag(arg) then Flags(argv)[FlagName(arg) := FlagValue(arg)] else Flags(argv)
  {
    assert (argv + [arg])[..|argv|] == argv;
  }

  lemma PortFlag(arg: string, v: string)
    requires arg == "--port=" + v && |v| == 1 && v != "=" && v != ""
    ensures IsFlag(arg) && FlagName(arg) == "port" && FlagValue(arg) == v
  {
    assert arg[..2] == "--";
    assert IndexOf(arg, '=') == Some(6) by {
      assert arg[6] == '=' && '=' !in arg[..6];
    }
    assert arg[7..] == v;
    assert IndexOf(v, '=') == None;
  }

  /** JavaScript truthiness of an optional string: it exists and is not empty. */
  predicate Present(v: Option<string>) {
    v.Some? && v.value != ""
  }

  /** The result of `Number(text)`: the value of a decimal-digit string; any other
      text is kept uninterpreted. */
  datatype Num = Int(n: int) | NonDecimal(text: string)

  function JsNumber(text: string): Num {
    if IsDecimal(text) then Int(DecimalValue(text)) else NonDecimal(text)
  }

  /** parse(value).toString(defaults) */
  function ToString(value: Option<string>, defaults: Option<string>): (r: string)
    ensures r == if Present(value) then value.value else defaults.GetOr("")
  {
    if Present(value) then value.value
    else if !Present(value) && Present(defaults) then defaults.value
    else ""
  }

  /** parse(value).toBoolean(defaults) */
  function ToBoolean(value: Option<string>, defaults: Option<bool>): (r: bool)
    ensures Present(value) ==> (r <==> value.value == "true")
    ensures !Present(value) ==> r == defaults.GetOr(false)
  {
    if Present(value) then value.value == "true"
    else if !Present(value) && defaults == Some(true) then true
    else false
  }

  /** parse(value).toNumber(defaults) */
  function ToNumber(value: Option<string>, defaults: Option<int>): (r: Num)
    ensures Present(value) && IsDecimal(value.value) ==> r == Int(DecimalValue(value.value))
    ensures Present(value) && !IsDecimal(value.value) ==> r == NonDecimal(value.value)
    ensures !Present(value) ==> r == Int(defaults.GetOr(0))
  {
    if Present(value) then JsNumber(value.value)
    else if !Present(value) && defaults.Some? && defaults.value != 0 then Int(defaults.value)
    else Int(0)
  }

  /** parse(value).toUnion(defaults): the value taken as one of a union of string
      literals. */
  function ToUnion(value: Option<string>, defaults: Option<string>): (r: string)
    ensures Present(value) ==> r == value.value
    ensures !Present(value) ==> r == defaults.GetOr("")
  {
    if Present(value) then value.value
    else if !Present(value) && Present(defaults) then defaults.value
    else ""
  }

  /** An empty value behaves exactly like a missing one, in every getter. */
  lemma EmptyIsMissing(ds: Option<string>, db: Option<bool>, dn: Option<int>)
    ensures ToString(Some(""), ds) == ToString(None, ds)
    ensures ToBoolean(Some(""), db) == ToBoolean(None, db)
    ensures ToNumber(Some(""), dn) == ToNumber(None, dn)
    ensures ToUnion(Some(""), ds) == ToUnion(None, ds)
  {
  }

  /** A non-empty value other than exactly `'true'` is false, whatever the default. */
  lemma BooleanIgnoresDefault(v: string, d: Option<bool>)
    requires v != ""
    ensures ToBoolean(Some(v), d) == (v == "true")
    ensures ToBoolean(Some("TRUE"), d) == false && ToBoolean(Some("1"), d) == false
  {
  }

  /** A number written with `String(n)` is read back as n by toNumber. */
  lemma NumberRoundTrip(n: nat, d: Option<int>)
    ensures ToNumber(Some(NatToString(n)), d) == Int(n)
  {
    DecimalValueOfNatToString(n);
  }
}
