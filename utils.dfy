/** The second copy of flag parsing and the getters (src/lib/utils.ts). Every
    member is proved to agree with its counterpart in Parser. */
module Utils {
  import opened Common
  import Parser

  /** parseFlags (src/lib/utils.ts), the same loop as in the parser module. */
  method ParseFlags(argv: seq<string>) returns (flags: map<string, string>)
    ensures flags == Parser.Flags(argv)
  {
    flags := map[];
    var n := 0;
    while n < |argv|
      invariant n <= |argv|
      invariant flags == Parser.Flags(argv[..n])
    {
      var arg := argv[n];
      assert argv[..n + 1][..n] == argv[..n];
      if StartsWith(arg, "--") {
        var parts := Split(arg, '=');
        Parser.SplitFlag(arg);
        var flag, value := parts[0], if |parts| > 1 then Some(parts[1]) else None;
        flags := flags[flag[2..] := if value.Some? && value.value != "" then value.value else "./.env"];
      }
      n := n + 1;
    }
    assert argv[..|argv|] == argv;
  }

  /** parse(value).toString(defaults) in src/lib/utils.ts */
  function ToString(value: Option<string>, defaults: Option<string>): (r: string)
    ensures r == Parser.ToString(value, defaults)
  {
    if value.Some? && value.value != "" then value.value
    else if defaults.Some? && defaults.value != "" then defaults.value
    else ""
  }

  /** parse(value).toBoolean(defaults) in src/lib/utils.ts */
  function ToBoolean(value: Option<string>, defaults: Option<bool>): (r: bool)
    ensures r == Parser.ToBoolean(value, defaults)
  {
    if value.Some? && value.value != "" then value.value == "true"
    else if defaults == Some(true) then true
    else false
  }

  /** parse(value).toNumber(defaults) in src/lib/utils.ts */
  function ToNumber(value: Option<string>, defaults: Option<int>): (r: Parser.Num)
    ensures r == Parser.ToNumber(value, defaults)
  {
    if value.Some? && value.value != "" then Parser.JsNumber(value.value)
    else if defaults.Some? && defaults.value != 0 then Parser.Int(defaults.value)
    else Parser.Int(0)
  }
}
