/** The launcher's command line: options are read left to right into a
    configuration that starts from the defaults; `--help` ends the program
    with status 0 and an unknown word with status 1. The configuration then
    names the user interface, looked up without regard to case. */
module Cli {
  import opened Base
  import opened GameContexts
  import PluginRegistry

  datatype Config = Config(mapName: string, ruleSetName: string, uiType: string, pluginJars: seq<string>)

  /** The configuration before any option is read. */
  const DefaultConfig := Config("random", "default", "gui", [])

  /** What the launcher does after reading its options. */
  datatype Parsed = Run(config: Config) | Exit(code: int)

  predicate IsMapFlag(a: string)     { a == "--map" || a == "-m" }
  predicate IsRuleSetFlag(a: string) { a == "--ruleset" || a == "-r" }
  predicate IsUiFlag(a: string)      { a == "--ui" }
  predicate IsPluginFlag(a: string)  { a == "--plugin" || a == "-p" }

  /** The options that take the next word as their value. */
  predicate TakesValue(a: string)
  {
    IsMapFlag(a) || IsRuleSetFlag(a) || IsUiFlag(a) || IsPluginFlag(a)
  }

  /** The option loop from `cfg` on. An option that takes a value consumes
      the next word whatever it looks like; with no next word it is
      dropped. A later value replaces an earlier one, except plugin jars,
      which accumulate in order. */
  function Parse(args: seq<string>, cfg: Config): (r: Parsed)
    ensures r.Exit? ==> r.code == 0 || r.code == 1
    ensures r.Run? ==> |cfg.pluginJars| <= |r.config.pluginJars| && r.config.pluginJars[..|cfg.pluginJars|] == cfg.pluginJars
    decreases |args|
  {
    if |args| == 0 then Run(cfg)
    else
      var a := args[0];
      if TakesValue(a) then
        if |args| < 2 then Run(cfg)
        else
          var v := args[1];
          var next :=
            if IsMapFlag(a) then cfg.(mapName := v)
            else if IsRuleSetFlag(a) then cfg.(ruleSetName := v)
            else if IsUiFlag(a) then cfg.(uiType := v)
            else cfg.(pluginJars := cfg.pluginJars + [v]);
          Parse(args[2..], next)
      else if a == "--help" then Exit(0)
      else Exit(1)
  }

  /** `parseArgs(args)`. */
  function ParseArgs(args: seq<string>): Parsed
  {
    Parse(args, DefaultConfig)
  }

  /** The command line that asks for the plugin jars `jars`, in order. */
  function PluginArgs(jars: seq<string>): (r: seq<string>)
    ensures |r| == 2 * |jars|
    decreases |jars|
  {
    if |jars| == 0 then [] else ["-p", jars[0]] + PluginArgs(jars[1..])
  }

  /** A command line that asks for exactly `c`. */
  function Render(c: Config): seq<string>
  {
    ["--map", c.mapName, "--ruleset", c.ruleSetName, "--ui", c.uiType] + PluginArgs(c.pluginJars)
  }

  lemma {:induction false} ParsePlugins(jars: seq<string>, cfg: Config)
    ensures Parse(PluginArgs(jars), cfg) == Run(cfg.(pluginJars := cfg.pluginJars + jars))
    decreases |jars|
  {
    if |jars| == 0 {
      assert cfg.pluginJars + jars == cfg.pluginJars;
    } else {
      var args := PluginArgs(jars);
      assert args[2..] == PluginArgs(jars[1..]);
      ParsePlugins(jars[1..], cfg.(pluginJars := cfg.pluginJars + [jars[0]]));
      assert cfg.pluginJars + [jars[0]] + jars[1..] == cfg.pluginJars + jars;
    }
  }

  /** Every configuration can be asked for: rendering it and parsing the
      result gives it back, whatever its values look like. */
  lemma ParseRender(c: Config)
    ensures ParseArgs(Render(c)) == Run(c)
  {
    var plugins := PluginArgs(c.pluginJars);
    var c1 := DefaultConfig.(mapName := c.mapName);
    var c2 := c1.(ruleSetName := c.ruleSetName);
    var c3 := c2.(uiType := c.uiType);
    assert Render(c) == ["--map", c.mapName] + (["--ruleset", c.ruleSetName] + (["--ui", c.uiType] + plugins));
    ParseOptionPair("--map", c.mapName, ["--ruleset", c.ruleSetName] + (["--ui", c.uiType] + plugins), DefaultConfig);
    ParseOptionPair("--ruleset", c.ruleSetName, ["--ui", c.uiType] + plugins, c1);
    ParseOptionPair("--ui", c.uiType, plugins, c2);
    ParsePlugins(c.pluginJars, c3);
  }

  /** No options mean the defaults; an option missing its value is
      dropped; a value that looks like an option is still taken as the
      value; `--help` and an unknown word end the program wherever they
      stand as an option. */
  lemma ParseEdgeCases(cfg: Config, flag: string, v: string, rest: seq<string>)
    ensures ParseArgs([]) == Run(DefaultConfig)
    ensures TakesValue(flag) ==> Parse([flag], cfg) == Run(cfg)
    ensures IsMapFlag(flag) ==> Parse([flag, "--help"], cfg) == Run(cfg.(mapName := "--help"))
    ensures Parse(["--help"] + rest, cfg) == Exit(0)
    ensures !TakesValue(v) && v != "--help" ==> Parse([v] + rest, cfg) == Exit(1)
  {
    assert ([flag, "--help"])[2..] == [];
    assert (["--help"] + rest)[0] == "--help";
    assert ([v] + rest)[0] == v;
  }

  /** Options are read in order: a prefix of complete options is applied
      before what follows is read. */
  lemma ParseOptionPair(a: string, v: string, rest: seq<string>, cfg: Config)
    requires TakesValue(a)
    ensures Parse([a, v] + rest, cfg) == Parse(rest,
      if IsMapFlag(a) then cfg.(mapName := v)
      else if IsRuleSetFlag(a) then cfg.(ruleSetName := v)
      else if IsUiFlag(a) then cfg.(uiType := v)
      else cfg.(pluginJars := cfg.pluginJars + [v]))
  {
    assert ([a, v] + rest)[2..] == rest;
  }

  /** `loadUI(type)`: `tui` or `gui` in any case; anything else is an
      error naming the type. */
  function LoadUi(uiType: string): (r: Result<UserInterface, string>)
    ensures r == Ok(Tui) <==> PluginRegistry.Lower(uiType) == "tui"
    ensures r == Ok(Gui) <==> PluginRegistry.Lower(uiType) == "gui"
    ensures r.Err? ==> r.error == uiType
  {
    if PluginRegistry.Lower(uiType) == "tui" then Ok(Tui)
    else if PluginRegistry.Lower(uiType) == "gui" then Ok(Gui)
    else Err(uiType)
  }

  /** The default configuration opens the graphical interface, and so does
      any spelling of `gui` given with `--ui`. */
  lemma DefaultUi(spelling: string)
    requires PluginRegistry.Lower(spelling) == "gui"
    ensures LoadUi(DefaultConfig.uiType) == Ok(Gui)
    ensures ParseArgs(["--ui", spelling]).Run? && LoadUi(ParseArgs(["--ui", spelling]).config.uiType) == Ok(Gui)
  {
    assert PluginRegistry.Lower("gui") == "gui";
    assert ["--ui", spelling] == ["--ui", spelling] + [];
    ParseOptionPair("--ui", spelling, [], DefaultConfig);
  }
}
