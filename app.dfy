/** The application shell (src/app/index.ts): option defaults, the port
    rewriting of the base URL, and the order in which `start` and `_shutdown`
    open, install, build and close things. Stores, plugins and services are
    named by ids; what they do when opened or closed is recorded as an effect. */
module App {
  import opened Common
  import Env

  type StoreId = nat

  /** A plugin as its install function returns it; `hasClose` is `'close' in plugin`. */
  datatype PluginSpec = PluginSpec(id: nat, hasClose: bool)

  /** A service as its factory builds it; `hasInit` and `hasClose` are the `in`
      tests on the built object. */
  datatype ServiceSpec = ServiceSpec(id: nat, hasInit: bool, hasClose: bool)

  datatype Effect =
    | OpenStore(store: StoreId)
    | Install(plugin: nat)
    | BuildService(service: nat)
    | InitService(service: nat)
    | CreateRoutes(service: nat)
    | ClosePlugin(plugin: nat)
    | CloseService(service: nat)
    | CloseServer
    | CloseStore(store: StoreId)

  /** `AppOption`: every field may be left out. */
  datatype AppOption = AppOption(
    name: Option<string>, services: Option<seq<ServiceSpec>>, port: Option<int>,
    stores: Option<seq<StoreId>>, plugins: Option<seq<PluginSpec>>)

  /** The option record after the defaults are filled in. */
  datatype Options = Options(
    name: string, services: seq<ServiceSpec>, port: int,
    stores: seq<StoreId>, plugins: seq<PluginSpec>)

  const DEFAULT_NAME := "index"
  const DEFAULT_PORT := 3000
  const DEFAULT_BASE_URL := "http://localhost:3000"
  const DEFAULT_ENVIRONMENT := "dev"

  /** `{ services: [], name: 'index', port: 3000, stores: [], plugins: [], ...option }`:
      a supplied field overrides its default. */
  function WithDefaults(option: Option<AppOption>): (o: Options)
    ensures option.None? ==> o == Options(DEFAULT_NAME, [], DEFAULT_PORT, [], [])
    ensures option.Some? ==>
      o.name == option.value.name.GetOr(DEFAULT_NAME) && o.port == option.value.port.GetOr(DEFAULT_PORT)
      && o.services == option.value.services.GetOr([]) && o.stores == option.value.stores.GetOr([])
      && o.plugins == option.value.plugins.GetOr([])
  {
    match option
    case None => Options(DEFAULT_NAME, [], DEFAULT_PORT, [], [])
    case Some(opt) =>
      Options(
        if opt.name.Some? then opt.name.value else DEFAULT_NAME,
        if opt.services.Some? then opt.services.value else [],
        if opt.port.Some? then opt.port.value else DEFAULT_PORT,
        if opt.stores.Some? then opt.stores.value else [],
        if opt.plugins.Some? then opt.plugins.value else [])
  }

  /** `changePort(port)`: the third `:`-separated piece of the base URL becomes the
      port; a URL with two pieces or fewer is kept as it is. */
  function ChangePort(baseUrl: string, port: int): (r: string)
    ensures |Split(baseUrl, ':')| <= 2 ==> r == baseUrl
  {
    var pieces := Split(baseUrl, ':');
    if |pieces| > 2 then Join(pieces[2 := IntToString(port)], ':') else baseUrl
  }

  /** With more than two pieces, the result splits into the same pieces except
      the third, which is the port. */
  lemma ChangePortPieces(baseUrl: string, port: int)
    requires |Split(baseUrl, ':')| > 2
    ensures Split(ChangePort(baseUrl, port), ':') == Split(baseUrl, ':')[2 := IntToString(port)]
  {
    var pieces := Split(baseUrl, ':');
    SplitPiecesHaveNoSeparator(baseUrl, ':');
    IntToStringChars(port, ':');
    SplitJoin(pieces[2 := IntToString(port)], ':');
  }

  /** `scheme:host:port` gets the new port and keeps the rest. */
  lemma ChangePortOf(scheme: string, host: string, previous: string, port: int)
    requires ':' !in scheme && ':' !in host && ':' !in previous
    ensures ChangePort(scheme + ":" + host + ":" + previous, port) == scheme + ":" + host + ":" + IntToString(port)
  {
    var url := scheme + ":" + host + ":" + previous;
    SplitJoin([scheme, host, previous], ':');
    JoinThree(scheme, host, previous);
    var pieces := [scheme, host, IntToString(port)];
    assert [scheme, host, previous][2 := IntToString(port)] == pieces;
    JoinThree(scheme, host, IntToString(port));
  }

  lemma JoinThree(a: string, b: string, c: string)
    ensures Join([a, b, c], ':') == a + ":" + b + ":" + c
  {
    assert [a, b, c][1..] == [b, c];
    assert [b, c][1..] == [c];
    assert Join([b, c], ':') == b + [':'] + c;
    assert Join([a, b, c], ':') == a + [':'] + (b + [':'] + c);
  }

  /** The default base URL moves to the port the server listens on. */
  lemma ChangePortDefaultUrl(url: string)
    requires url == "http://localhost:3000"
    ensures ChangePort(url, 8080) == "http://localhost:8080"
  {
    LocalhostPieces();
    ChangePortOf("http", "//localhost", "3000", 8080);
  }

  lemma LocalhostPieces()
    ensures "http://localhost:3000" == "http" + ":" + "//localhost" + ":" + "3000"
    ensures "http://localhost:8080" == "http" + ":" + "//localhost" + ":" + IntToString(8080)
    ensures ':' !in "http" && ':' !in "//localhost" && ':' !in "3000"
  {
    assert IntToString(8080) == "8080";
  }

  /** A base URL without a port is left alone. */
  lemma ChangePortNoPort(url: string)
    requires url == "http://localhost"
    ensures ChangePort(url, 8080) == url
  {
    assert url == Join(["http", "//localhost"], ':') by {
      assert ["http", "//localhost"][1..] == ["//localhost"];
    }
    assert ':' !in "http" && ':' !in "//localhost";
    SplitJoin(["http", "//localhost"], ':');
  }

  // ---------------------------------------------------------------------------
  // The effects `start` and `_shutdown` make, as reference definitions.

  function OpenStores(stores: seq<StoreId>): (r: seq<Effect>)
    ensures |r| == |stores| && forall k :: 0 <= k < |r| ==> r[k] == OpenStore(stores[k])
  {
    seq(|stores|, k requires 0 <= k < |stores| => OpenStore(stores[k]))
  }

  function CloseStores(stores: seq<StoreId>): (r: seq<Effect>)
    ensures |r| == |stores| && forall k :: 0 <= k < |r| ==> r[k] == CloseStore(stores[k])
  {
    seq(|stores|, k requires 0 <= k < |stores| => CloseStore(stores[k]))
  }

  function PluginInstalls(plugins: seq<PluginSpec>): (r: seq<Effect>)
    ensures |r| == |plugins| && forall k :: 0 <= k < |r| ==> r[k] == Install(plugins[k].id)
  {
    seq(|plugins|, k requires 0 <= k < |plugins| => Install(plugins[k].id))
  }

  /** What starting one service does: build it, `init` it when it has one, then
      create its routes. */
  function ServiceStart(s: ServiceSpec): seq<Effect> {
    [BuildService(s.id)] + (if s.hasInit then [InitService(s.id)] else []) + [CreateRoutes(s.id)]
  }

  function StartServices(services: seq<ServiceSpec>): seq<Effect>
  {
    if services == [] then []
    else StartServices(services[..|services| - 1]) + ServiceStart(services[|services| - 1])
  }

  /** The plugins that have `close`, closed in order. */
  function ClosePlugins(plugins: seq<PluginSpec>): seq<Effect>
  {
    if plugins == [] then []
    else
      var p := plugins[|plugins| - 1];
      ClosePlugins(plugins[..|plugins| - 1]) + (if p.hasClose then [ClosePlugin(p.id)] else [])
  }

  /** The services that have `close`, closed in order. */
  function CloseServices(services: seq<ServiceSpec>): seq<Effect>
  {
    if services == [] then []
    else
      var s := services[|services| - 1];
      CloseServices(services[..|services| - 1]) + (if s.hasClose then [CloseService(s.id)] else [])
  }

  function StartEffects(o: Options): seq<Effect> {
    OpenStores(o.stores) + PluginInstalls(o.plugins) + StartServices(o.services)
  }

  function ShutdownEffects(plugins: seq<PluginSpec>, services: seq<ServiceSpec>, stores: seq<StoreId>): seq<Effect> {
    ClosePlugins(plugins) + CloseServices(services) + [CloseServer] + CloseStores(stores)
  }

  /** The starting of the service at position k sits between the services before
      and after it, with its own effects in order. */
  lemma {:induction false} StartServicesAt(services: seq<ServiceSpec>, k: nat)
    requires k < |services|
    ensures StartServices(services) ==
      StartServices(services[..k]) + ServiceStart(services[k]) + StartServices(services[k + 1..])
    decreases |services|
  {
    var n := |services| - 1;
    if k == n {
      assert services[..|services| - 1] == services[..k];
      assert services[k + 1..] == [];
    } else {
      var init, last := services[..n], services[n];
      var before, here := StartServices(services[..k]), ServiceStart(services[k]);
      assert StartServices(init) == before + here + StartServices(init[k + 1..]) by {
        StartServicesAt(init, k);
        assert init[..k] == services[..k];
        assert init[k] == services[k];
      }
      assert StartServices(services[k + 1..]) == StartServices(init[k + 1..]) + ServiceStart(last) by {
        assert (services[k + 1..])[..|services[k + 1..]| - 1] == init[k + 1..];
      }
      calc {
        StartServices(services);
        StartServices(init) + ServiceStart(last);
        (before + here + StartServices(init[k + 1..])) + ServiceStart(last);
        { AppendAssoc(before + here, StartServices(init[k + 1..]), ServiceStart(last)); }
        before + here + (StartServices(init[k + 1..]) + ServiceStart(last));
        before + here + StartServices(services[k + 1..]);
      }
    }
  }

  /** A service with `init` is initialised after it is built and before its routes
      are created. */
  lemma InitBeforeRoutes(services: seq<ServiceSpec>, k: nat)
    requires k < |services| && services[k].hasInit
    ensures var e := StartServices(services);
      exists i :: (0 < i < |e| - 1
        && e[i - 1] == BuildService(services[k].id) && e[i] == InitService(services[k].id)
        && e[i + 1] == CreateRoutes(services[k].id))
  {
    StartServicesAt(services, k);
    var before := StartServices(services[..k]);
    var e := StartServices(services);
    var i := |before| + 1;
    assert e[i - 1] == ServiceStart(services[k])[0];
    assert e[i] == ServiceStart(services[k])[1];
    assert e[i + 1] == ServiceStart(services[k])[2];
  }

  /** A service without `init` goes straight from being built to its routes. */
  lemma NoInitNoCall(services: seq<ServiceSpec>, k: nat)
    requires k < |services| && !services[k].hasInit
    ensures var e := StartServices(services);
      exists i :: (0 <= i < |e| - 1
        && e[i] == BuildService(services[k].id) && e[i + 1] == CreateRoutes(services[k].id))
  {
    StartServicesAt(services, k);
    var before := StartServices(services[..k]);
    var e := StartServices(services);
    var i := |before|;
    assert e[i] == ServiceStart(services[k])[0];
    assert e[i + 1] == ServiceStart(services[k])[1];
  }

  /** Stores are all open and plugins all installed before the first service is
      built. */
  lemma StoresAndPluginsFirst(o: Options)
    ensures var e := StartEffects(o); var m := |o.stores| + |o.plugins|;
      |e| >= m
      && e[..|o.stores|] == OpenStores(o.stores)
      && e[|o.stores|..m] == PluginInstalls(o.plugins)
      && e[m..] == StartServices(o.services)
  {
    var e := StartEffects(o);
    assert e == OpenStores(o.stores) + PluginInstalls(o.plugins) + StartServices(o.services);
  }

  /** The application; `log` records the effects of its calls, in order. */
  class Application {
    var services: seq<ServiceSpec>
    var plugins: seq<PluginSpec>
    var log: seq<Effect>
    const option: Options
    const baseUrl: string
    const environment: string

    /** The constructor: the options with their defaults, the base URL and the
        environment name read from the process environment with theirs. */
    constructor(env: map<string, string>, opt: Option<AppOption>)
      ensures option == WithDefaults(opt)
      ensures baseUrl == Env.GetString(env, "BASE_URL", Some(DEFAULT_BASE_URL))
      ensures environment == Env.GetString(env, "NODE_ENV", Some(DEFAULT_ENVIRONMENT))
      ensures services == [] && plugins == [] && log == []
    {
      option := WithDefaults(opt);
      baseUrl := Env.GetString(env, "BASE_URL", Some(DEFAULT_BASE_URL));
      environment := Env.GetString(env, "NODE_ENV", Some(DEFAULT_ENVIRONMENT));
      services, plugins, log := [], [], [];
    }

    /** `installPlugin()`: each install function in order, its plugin kept. */
    method InstallPlugin()
      modifies this
      ensures plugins == old(plugins) + option.plugins
      ensures log == old(log) + PluginInstalls(option.plugins)
      ensures services == old(services)
    {
      for n := 0 to |option.plugins|
        invariant plugins == old(plugins) + option.plugins[..n]
        invariant log == old(log) + PluginInstalls(option.plugins[..n])
        invariant services == old(services)
      {
        var plugin := option.plugins[n];
        log := log + [Install(plugin.id)];
        plugins := plugins + [plugin];
        assert option.plugins[..n + 1] == option.plugins[..n] + [plugin];
        assert PluginInstalls(option.plugins[..n + 1]) == PluginInstalls(option.plugins[..n]) + [Install(plugin.id)];
      }
      assert option.plugins[..|option.plugins|] == option.plugins;
    }

    /** The `forEach` of `start` that opens every store, in order. */
    method OpenAllStores()
      modifies this
      ensures log == old(log) + OpenStores(option.stores)
      ensures services == old(services) && plugins == old(plugins)
    {
      for n := 0 to |option.stores|
        invariant log == old(log) + OpenStores(option.stores[..n])
        invariant services == old(services) && plugins == old(plugins)
      {
        log := log + [OpenStore(option.stores[n])];
        assert OpenStores(option.stores[..n + 1]) == OpenStores(option.stores[..n]) + [OpenStore(option.stores[n])];
      }
      assert option.stores[..|option.stores|] == option.stores;
    }

    /** The loop of `start` over the service factories: build, initialise when
        possible, create the routes, keep the service. */
    method StartAllServices()
      modifies this
      ensures log == old(log) + StartServices(option.services)
      ensures services == old(services) + option.services
      ensures plugins == old(plugins)
    {
      for n := 0 to |option.services|
        invariant log == old(log) + StartServices(option.services[..n])
        invariant services == old(services) + option.services[..n]
        invariant plugins == old(plugins)
      {
        var svc := option.services[n];
        log := log + [BuildService(svc.id)];
        if svc.hasInit {
          log := log + [InitService(svc.id)];
        }
        log := log + [CreateRoutes(svc.id)];
        services := services + [svc];
        assert option.services[..n + 1][..n] == option.services[..n];
      }
      assert option.services[..|option.services|] == option.services;
    }

    /** `start()`: open the stores, install the plugins, then build, initialise
        and route each service in order, keeping it in `services`. */
    method Start()
      modifies this
      ensures log == old(log) + StartEffects(option)
      ensures services == old(services) + option.services
      ensures plugins == old(plugins) + option.plugins
    {
      ghost var l0 := log;
      OpenAllStores();
      InstallPlugin();
      StartAllServices();
      AppendAssoc(l0, OpenStores(option.stores) + PluginInstalls(option.plugins), StartServices(option.services));
      AppendAssoc(l0, OpenStores(option.stores), PluginInstalls(option.plugins));
    }

    /** `destroyPlugin()`: close the plugins that have `close`, in order. */
    method DestroyPlugin()
      modifies this
      ensures log == old(log) + ClosePlugins(plugins)
      ensures services == old(services) && plugins == old(plugins)
    {
      for n := 0 to |plugins|
        invariant services == old(services) && plugins == old(plugins)
        invariant log == old(log) + ClosePlugins(plugins[..n])
      {
        if plugins[n].hasClose {
          log := log + [ClosePlugin(plugins[n].id)];
        }
        assert plugins[..n + 1][..n] == plugins[..n];
      }
      assert plugins[..|plugins|] == plugins;
    }

    /** The loop of `_shutdown` closing the services that have `close`. */
    method CloseAllServices()
      modifies this
      ensures log == old(log) + CloseServices(services)
      ensures services == old(services) && plugins == old(plugins)
    {
      for n := 0 to |services|
        invariant services == old(services) && plugins == old(plugins)
        invariant log == old(log) + CloseServices(services[..n])
      {
        if services[n].hasClose {
          log := log + [CloseService(services[n].id)];
        }
        assert services[..n + 1][..n] == services[..n];
      }
      assert services[..|services|] == services;
    }

    /** The `forEach` of `_shutdown` closing every store, in order. */
    method CloseAllStores()
      modifies this
      ensures log == old(log) + CloseStores(option.stores)
      ensures services == old(services) && plugins == old(plugins)
    {
      for n := 0 to |option.stores|
        invariant log == old(log) + CloseStores(option.stores[..n])
        invariant services == old(services) && plugins == old(plugins)
      {
        log := log + [CloseStore(option.stores[n])];
        assert CloseStores(option.stores[..n + 1]) == CloseStores(option.stores[..n]) + [CloseStore(option.stores[n])];
      }
      assert option.stores[..|option.stores|] == option.stores;
    }

    /** `_shutdown()`: close the plugins that can be closed, then the services that
        can, then the server, then every store. */
    method CloseAll()
      modifies this
      ensures log == old(log) + ShutdownEffects(plugins, services, option.stores)
      ensures services == old(services) && plugins == old(plugins)
    {
      ghost var l0 := log;
      DestroyPlugin();
      CloseAllServices();
      log := log + [CloseServer];
      CloseAllStores();
      var cp, cs := ClosePlugins(plugins), CloseServices(services);
      AppendAssoc(l0, cp + cs + [CloseServer], CloseStores(option.stores));
      AppendAssoc(l0, cp + cs, [CloseServer]);
      AppendAssoc(l0, cp, cs);
    }

    /** `shutdown()`: in the `test` environment everything is closed at once;
        otherwise only the signal handlers are registered, which this model leaves
        out, so nothing happens yet. */
    method Shutdown()
      modifies this
      ensures environment == "test" ==> log == old(log) + ShutdownEffects(plugins, services, option.stores)
      ensures environment != "test" ==> log == old(log)
      ensures services == old(services) && plugins == old(plugins)
    {
      if environment == "test" {
        CloseAll();
      }
    }
  }

  /** Starting and then shutting down in the test environment closes exactly the
      plugins and services that started, server before stores. */
  method StartThenShutdown(env: map<string, string>, opt: Option<AppOption>) returns (log: seq<Effect>)
    requires "NODE_ENV" in env && env["NODE_ENV"] == "test"
    ensures var o := WithDefaults(opt);
      log == StartEffects(o) + ShutdownEffects(o.plugins, o.services, o.stores)
  {
    var app := new Application(env, opt);
    assert app.environment == "test";
    app.Start();
    assert app.log == StartEffects(app.option);
    assert app.plugins == app.option.plugins && app.services == app.option.services;
    app.Shutdown();
    log := app.log;
  }
}
