/**
 The `LSPManager` object: its three dictionaries are fields that its methods
 update in place, and the calls it makes on client instances are recorded in
 the ghost field `calls`. Every method is proved to leave the object in the
 state the matching function of module Lifecycle computes from the old one,
 so what is proved there about those functions holds of the object.
 */
module Manager {
  import opened LspTypes
  import Lifecycle
  import SeqFacts

  class LSPManager {
    /** `self.clients`: language -> `{status, config, instance}`. */
    var clients: map<string, Record>
    /** The keys of `clients` in insertion order (the order Python iterates them in). */
    var languages: seq<string>
    /** `self.register_queue`: language -> pending `(filename, signal)` entries. */
    var registerQueue: map<string, seq<Pending>>
    /** `self.lsp_plugins`: plugin type -> signal. */
    var lspPlugins: map<string, Signal>
    /** The calls made so far on client instances. */
    ghost var calls: seq<Event>

    ghost function Abs(): Lifecycle.State
      reads this
    {
      Lifecycle.State(clients, languages, registerQueue, lspPlugins, calls)
    }

    ghost predicate Valid()
      reads this
    {
      Lifecycle.Wf(Abs())
    }

    /** `__init__`: one stopped record and one empty queue per configured language. */
    constructor (options: seq<ServerOption>)
      ensures Abs() == Lifecycle.InitFrom(options)
      ensures Valid()
    {
      clients := map[];
      languages := [];
      registerQueue := map[];
      lspPlugins := map[];
      calls := [];
      new;
      for i := 0 to |options|
        invariant Abs() == Lifecycle.InitFrom(options[..i])
      {
        ghost var prev := Abs();
        var language := options[i].language;
        if language !in clients {
          languages := languages + [language];
        }
        clients := clients[language := Record(Stopped, options[i].config, None)];
        registerQueue := registerQueue[language := []];
        assert Abs() == Lifecycle.AddLanguage(prev, language, options[i].config);
        Lifecycle.InitFromStep(options, i);
      }
      assert options[..|options|] == options;
    }

    method RegisterPluginType(pluginType: string, signal: Signal)
      modifies this
      ensures Abs() == Lifecycle.RegisterPluginType(old(Abs()), pluginType, signal)
      ensures old(Valid()) ==> Valid()
    {
      lspPlugins := lspPlugins[pluginType := signal];
    }

    method RegisterFile(language: string, filename: string, signal: Signal)
      requires Lifecycle.HasQueues(Abs())
      modifies this
      ensures Abs() == Lifecycle.RegisterFile(old(Abs()), language, filename, signal)
      ensures old(Valid()) ==> Valid()
    {
      if language in clients {
        var instance := clients[language].instance;
        if instance.None? {
          registerQueue := registerQueue[language := registerQueue[language] + [Pending(filename, signal)]];
        } else {
          calls := calls + [RegisterCall(language, filename, signal)];
        }
      }
    }

    method ReinitializeAllClients(env: Env)
      requires Valid()
      modifies this
      ensures Abs() == Lifecycle.ReinitializeAllClients(old(Abs()), env)
      ensures Valid()
    {
      ghost var start := Abs();
      for i := 0 to |languages|
        invariant Abs() == Lifecycle.ReinitEach(start, start.languages[..i], env)
      {
        ReinitializeClient(languages[i], env);
        Lifecycle.ReinitEachStep(start, start.languages, i, env);
      }
      assert start.languages[..|start.languages|] == start.languages;
    }

    /** The body of the loop of `reinitialize_all_clients`, for one language. */
    method ReinitializeClient(language: string, env: Env)
      requires language in clients && Lifecycle.InstancesPresent(Abs())
      modifies this
      ensures Abs() == Lifecycle.ReinitOne(old(Abs()), language, env)
    {
      var record := clients[language];
      if record.status == Running {
        var folder := Lifecycle.GetRootPath(language, env);
        var instance := record.instance.value.(folder := folder);
        clients := clients[language := record.(instance := Some(instance))];
        calls := calls + [ReinitCall(language, folder)];
      }
    }

    /**
     `start_client`; `started` is whether the client was already running.
     The plugin types are replayed in whatever order the key set yields;
     the instance ends up with all of them either way.
     */
    method StartClient(language: string, env: Env) returns (started: bool)
      requires Lifecycle.HasQueues(Abs())
      modifies this
      ensures (Abs(), started) == Lifecycle.StartClient(old(Abs()), language, env)
      ensures old(Valid()) ==> Valid()
    {
      started := false;
      if language !in clients {
        return;
      }
      var record := clients[language];
      var queue := registerQueue[language];
      if Suppressed(env) {
        return;
      }
      started := record.status == Running;
      if record.status == Stopped {
        var config := record.config;
        if !config.external {
          var port := env.selectPort(config.port);
          config := config.(port := port);
        }
        var folder := Lifecycle.GetRootPath(language, env);
        var instance := Instance(language, config, folder, map[]);
        var remaining := lspPlugins.Keys;
        while remaining != {}
          invariant remaining <= lspPlugins.Keys
          invariant instance.plugins.Keys == lspPlugins.Keys - remaining
          invariant forall t :: t in instance.plugins ==> instance.plugins[t] == lspPlugins[t]
          invariant instance.language == language && instance.settings == config && instance.folder == folder
          decreases remaining
        {
          var t :| t in remaining;
          instance := instance.(plugins := instance.plugins[t := lspPlugins[t]]);
          remaining := remaining - {t};
        }
        assert instance.plugins == lspPlugins;
        assert instance == Instance(language, Lifecycle.StartedConfig(record.config, env), folder, lspPlugins);
        clients := clients[language := Record(Running, config, Some(instance))];
        calls := calls + [StartCall(language)];
        ghost var afterStart := calls;
        ghost var before := Abs();
        // Source line 152 calls `register_file` on the record dictionary, not on
        // the instance; this loop models the intended hand-off to the instance.
        for k := 0 to |queue|
          invariant calls == afterStart + Lifecycle.Registrations(language, queue[..k])
          invariant Abs() == before.(trace := calls)
        {
          var entry := queue[k];
          calls := calls + [RegisterCall(language, entry.filename, entry.signal)];
          assert queue[..k + 1][..k] == queue[..k];
          SeqFacts.AppendAssoc(afterStart, Lifecycle.Registrations(language, queue[..k]),
                                [RegisterCall(language, entry.filename, entry.signal)]);
        }
        assert queue[..|queue|] == queue;
        registerQueue := registerQueue[language := []];
        assert Abs() == Lifecycle.StartClient(old(Abs()), language, env).0;
      }
    }

    method Shutdown()
      modifies this
      ensures Abs() == Lifecycle.Shutdown(old(Abs()))
      ensures old(Valid()) ==> Valid()
    {
      ghost var start := Abs();
      for i := 0 to |languages|
        invariant Abs() == Lifecycle.CloseEach(start, start.languages[..i])
      {
        CloseClient(languages[i]);
        Lifecycle.CloseEachStep(start, start.languages, i);
      }
      assert start.languages[..|start.languages|] == start.languages;
    }

    /**
     `update_server_list`: the options of the `lsp-server` section, each with
     its value, and the names in `LSP_LANGUAGES` are parameters.
     */
    method UpdateServerList(options: seq<ServerOption>, lspLanguages: seq<string>, env: Env)
      requires Valid()
      modifies this
      ensures Abs() == Lifecycle.UpdateServerList(old(Abs()), options, lspLanguages, env)
      ensures Valid()
    {
      ghost var start := Abs();
      var supported := Lifecycle.Supported(lspLanguages);
      for i := 0 to |options|
        invariant Abs() == Lifecycle.ApplyEach(start, options[..i], supported, env)
      {
        ApplyOption(options[i], supported, env);
        assert options[..i + 1][..i] == options[..i];
      }
      assert options[..|options|] == options;
    }

    /** The body of the loop of `update_server_list`, for one option. */
    method ApplyOption(option: ServerOption, supported: set<string>, env: Env)
      requires Valid()
      modifies this
      ensures Abs() == Lifecycle.ApplyOption(old(Abs()), option, supported, env)
      ensures Valid()
    {
      var language := option.language;
      if language !in supported {
        return;
      }
      var newRecord := Record(Stopped, option.config, None);
      if language !in clients {
        clients := clients[language := newRecord];
        languages := languages + [language];
        registerQueue := registerQueue[language := []];
        return;
      }
      var current := clients[language].config;
      if Lifecycle.NeedsRestart(current, option.config) {
        if clients[language].status == Stopped {
          clients := clients[language := newRecord];
        } else {
          ghost var before := Abs();
          CloseClient(language);
          clients := clients[language := newRecord];
          assert Abs() == Lifecycle.ReplaceRecord(Lifecycle.CloseClient(before, language), language, option.config);
          var alreadyRunning := StartClient(language, env);
          assert Abs() == Lifecycle.RestartRunning(before, language, option.config, env);
        }
      } else if clients[language].status == Running {
        calls := calls + [SendConfCall(language, option.config.configurations)];
      }
    }

    method UpdateClientStatus(activeSet: set<string>)
      modifies this
      ensures Abs() == Lifecycle.UpdateClientStatus(old(Abs()), activeSet)
      ensures old(Valid()) ==> Valid()
    {
      ghost var start := Abs();
      for i := 0 to |languages|
        invariant Abs() == Lifecycle.CloseInactive(start, start.languages[..i], activeSet)
      {
        var language := languages[i];
        if language !in activeSet {
          CloseClient(language);
        }
        Lifecycle.CloseInactiveStep(start, start.languages, i, activeSet);
      }
      assert start.languages[..|start.languages|] == start.languages;
    }

    method CloseClient(language: string)
      modifies this
      ensures Abs() == Lifecycle.CloseClient(old(Abs()), language)
      ensures old(Valid()) ==> Valid()
    {
      if language in clients {
        var record := clients[language];
        if record.status == Running {
          calls := calls + [StopCall(language)];
        }
        clients := clients[language := record.(status := Stopped)];
      }
    }

    method SendRequest(language: string, request: string, params: string)
      modifies this
      ensures Abs() == Lifecycle.SendRequest(old(Abs()), language, request, params)
      ensures old(Valid()) ==> Valid()
    {
      if language in clients {
        if clients[language].status == Running {
          calls := calls + [PerformCall(language, request, params)];
        }
      }
    }
  }
}
