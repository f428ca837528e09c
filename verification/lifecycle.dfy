/**
 The language-server manager as a value: the three dictionaries of
 `LSPManager` (client records, registration queues, plugin types), the order
 in which languages were first recorded (Python dictionaries iterate in
 insertion order), and the calls made so far on client instances.

 Each method of the manager is a function from the old state to the new one;
 the class in module Manager is proved to compute exactly these functions,
 and the lemmas here state what the source promises about them.
 */
module Lifecycle {
  import opened LspTypes
  import opened SeqFacts

  datatype State = State(
    clients: map<string, Record>,
    languages: seq<string>,
    queues: map<string, seq<Pending>>,
    plugins: map<string, Signal>,
    trace: seq<Event>)

  predicate Distinct(xs: seq<string>)
  {
    forall i, j :: 0 <= i < j < |xs| ==> xs[i] != xs[j]
  }

  function Elements(xs: seq<string>): set<string>
  {
    set l | l in xs
  }

  /**
   The bookkeeping invariant: `languages` lists each key of `clients` once,
   every client has a queue, a running client has an instance, and
   registrations wait in a queue only while the client has no instance.
   */
  ghost predicate Wf(s: State)
  {
    && Distinct(s.languages)
    && s.clients.Keys == Elements(s.languages)
    && s.queues.Keys == s.clients.Keys
    && (forall l :: l in s.clients ==> RecordOk(s.clients[l], s.queues[l]))
  }

  /** Every known language has a queue. */
  predicate HasQueues(s: State)
  {
    s.clients.Keys <= s.queues.Keys
  }

  /** A running client has an instance. */
  predicate RunningHasInstance(rec: Record)
  {
    rec.status == Running ==> rec.instance.Some?
  }

  /** A running client has an instance; entries wait only while there is none. */
  predicate RecordOk(rec: Record, queue: seq<Pending>)
  {
    && RunningHasInstance(rec)
    && (queue != [] ==> rec.instance.None?)
  }

  // ---------------------------------------------------------------------------
  // Construction

  /** A stopped record with no instance, as built for a newly configured language. */
  function FreshRecord(config: Config): Record
  {
    Record(Stopped, config, None)
  }

  /** Records `lang` with a fresh stopped record and an empty queue. */
  function AddLanguage(s: State, lang: string, config: Config): (r: State)
    requires Wf(s)
    ensures Wf(r)
  {
    State(s.clients[lang := FreshRecord(config)],
          if lang in s.clients then s.languages else s.languages + [lang],
          s.queues[lang := []],
          s.plugins,
          s.trace)
  }

  /** The state `__init__` builds from the options of the `lsp-server` section. */
  function InitFrom(options: seq<ServerOption>): (r: State)
    ensures Wf(r)
    ensures r.plugins == map[] && r.trace == []
    decreases |options|
  {
    if options == [] then State(map[], [], map[], map[], [])
    else
      var last := options[|options| - 1];
      AddLanguage(InitFrom(options[..|options| - 1]), last.language, last.config)
  }

  /** One more step of `InitFrom` along a prefix of `options`. */
  lemma InitFromStep(options: seq<ServerOption>, i: nat)
    requires i < |options|
    ensures InitFrom(options[..i + 1]) == AddLanguage(InitFrom(options[..i]), options[i].language, options[i].config)
  {
    assert options[..i + 1][..i] == options[..i];
  }

  /** The languages named by a list of options. */
  function OptionLanguages(options: seq<ServerOption>): (langs: set<string>)
    ensures forall i :: 0 <= i < |options| ==> options[i].language in langs
    ensures forall l :: l in langs ==> exists i :: 0 <= i < |options| && options[i].language == l
    decreases |options|
  {
    if options == [] then {}
    else OptionLanguages(options[..|options| - 1]) + {options[|options| - 1].language}
  }

  /** After `__init__` a language has a client record exactly when some option names it. */
  lemma {:induction false} InitFromKnown(options: seq<ServerOption>, l: string)
    ensures l in InitFrom(options).clients <==> l in OptionLanguages(options)
    decreases |options|
  {
    if options != [] {
      var init, last := options[..|options| - 1], options[|options| - 1];
      InitFromKnown(init, l);
    }
  }

  /**
   ... and that record holds the configuration of an option for the language,
   is stopped and has no instance, and its queue is empty.
   */
  lemma {:induction false} InitFromRecord(options: seq<ServerOption>, l: string)
    requires l in InitFrom(options).clients
    ensures var r := InitFrom(options);
      && ServerOption(l, r.clients[l].config) in options
      && r.clients[l] == FreshRecord(r.clients[l].config)
      && r.queues[l] == []
    decreases |options|
  {
    var init, last := options[..|options| - 1], options[|options| - 1];
    if l != last.language {
      InitFromRecord(init, l);
    }
  }

  // ---------------------------------------------------------------------------
  // Root path

  /**
   The root folder handed to a server: the active project path when there is
   one and it is not empty; otherwise the `lsp_root_path` directory under the
   configuration directory for Python, and the current directory or home for
   any other language.
   */
  function GetRootPath(language: string, env: Env): (path: string)
    ensures env.activeProject.Some? && env.activeProject.value != "" ==> path == env.activeProject.value
    ensures (env.activeProject == None || env.activeProject == Some("")) ==>
      path == if language == "python" then env.lspRootPath else env.cwdOrHome
  {
    if env.activeProject.Some? && env.activeProject.value != "" then env.activeProject.value
    else if language == "python" then env.lspRootPath
    else env.cwdOrHome
  }

  // ---------------------------------------------------------------------------
  // Plugin types and file registration

  function RegisterPluginType(s: State, pluginType: string, signal: Signal): (r: State)
    ensures Wf(s) ==> Wf(r)
    ensures r.plugins.Keys == s.plugins.Keys + {pluginType} && r.plugins[pluginType] == signal
    ensures forall t :: t in s.plugins && t != pluginType ==> r.plugins[t] == s.plugins[t]
    ensures r.clients == s.clients && r.languages == s.languages && r.queues == s.queues && r.trace == s.trace
  {
    s.(plugins := s.plugins[pluginType := signal])
  }

  /**
   Queues `(filename, signal)` while the language's client has no instance,
   forwards it to the instance otherwise; ignores unknown languages.
   */
  function RegisterFile(s: State, lang: string, filename: string, signal: Signal): (r: State)
    requires HasQueues(s)
    ensures HasQueues(r) && (Wf(s) ==> Wf(r))
    ensures lang !in s.clients ==> r == s
    ensures lang in s.clients && s.clients[lang].instance.None? ==>
      && r.queues == s.queues[lang := s.queues[lang] + [Pending(filename, signal)]]
      && r.clients == s.clients && r.trace == s.trace
    ensures lang in s.clients && s.clients[lang].instance.Some? ==>
      && r.trace == s.trace + [RegisterCall(lang, filename, signal)]
      && r.clients == s.clients && r.queues == s.queues
    ensures r.languages == s.languages && r.plugins == s.plugins
  {
    if lang !in s.clients then s
    else if s.clients[lang].instance.None? then
      s.(queues := s.queues[lang := s.queues[lang] + [Pending(filename, signal)]])
    else
      s.(trace := s.trace + [RegisterCall(lang, filename, signal)])
  }

  /** Registers each of `ps` in turn. */
  function RegisterAll(s: State, lang: string, ps: seq<Pending>): (r: State)
    requires HasQueues(s)
    ensures HasQueues(r) && (Wf(s) ==> Wf(r))
    ensures r.clients == s.clients && r.languages == s.languages && r.plugins == s.plugins
    decreases |ps|
  {
    if ps == [] then s
    else
      var last := ps[|ps| - 1];
      RegisterFile(RegisterAll(s, lang, ps[..|ps| - 1]), lang, last.filename, last.signal)
  }

  // ---------------------------------------------------------------------------
  // Starting and stopping

  /** The calls that hand the queued entries `q` to the instance, in queue order. */
  function Registrations(lang: string, q: seq<Pending>): (evs: seq<Event>)
    ensures |evs| == |q|
    ensures forall i :: 0 <= i < |q| ==> evs[i] == RegisterCall(lang, q[i].filename, q[i].signal)
    decreases |q|
  {
    if q == [] then []
    else Registrations(lang, q[..|q| - 1]) + [RegisterCall(lang, q[|q| - 1].filename, q[|q| - 1].signal)]
  }

  /** The configuration a client is started with: a selected port unless the server is external. */
  function StartedConfig(config: Config, env: Env): Config
  {
    if !config.external then config.(port := env.selectPort(config.port)) else config
  }

  /**
   `start_client`. The boolean is whether the client was already running.
   Starting a stopped client builds an instance from the (port-updated)
   configuration, the root path and every registered plugin type, starts it,
   marks the record running and hands over the queued registrations in order.
   */
  function StartClient(s: State, lang: string, env: Env): (r: (State, bool))
    requires HasQueues(s)
    ensures HasQueues(r.0) && (Wf(s) ==> Wf(r.0))
    ensures r.0.languages == s.languages && r.0.plugins == s.plugins && r.0.clients.Keys == s.clients.Keys
    ensures r.1 <==> lang in s.clients && !Suppressed(env) && s.clients[lang].status == Running
    ensures lang !in s.clients || Suppressed(env) || s.clients[lang].status == Running ==> r.0 == s
    ensures lang in s.clients && !Suppressed(env) && s.clients[lang].status == Stopped ==>
      var before := s.clients[lang];
      var after := r.0.clients[lang];
      && after.status == Running
      && (before.config.external ==> after.config == before.config)
      && (!before.config.external ==> after.config == before.config.(port := env.selectPort(before.config.port)))
      && after.instance == Some(Instance(lang, after.config, GetRootPath(lang, env), s.plugins))
      && r.0.queues[lang] == []
      && r.0.trace == s.trace + [StartCall(lang)] + Registrations(lang, s.queues[lang])
    ensures forall l :: l in s.clients && l != lang ==> r.0.clients[l] == s.clients[l] && r.0.queues[l] == s.queues[l]
  {
    if lang !in s.clients || Suppressed(env) then (s, false)
    else
      var rec := s.clients[lang];
      if rec.status == Running then (s, true)
      else
        var config := StartedConfig(rec.config, env);
        var instance := Instance(lang, config, GetRootPath(lang, env), s.plugins);
        (State(s.clients[lang := Record(Running, config, Some(instance))],
               s.languages,
               s.queues[lang := []],
               s.plugins,
               s.trace + [StartCall(lang)] + Registrations(lang, s.queues[lang])),
         false)
  }

  /**
   `close_client`: the record of a known language ends up stopped, a stop call
   is made exactly when it was running, and the instance is kept.
   */
  function CloseClient(s: State, lang: string): (r: State)
    ensures Wf(s) ==> Wf(r)
    ensures lang !in s.clients ==> r == s
    ensures lang in s.clients ==>
      && r.clients == s.clients[lang := s.clients[lang].(status := Stopped)]
      && r.trace == s.trace + (if s.clients[lang].status == Running then [StopCall(lang)] else [])
    ensures r.languages == s.languages && r.queues == s.queues && r.plugins == s.plugins
  {
    if lang !in s.clients then s
    else
      var rec := s.clients[lang];
      s.(clients := s.clients[lang := rec.(status := Stopped)],
         trace := s.trace + (if rec.status == Running then [StopCall(lang)] else []))
  }

  /** Closes each language of `xs` in turn. */
  function CloseEach(s: State, xs: seq<string>): (r: State)
    ensures Wf(s) ==> Wf(r)
    ensures r.languages == s.languages && r.queues == s.queues && r.plugins == s.plugins
    ensures r.clients.Keys == s.clients.Keys
    decreases |xs|
  {
    if xs == [] then s
    else CloseClient(CloseEach(s, xs[..|xs| - 1]), xs[|xs| - 1])
  }

  /** One more step of `CloseEach` along a prefix of `xs`. */
  lemma CloseEachStep(s: State, xs: seq<string>, i: nat)
    requires i < |xs|
    ensures CloseEach(s, xs[..i + 1]) == CloseClient(CloseEach(s, xs[..i]), xs[i])
  {
    assert xs[..i + 1][..i] == xs[..i];
  }

  /** The languages of `xs` whose client is running in `s`, in the order of `xs`. */
  function RunningIn(s: State, xs: seq<string>): (ys: seq<string>)
    ensures forall l :: l in ys <==> l in xs && l in s.clients && s.clients[l].status == Running
    ensures Distinct(xs) ==> Distinct(ys)
    decreases |xs|
  {
    if xs == [] then []
    else
      var init, last := xs[..|xs| - 1], xs[|xs| - 1];
      assert forall l :: l in xs <==> l in init || l == last;
      RunningIn(s, init) + (if last in s.clients && s.clients[last].status == Running then [last] else [])
  }

  function StopCalls(xs: seq<string>): (evs: seq<Event>)
    ensures |evs| == |xs|
    ensures forall i :: 0 <= i < |xs| ==> evs[i] == StopCall(xs[i])
    decreases |xs|
  {
    if xs == [] then [] else StopCalls(xs[..|xs| - 1]) + [StopCall(xs[|xs| - 1])]
  }

  /**
   Closing distinct known languages one after the other leaves each of them
   stopped with its configuration and instance, and every other record alone.
   */
  lemma {:induction false} CloseEachClients(s: State, xs: seq<string>)
    requires forall l :: l in xs ==> l in s.clients
    ensures var r := CloseEach(s, xs);
      && (forall l :: l in xs ==> r.clients[l] == s.clients[l].(status := Stopped))
      && (forall l :: l in s.clients && l !in xs ==> r.clients[l] == s.clients[l])
    decreases |xs|
  {
    if xs != [] {
      var init, last := xs[..|xs| - 1], xs[|xs| - 1];
      assert forall l :: l in xs <==> l in init || l == last;
      CloseEachClients(s, init);
    }
  }

  /** Closing languages other than `l` leaves the record of `l` alone. */
  lemma {:induction false} CloseEachUntouched(s: State, xs: seq<string>, l: string)
    requires l !in xs && l in s.clients
    ensures l in CloseEach(s, xs).clients && CloseEach(s, xs).clients[l] == s.clients[l]
    decreases |xs|
  {
    if xs != [] {
      CloseEachUntouched(s, xs[..|xs| - 1], l);
    }
  }

  /** ... and stops exactly those of them that were running, in the order of `xs`. */
  lemma {:induction false} CloseEachTrace(s: State, xs: seq<string>)
    requires Distinct(xs)
    ensures CloseEach(s, xs).trace == s.trace + StopCalls(RunningIn(s, xs))
    decreases |xs|
  {
    if xs != [] {
      var init, last := xs[..|xs| - 1], xs[|xs| - 1];
      assert Distinct(init);
      assert last !in init;
      CloseEachTrace(s, init);
      var mid := CloseEach(s, init);
      var running := last in s.clients && s.clients[last].status == Running;
      var stop := if running then [StopCall(last)] else [];
      assert CloseEach(s, xs).trace == mid.trace + stop by {
        if last in s.clients { CloseEachUntouched(s, init, last); }
      }
      var ys := RunningIn(s, init);
      assert RunningIn(s, xs) == ys + (if running then [last] else []);
      assert StopCalls(ys + (if running then [last] else [])) == StopCalls(ys) + stop by {
        if running {
          assert (ys + [last])[..|ys|] == ys;
        }
      }
      AppendAssoc(s.trace, StopCalls(ys), stop);
    }
  }

  /** `shutdown`: closes every known language in turn. */
  function Shutdown(s: State): (r: State)
    ensures Wf(s) ==> Wf(r)
  {
    CloseEach(s, s.languages)
  }

  /**
   After `shutdown` every record is stopped, with one stop call per language
   that was running, and nothing else changes.
   */
  lemma ShutdownEffect(s: State)
    requires Wf(s)
    ensures var r := Shutdown(s);
      && r.clients.Keys == s.clients.Keys && r.languages == s.languages && r.queues == s.queues
      && (forall l :: l in s.clients ==> r.clients[l] == s.clients[l].(status := Stopped))
      && r.trace == s.trace + StopCalls(RunningIn(s, s.languages))
      && Distinct(RunningIn(s, s.languages))
      && (forall l :: l in RunningIn(s, s.languages) <==> l in s.clients && s.clients[l].status == Running)
  {
    CloseEachClients(s, s.languages);
    CloseEachTrace(s, s.languages);
  }

  /** The languages of `xs` that are not in `active`, in order. */
  function Outside(xs: seq<string>, active: set<string>): (ys: seq<string>)
    ensures forall l :: l in ys <==> l in xs && l !in active
    ensures Distinct(xs) ==> Distinct(ys)
    decreases |xs|
  {
    if xs == [] then []
    else
      var init, last := xs[..|xs| - 1], xs[|xs| - 1];
      assert forall l :: l in xs <==> l in init || l == last;
      Outside(init, active) + (if last in active then [] else [last])
  }

  /** `update_client_status`: closes every known language that is not in `active`. */
  function UpdateClientStatus(s: State, active: set<string>): (r: State)
    ensures Wf(s) ==> Wf(r)
  {
    CloseInactive(s, s.languages, active)
  }

  /**
   After `update_client_status` exactly the languages outside `active` are
   stopped, with one stop call per such language that was running; those
   inside keep their records unchanged.
   */
  lemma UpdateClientStatusEffect(s: State, active: set<string>)
    requires Wf(s)
    ensures var r := UpdateClientStatus(s, active);
      && r.clients.Keys == s.clients.Keys && r.languages == s.languages && r.queues == s.queues
      && (forall l :: l in s.clients && l !in active ==> r.clients[l] == s.clients[l].(status := Stopped))
      && (forall l :: l in s.clients && l in active ==> r.clients[l] == s.clients[l])
      && r.trace == s.trace + StopCalls(RunningIn(s, Outside(s.languages, active)))
  {
    var xs := Outside(s.languages, active);
    CloseEachClients(s, xs);
    CloseEachTrace(s, xs);
    CloseInactiveIsCloseEach(s, s.languages, active);
  }

  /** The loop of `update_client_status` over `xs`: close each language not in `active`. */
  function CloseInactive(s: State, xs: seq<string>, active: set<string>): (r: State)
    ensures Wf(s) ==> Wf(r)
    ensures r.languages == s.languages && r.clients.Keys == s.clients.Keys
    decreases |xs|
  {
    if xs == [] then s
    else
      var prev := CloseInactive(s, xs[..|xs| - 1], active);
      if xs[|xs| - 1] in active then prev else CloseClient(prev, xs[|xs| - 1])
  }

  /** One more step of `CloseInactive` along a prefix of `xs`. */
  lemma CloseInactiveStep(s: State, xs: seq<string>, i: nat, active: set<string>)
    requires i < |xs|
    ensures CloseInactive(s, xs[..i + 1], active) ==
      var prev := CloseInactive(s, xs[..i], active);
      if xs[i] in active then prev else CloseClient(prev, xs[i])
  {
    assert xs[..i + 1][..i] == xs[..i];
  }

  /** Closing the inactive languages one by one is closing the sublist outside `active`. */
  lemma {:induction false} CloseInactiveIsCloseEach(s: State, xs: seq<string>, active: set<string>)
    ensures CloseInactive(s, xs, active) == CloseEach(s, Outside(xs, active))
    decreases |xs|
  {
    if xs != [] {
      var init, last := xs[..|xs| - 1], xs[|xs| - 1];
      CloseInactiveIsCloseEach(s, init, active);
      var ys := Outside(init, active);
      if last in active {
        assert Outside(xs, active) == ys + [] == ys;
      } else {
        assert Outside(xs, active) == ys + [last];
        assert (ys + [last])[..|ys|] == ys;
        assert CloseEach(s, ys + [last]) == CloseClient(CloseEach(s, ys), last);
      }
    }
  }

  // ---------------------------------------------------------------------------
  // Reinitialisation and requests

  /** Running clients have an instance (part of `Wf`). */
  ghost predicate InstancesPresent(s: State)
  {
    forall l :: l in s.clients ==> RunningHasInstance(s.clients[l])
  }

  /** The record of a running client whose instance was given the current root folder. */
  function Reinitialized(rec: Record, lang: string, env: Env): (r: Record)
    requires rec.instance.Some?
    ensures r.status == rec.status && r.config == rec.config
    ensures r.instance == Some(rec.instance.value.(folder := GetRootPath(lang, env)))
  {
    rec.(instance := Some(rec.instance.value.(folder := GetRootPath(lang, env))))
  }

  /** Sets the root folder of a running client and re-sends `initialize`. */
  function ReinitOne(s: State, lang: string, env: Env): (r: State)
    requires InstancesPresent(s)
    ensures InstancesPresent(r) && (Wf(s) ==> Wf(r))
    ensures r.languages == s.languages && r.queues == s.queues && r.plugins == s.plugins
    ensures r.clients.Keys == s.clients.Keys
  {
    if lang in s.clients && s.clients[lang].status == Running then
      s.(clients := s.clients[lang := Reinitialized(s.clients[lang], lang, env)],
         trace := s.trace + [ReinitCall(lang, GetRootPath(lang, env))])
    else s
  }

  function ReinitEach(s: State, xs: seq<string>, env: Env): (r: State)
    requires InstancesPresent(s)
    ensures InstancesPresent(r) && (Wf(s) ==> Wf(r))
    ensures r.languages == s.languages && r.queues == s.queues && r.plugins == s.plugins
    ensures r.clients.Keys == s.clients.Keys
    decreases |xs|
  {
    if xs == [] then s
    else ReinitOne(ReinitEach(s, xs[..|xs| - 1], env), xs[|xs| - 1], env)
  }

  /** One more step of `ReinitEach` along a prefix of `xs`. */
  lemma ReinitEachStep(s: State, xs: seq<string>, i: nat, env: Env)
    requires InstancesPresent(s) && i < |xs|
    ensures ReinitEach(s, xs[..i + 1], env) == ReinitOne(ReinitEach(s, xs[..i], env), xs[i], env)
  {
    assert xs[..i + 1][..i] == xs[..i];
  }

  function ReinitCalls(xs: seq<string>, env: Env): (evs: seq<Event>)
    ensures |evs| == |xs|
    ensures forall i :: 0 <= i < |xs| ==> evs[i] == ReinitCall(xs[i], GetRootPath(xs[i], env))
    decreases |xs|
  {
    if xs == [] then []
    else ReinitCalls(xs[..|xs| - 1], env) + [ReinitCall(xs[|xs| - 1], GetRootPath(xs[|xs| - 1], env))]
  }

  /** Reinitialising the languages `xs` touches the record of `l` only if `l` is among them and running. */
  lemma {:induction false} ReinitEachRecord(s: State, xs: seq<string>, env: Env, l: string)
    requires InstancesPresent(s) && l in s.clients
    ensures var r := ReinitEach(s, xs, env);
      l in r.clients &&
      r.clients[l] == if l in xs && s.clients[l].status == Running
                      then Reinitialized(s.clients[l], l, env) else s.clients[l]
    decreases |xs|
  {
    if xs != [] {
      var init := xs[..|xs| - 1];
      assert l in xs <==> l in init || l == xs[|xs| - 1];
      ReinitEachRecord(s, init, env, l);
    }
  }

  /** ... and makes one reinitialisation call per running language of `xs`, in order. */
  lemma {:induction false} ReinitEachTrace(s: State, xs: seq<string>, env: Env)
    requires InstancesPresent(s)
    ensures ReinitEach(s, xs, env).trace == s.trace + ReinitCalls(RunningIn(s, xs), env)
    decreases |xs|
  {
    if xs != [] {
      var init, last := xs[..|xs| - 1], xs[|xs| - 1];
      ReinitEachTrace(s, init, env);
      var mid := ReinitEach(s, init, env);
      var running := last in s.clients && s.clients[last].status == Running;
      var call := if running then [ReinitCall(last, GetRootPath(last, env))] else [];
      assert ReinitEach(s, xs, env).trace == mid.trace + call by {
        if last in s.clients { ReinitEachRecord(s, init, env, last); }
      }
      var ys := RunningIn(s, init);
      assert RunningIn(s, xs) == ys + (if running then [last] else []);
      assert ReinitCalls(ys + (if running then [last] else []), env) == ReinitCalls(ys, env) + call by {
        if running {
          assert (ys + [last])[..|ys|] == ys;
        }
      }
      AppendAssoc(s.trace, ReinitCalls(ys, env), call);
    }
  }

  /** `reinitialize_all_clients`: reinitialises every known language in turn. */
  function ReinitializeAllClients(s: State, env: Env): (r: State)
    requires InstancesPresent(s)
    ensures InstancesPresent(r) && (Wf(s) ==> Wf(r))
  {
    ReinitEach(s, s.languages, env)
  }

  /**
   `reinitialize_all_clients` touches only running clients: each gets the
   current root path and one reinitialisation call, in order; no status changes.
   */
  lemma ReinitializeAllClientsEffect(s: State, env: Env)
    requires Wf(s)
    ensures var r := ReinitializeAllClients(s, env);
      && r.clients.Keys == s.clients.Keys && r.languages == s.languages && r.queues == s.queues
      && (forall l :: l in s.clients ==>
            r.clients[l] == if s.clients[l].status == Running then Reinitialized(s.clients[l], l, env) else s.clients[l])
      && r.trace == s.trace + ReinitCalls(RunningIn(s, s.languages), env)
  {
    ReinitEachClients(s, s.languages, env);
    ReinitEachTrace(s, s.languages, env);
  }

  lemma ReinitEachClients(s: State, xs: seq<string>, env: Env)
    requires InstancesPresent(s)
    ensures var r := ReinitEach(s, xs, env);
      forall l :: l in s.clients ==>
        r.clients[l] == if l in xs && s.clients[l].status == Running
                        then Reinitialized(s.clients[l], l, env) else s.clients[l]
  {
    forall l | l in s.clients
      ensures var r := ReinitEach(s, xs, env);
        r.clients[l] == if l in xs && s.clients[l].status == Running
                        then Reinitialized(s.clients[l], l, env) else s.clients[l]
    {
      ReinitEachRecord(s, xs, env, l);
    }
  }

  /** `send_request`: forwarded to a running client only, never queued. */
  function SendRequest(s: State, lang: string, request: string, params: string): (r: State)
    ensures Wf(s) ==> Wf(r)
    ensures r.clients == s.clients && r.languages == s.languages && r.queues == s.queues && r.plugins == s.plugins
    ensures r.trace == s.trace + [PerformCall(lang, request, params)] <==>
      lang in s.clients && s.clients[lang].status == Running
    ensures !(lang in s.clients && s.clients[lang].status == Running) ==> r == s
  {
    if lang in s.clients && s.clients[lang].status == Running then
      s.(trace := s.trace + [PerformCall(lang, request, params)])
    else s
  }

  // ---------------------------------------------------------------------------
  // Configuration updates

  /** The fields compared by `update_server_list` (`restart_diff`). */
  datatype RestartField = Cmd | Args | Host | Port | External

  const RestartDiff: seq<RestartField> := [Cmd, Args, Host, Port, External]

  predicate Differs(a: Config, b: Config, f: RestartField)
  {
    match f
    case Cmd => a.cmd != b.cmd
    case Args => a.args != b.args
    case Host => a.host != b.host
    case Port => a.port != b.port
    case External => a.external != b.external
  }

  /** `any([...])` over a list of fields. */
  predicate AnyDiffers(a: Config, b: Config, fs: seq<RestartField>)
    decreases |fs|
  {
    fs != [] && (Differs(a, b, fs[0]) || AnyDiffers(a, b, fs[1..]))
  }

  predicate NeedsRestart(current: Config, next: Config)
  {
    AnyDiffers(current, next, RestartDiff)
  }

  /** The part of a configuration that decides a restart. */
  function Endpoint(c: Config): (string, string, string, int, bool)
  {
    (c.cmd, c.args, c.host, c.port, c.external)
  }

  /** A restart is needed exactly when one of the five restart fields differs. */
  lemma NeedsRestartIff(a: Config, b: Config)
    ensures NeedsRestart(a, b) <==> Endpoint(a) != Endpoint(b)
  {
    assert RestartDiff[1..] == [Args, Host, Port, External];
    assert RestartDiff[2..] == [Host, Port, External];
    assert RestartDiff[3..] == [Port, External];
    assert RestartDiff[4..] == [External];
  }

  /** A change confined to the plugin configurations never restarts the server. */
  lemma PluginConfigurationsNeverRestart(a: Config, c: PluginConfigurations)
    ensures !NeedsRestart(a, a.(configurations := c))
  {
    NeedsRestartIff(a, a.(configurations := c));
  }

  /** Replaces the record of a known language by a fresh stopped one; its queue is kept. */
  function ReplaceRecord(s: State, lang: string, config: Config): (r: State)
    requires lang in s.clients
    ensures Wf(s) ==> Wf(r)
    ensures r.clients == s.clients[lang := FreshRecord(config)]
    ensures r.languages == s.languages && r.queues == s.queues && r.plugins == s.plugins && r.trace == s.trace
  {
    s.(clients := s.clients[lang := FreshRecord(config)])
  }

  /** Restarting a running client after its restart fields changed: close, fresh record, start. */
  function RestartRunning(s: State, lang: string, config: Config, env: Env): (r: State)
    requires Wf(s) && lang in s.clients && s.clients[lang].status == Running
    ensures Wf(r)
    ensures r.languages == s.languages && r.queues == s.queues && r.plugins == s.plugins
    ensures r.clients.Keys == s.clients.Keys
  {
    var replaced := ReplaceRecord(CloseClient(s, lang), lang, config);
    assert replaced.queues[lang] == [] by {
      assert RecordOk(s.clients[lang], s.queues[lang]);
    }
    assert replaced.queues[lang := []] == s.queues;
    StartClient(replaced, lang, env).0
  }

  /**
   The restart makes exactly one stop call and then one start call (none when
   starts are suppressed), builds the new instance from the new configuration,
   and leaves the other languages alone.
   */
  lemma RestartRunningEffect(s: State, lang: string, config: Config, env: Env)
    requires Wf(s) && lang in s.clients && s.clients[lang].status == Running
    ensures var r := RestartRunning(s, lang, config, env);
      && (forall l :: l in s.clients && l != lang ==> r.clients[l] == s.clients[l])
      && (Suppressed(env) ==> r.clients[lang] == FreshRecord(config) && r.trace == s.trace + [StopCall(lang)])
      && (!Suppressed(env) ==>
            && r.clients[lang].status == Running
            && r.clients[lang].config == StartedConfig(config, env)
            && r.clients[lang].instance == Some(Instance(lang, StartedConfig(config, env), GetRootPath(lang, env), s.plugins))
            && r.trace == s.trace + [StopCall(lang), StartCall(lang)])
  {
    var closed := CloseClient(s, lang);
    var replaced := ReplaceRecord(closed, lang, config);
    assert replaced.queues[lang] == [] by {
      assert RecordOk(s.clients[lang], s.queues[lang]);
    }
    assert Registrations(lang, []) == [];
    AppendAssoc(s.trace, [StopCall(lang)], [StartCall(lang)]);
  }

  /**
   One iteration of `update_server_list` for the option `opt`: unsupported
   options are skipped; a new language gets a fresh stopped record and an empty
   queue; a known one keeps its configuration and, when running, receives the
   new plugin configurations, unless a restart field changed, in which case the
   record is replaced, and a running client is closed before and started after.
   */
  function ApplyOption(s: State, opt: ServerOption, supported: set<string>, env: Env): (r: State)
    requires Wf(s)
    ensures Wf(r)
    ensures r.plugins == s.plugins
    ensures opt.language !in supported ==> r == s
    ensures opt.language in supported ==> r.clients.Keys == s.clients.Keys + {opt.language}
    ensures forall l :: l in s.clients && l != opt.language ==> r.clients[l] == s.clients[l] && r.queues[l] == s.queues[l]
    ensures var lang := opt.language;
      lang in supported && lang !in s.clients ==>
        && r.clients[lang] == FreshRecord(opt.config) && r.queues[lang] == []
        && r.languages == s.languages + [lang] && r.trace == s.trace
    ensures var lang := opt.language;
      lang in supported && lang in s.clients && !NeedsRestart(s.clients[lang].config, opt.config) ==>
        && r.clients == s.clients && r.queues == s.queues && r.languages == s.languages
        && r.trace == s.trace +
             (if s.clients[lang].status == Running then [SendConfCall(lang, opt.config.configurations)] else [])
    ensures var lang := opt.language;
      lang in supported && lang in s.clients && NeedsRestart(s.clients[lang].config, opt.config) &&
      s.clients[lang].status == Stopped ==>
        r == ReplaceRecord(s, lang, opt.config)
    ensures var lang := opt.language;
      lang in supported && lang in s.clients && NeedsRestart(s.clients[lang].config, opt.config) &&
      s.clients[lang].status == Running ==>
        && r.queues == s.queues && r.languages == s.languages
        && (Suppressed(env) ==>
              r.clients[lang] == FreshRecord(opt.config) && r.trace == s.trace + [StopCall(lang)])
        && (!Suppressed(env) ==>
              && r.clients[lang].status == Running
              && r.clients[lang].config == StartedConfig(opt.config, env)
              && r.clients[lang].instance.value.settings == StartedConfig(opt.config, env)
              && r.trace == s.trace + [StopCall(lang), StartCall(lang)])
  {
    var lang := opt.language;
    if lang !in supported then s
    else if lang !in s.clients then AddLanguage(s, lang, opt.config)
    else
      var rec := s.clients[lang];
      if NeedsRestart(rec.config, opt.config) then
        if rec.status == Stopped then ReplaceRecord(s, lang, opt.config)
        else
          RestartRunningEffect(s, lang, opt.config, env);
          RestartRunning(s, lang, opt.config, env)
      else if rec.status == Running then
        s.(trace := s.trace + [SendConfCall(lang, opt.config.configurations)])
      else s
  }

  function ApplyEach(s: State, options: seq<ServerOption>, supported: set<string>, env: Env): (r: State)
    requires Wf(s)
    ensures Wf(r)
    ensures r.plugins == s.plugins
    decreases |options|
  {
    if options == [] then s
    else ApplyOption(ApplyEach(s, options[..|options| - 1], supported, env), options[|options| - 1], supported, env)
  }

  /** After the refresh, the known languages are the old ones plus every supported option. */
  lemma {:induction false} ApplyEachKeys(s: State, options: seq<ServerOption>, supported: set<string>, env: Env)
    requires Wf(s)
    ensures var r := ApplyEach(s, options, supported, env);
      r.clients.Keys == s.clients.Keys + OptionLanguages(options) * supported
    decreases |options|
  {
    if options != [] {
      ApplyEachKeys(s, options[..|options| - 1], supported, env);
    }
  }

  function LowerChar(c: char): char
  {
    if 'A' <= c <= 'Z' then (c as int - 'A' as int + 'a' as int) as char else c
  }

  function Lower(s: string): (r: string)
    ensures |r| == |s|
  {
    seq(|s|, i requires 0 <= i < |s| => LowerChar(s[i]))
  }

  /** `[l.lower() for l in LSP_LANGUAGES]`, as a set of names. */
  function Supported(lspLanguages: seq<string>): (r: set<string>)
    ensures forall l :: l in lspLanguages ==> Lower(l) in r
    ensures forall name :: name in r ==> exists l :: l in lspLanguages && name == Lower(l)
  {
    set l | l in lspLanguages :: Lower(l)
  }

  /** `update_server_list` over the options of the `lsp-server` section. */
  function UpdateServerList(s: State, options: seq<ServerOption>, lspLanguages: seq<string>, env: Env): (r: State)
    requires Wf(s)
    ensures Wf(r)
    ensures r.clients.Keys == s.clients.Keys + OptionLanguages(options) * Supported(lspLanguages)
  {
    ApplyEachKeys(s, options, Supported(lspLanguages), env);
    ApplyEach(s, options, Supported(lspLanguages), env)
  }

  // ---------------------------------------------------------------------------
  // Properties across several calls

  /** A second `start_client` on a started client changes nothing and reports it was running. */
  lemma StartIdempotent(s: State, lang: string, env: Env)
    requires Wf(s) && lang in s.clients && !Suppressed(env)
    ensures var t := StartClient(s, lang, env).0;
      t.clients[lang].status == Running && StartClient(t, lang, env) == (t, true)
  {
  }

  /**
   Files registered while a client has no instance reach it, after the
   already-queued ones and in the order they were registered, when it is started,
   and the queue is empty afterwards.
   */
  lemma {:induction false} QueueThenDrain(s: State, lang: string, ps: seq<Pending>, env: Env)
    requires Wf(s) && lang in s.clients && s.clients[lang].instance.None? && !Suppressed(env)
    ensures var t := StartClient(RegisterAll(s, lang, ps), lang, env);
      && !t.1
      && t.0.clients[lang].status == Running
      && t.0.queues[lang] == []
      && t.0.trace == s.trace + [StartCall(lang)] + Registrations(lang, s.queues[lang] + ps)
  {
    RegisterAllQueues(s, lang, ps);
  }

  lemma {:induction false} RegisterAllQueues(s: State, lang: string, ps: seq<Pending>)
    requires HasQueues(s) && lang in s.clients && s.clients[lang].instance.None?
    ensures var t := RegisterAll(s, lang, ps);
      t.trace == s.trace && t.queues[lang] == s.queues[lang] + ps
    decreases |ps|
  {
    if ps != [] {
      var init, last := ps[..|ps| - 1], ps[|ps| - 1];
      RegisterAllQueues(s, lang, init);
      assert ps == init + [last];
      AppendAssoc(s.queues[lang], init, [last]);
    }
  }

  /**
   `close_client` keeps the instance, so a file registered after a close is
   forwarded to the stopped instance and not queued for the next start.
   */
  lemma RegisterAfterClose(s: State, lang: string, filename: string, signal: Signal)
    requires Wf(s) && lang in s.clients && s.clients[lang].status == Running
    ensures var t := RegisterFile(CloseClient(s, lang), lang, filename, signal);
      && t.clients[lang].status == Stopped
      && t.queues[lang] == s.queues[lang]
      && t.trace == s.trace + [StopCall(lang), RegisterCall(lang, filename, signal)]
  {
  }
}
