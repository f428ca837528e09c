/**
 `start_client` exactly as written at spyder/plugins/editor/lsp/manager.py:151-153:
 the queued registrations are handed to `language_client`, the record
 dictionary, instead of `language_client['instance']`. A dictionary has no
 `register_file`, so the first queued entry raises `AttributeError` after the
 client was started and marked running, and the queue is never emptied.
 Module Lifecycle models the evidently intended hand-off (`Lifecycle.StartClient`).
 */
module DrainAsWritten {
  import opened LspTypes
  import opened Lifecycle
  import opened SeqFacts

  /** How a call ends: it returns a value, or raises and leaves the state it reached. */
  datatype Outcome = Returned(state: State, started: bool) | Raised(state: State)

  /**
   `start_client` as written. With an empty queue it behaves like the
   intended version; with a non-empty one it raises once the client is
   started and running, before any registration reaches the instance.
   */
  function StartClientAsWritten(s: State, lang: string, env: Env): (o: Outcome)
    requires HasQueues(s)
    ensures o.Raised? <==>
      lang in s.clients && !Suppressed(env) && s.clients[lang].status == Stopped && s.queues[lang] != []
    ensures o.Returned? ==> (o.state, o.started) == StartClient(s, lang, env)
    ensures o.Raised? ==>
      && o.state.clients == StartClient(s, lang, env).0.clients
      && o.state.queues == s.queues
      && o.state.trace == s.trace + [StartCall(lang)]
  {
    if lang !in s.clients || Suppressed(env) then Returned(s, false)
    else
      var rec := s.clients[lang];
      if rec.status == Running then Returned(s, true)
      else
        var config := StartedConfig(rec.config, env);
        var instance := Instance(lang, config, GetRootPath(lang, env), s.plugins);
        var running := s.(clients := s.clients[lang := Record(Running, config, Some(instance))],
                          trace := s.trace + [StartCall(lang)]);
        if s.queues[lang] == [] then
          assert running.trace + Registrations(lang, []) == running.trace;
          assert StartClient(s, lang, env).0 == running.(queues := s.queues[lang := []]);
          Returned(running.(queues := s.queues[lang := []]), false)
        else
          assert rec.status == Stopped;
          Raised(running)
  }

  /**
   The registrations queued before the start are lost: the call raises, the
   client is running with an instance but no file was registered with it,
   the entries stay queued next to an instance (so the state is no longer
   well formed). The next `start_client` on that state reports the client as
   running and changes nothing; after a `close_client` the next start raises
   again, still without draining them. The intended version hands all of them over.
   */
  lemma LostRegistrations(s: State, lang: string, env: Env)
    requires Wf(s) && lang in s.clients && !Suppressed(env)
    requires s.clients[lang].status == Stopped && s.queues[lang] != []
    ensures var o := StartClientAsWritten(s, lang, env);
      && o.Raised?
      && o.state.clients[lang].status == Running && o.state.clients[lang].instance.Some?
      && o.state.queues[lang] == s.queues[lang]
      && o.state.trace == s.trace + [StartCall(lang)]
      && !Wf(o.state)
      && StartClientAsWritten(o.state, lang, env) == Returned(o.state, true)
      && StartClient(s, lang, env).0.trace == s.trace + [StartCall(lang)] + Registrations(lang, s.queues[lang])
      && |Registrations(lang, s.queues[lang])| > 0
    ensures var o := StartClientAsWritten(s, lang, env);
      var again := StartClientAsWritten(CloseClient(o.state, lang), lang, env);
      && again.Raised?
      && again.state.queues[lang] == s.queues[lang]
      && again.state.trace == o.state.trace + [StopCall(lang), StartCall(lang)]
  {
    var o := StartClientAsWritten(s, lang, env);
    assert !RecordOk(o.state.clients[lang], o.state.queues[lang]);
    RaisesAgainAfterClose(o.state, lang, env);
  }

  /**
   A running client whose queue was left non-empty: closing it and starting
   it again raises again, after a stop call and a start call, with the queue
   still untouched.
   */
  lemma RaisesAgainAfterClose(t: State, lang: string, env: Env)
    requires HasQueues(t) && lang in t.clients && !Suppressed(env)
    requires t.clients[lang].status == Running && t.queues[lang] != []
    ensures var again := StartClientAsWritten(CloseClient(t, lang), lang, env);
      && again.Raised?
      && again.state.queues == t.queues
      && again.state.trace == t.trace + [StopCall(lang), StartCall(lang)]
  {
    var closed := CloseClient(t, lang);
    assert closed.trace == t.trace + [StopCall(lang)];
    AppendAssoc(t.trace, [StopCall(lang)], [StartCall(lang)]);
  }

  /** A concrete input: a stopped Python client with one file queued before the start. */
  lemma OneQueuedFile()
    ensures var cfg := Config("pyls", "", "127.0.0.1", 2087, false, PluginConfigurations(""));
      var s := State(map["python" := Record(Stopped, cfg, None)], ["python"],
                     map["python" := [Pending("a.py", Signal("sig"))]], map[], []);
      var env := Env(None, None, None, "/conf/lsp_root_path", "/home", p => p);
      StartClientAsWritten(s, "python", env).Raised?
  {
    var cfg := Config("pyls", "", "127.0.0.1", 2087, false, PluginConfigurations(""));
    var s := State(map["python" := Record(Stopped, cfg, None)], ["python"],
                   map["python" := [Pending("a.py", Signal("sig"))]], map[], []);
    var env := Env(None, None, None, "/conf/lsp_root_path", "/home", p => p);
    assert Wf(s) by {
      assert Elements(s.languages) == {"python"};
    }
    LostRegistrations(s, "python", env);
  }
}
