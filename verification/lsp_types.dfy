/**
 The values the language-server manager keeps per language, the calls it
 makes on client instances, and the inputs it reads from outside (process
 environment, project state, configuration directory, port selection).
 */
module LspTypes {

  datatype Option<+T> = None | Some(value: T)

  /** The two states of a client record (`STOPPED`, `RUNNING`). */
  datatype Status = Stopped | Running

  /** A Qt signal handed through to the client; the manager never looks inside it. */
  datatype Signal = Signal(name: string)

  /** The per-plugin `configurations` part of a server configuration, passed through unread. */
  datatype PluginConfigurations = PluginConfigurations(blob: string)

  /**
   A server configuration. The five fields that decide a restart are explicit;
   everything the manager only forwards is kept in `configurations`.
   */
  datatype Config = Config(
    cmd: string,
    args: string,
    host: string,
    port: int,
    external: bool,
    configurations: PluginConfigurations)

  /**
   What the manager hands a newly constructed client: its language, the server
   settings, the root folder, and the plugin types replayed into it.
   */
  datatype Instance = Instance(
    language: string,
    settings: Config,
    folder: string,
    plugins: map<string, Signal>)

  /** One entry of `clients`: `{status, config, instance}`. */
  datatype Record = Record(status: Status, config: Config, instance: Option<Instance>)

  /** One entry of a registration queue: `(filename, signal)`. */
  datatype Pending = Pending(filename: string, signal: Signal)

  /** A call the manager makes on a client instance. */
  datatype Event =
    | StartCall(language: string)
    | StopCall(language: string)
    | RegisterCall(language: string, filename: string, signal: Signal)
    | SendConfCall(language: string, configurations: PluginConfigurations)
    | PerformCall(language: string, request: string, params: string)
    | ReinitCall(language: string, folder: string)

  /** One option of the `lsp-server` configuration section with its value. */
  datatype ServerOption = ServerOption(language: string, config: Config)

  /**
   Everything outside the manager that its methods read:
   the `CI` and `SPY_TEST_USE_INTROSPECTION` environment variables (None when unset),
   the active project path (None when there is no main window, no projects
   plugin or no active project), the configuration-directory path
   `lsp_root_path`, the result of `getcwd_or_home()`, and `select_port`
   as a function of the default port.
   */
  datatype Env = Env(
    ci: Option<string>,
    useIntrospection: Option<string>,
    activeProject: Option<string>,
    lspRootPath: string,
    cwdOrHome: string,
    selectPort: int -> int)

  /** Python truthiness of an environment lookup: set and non-empty. */
  predicate Truthy(v: Option<string>)
  {
    v.Some? && v.value != ""
  }

  /** Clients are not started on CI unless introspection is asked for explicitly. */
  predicate Suppressed(env: Env)
  {
    Truthy(env.ci) && !Truthy(env.useIntrospection)
  }
}
