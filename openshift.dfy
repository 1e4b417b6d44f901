/**
 * The cluster collaborators the project handler talks to, seen only through
 * their effect on process-wide state: the current context, the registry of
 * named contexts, and a trace of the administration calls made.
 */
module OpenShift {
  import opened Wrappers

  /** A cluster context: credentials together with the namespace it selects. */
  datatype Context = Context(name: string, username: string, password: string, namespace: string)

  /** The administration calls the handler issues. */
  datatype Action = Recreate(namespace: string) | CreateSecret | Delete(namespace: string)

  /** One administration call, tagged with the context that was current when it ran. */
  datatype Entry = Entry(action: Action, under: Option<Context>)

  /** How recreateProject ends: it returns, throws TimeoutException, or throws anything else. */
  datatype RecreateOutcome = Created | TimedOut | Failed

  /**
   * Read-only configuration: the master namespace, the master credentials
   * and the name under which the admin context is registered.
   */
  datatype Config = Config(
    masterNamespace: Option<string>,
    masterUsername: string,
    masterPassword: string,
    adminContextName: string)

  /** The ambient state as a value. */
  datatype World = World(current: Option<Context>, registry: map<string, Context>, trace: seq<Entry>)

  /** Looking a context up by name; an unknown name gives null. */
  function LookupContext(registry: map<string, Context>, name: string): Option<Context>
  {
    if name in registry then Some(registry[name]) else None
  }

  /** The number of entries of `t` that record action `a`. */
  function Count(t: seq<Entry>, a: Action): nat
  {
    if t == [] then 0
    else Count(t[..|t| - 1], a) + (if t[|t| - 1].action == a then 1 else 0)
  }

  lemma {:induction false} CountAppend(s: seq<Entry>, t: seq<Entry>, a: Action)
    ensures Count(s + t, a) == Count(s, a) + Count(t, a)
  {
    if t != [] {
      assert (s + t)[..|s + t| - 1] == s + t[..|t| - 1];
      CountAppend(s, t[..|t| - 1], a);
    } else {
      assert s + t == s;
    }
  }

  /**
   * The process-wide cluster state: which context is current, which contexts
   * are registered, and which administration calls have run.
   */
  class Cluster {
    const config: Config
    var current: Option<Context>
    var registry: map<string, Context>
    var trace: seq<Entry>

    function State(): World
      reads this
    {
      World(current, registry, trace)
    }

    constructor (config: Config, current: Option<Context>, registry: map<string, Context>)
      ensures this.config == config
      ensures State() == World(current, registry, [])
    {
      this.config := config;
      this.current := current;
      this.registry := registry;
      this.trace := [];
    }

    /** The context registered under `name`, or null. */
    function GetContext(name: string): (r: Option<Context>)
      reads this
      ensures r.Some? <==> name in registry
      ensures r.Some? ==> r.value == registry[name]
    {
      LookupContext(registry, name)
    }

    /** Makes `c` the current context. */
    method SetContext(c: Option<Context>)
      modifies this
      ensures State() == old(State()).(current := c)
    {
      current := c;
    }

    /** Registers a new context under `name`, replacing any context of that name. */
    method NewContext(name: string, username: string, password: string, namespace: string)
      modifies this
      ensures State() == old(State()).(registry := old(registry)[name := Context(name, username, password, namespace)])
    {
      registry := registry[name := Context(name, username, password, namespace)];
    }

    /** Runs an administration call under the current context. */
    method Record(a: Action)
      modifies this
      ensures State() == old(State()).(trace := old(trace) + [Entry(a, old(current))])
    {
      trace := trace + [Entry(a, current)];
    }

    /** Recreates namespace `ns`; how the call ends is given by `outcome`. */
    method RecreateProject(ns: string, outcome: RecreateOutcome) returns (r: RecreateOutcome)
      modifies this
      ensures r == outcome
      ensures State() == old(State()).(trace := old(trace) + [Entry(Recreate(ns), old(current))])
    {
      Record(Recreate(ns));
      r := outcome;
    }

    /** Creates the registry pull secret in the current context's namespace. */
    method CreateORegSecret()
      modifies this
      ensures State() == old(State()).(trace := old(trace) + [Entry(CreateSecret, old(current))])
    {
      Record(CreateSecret);
    }

    /** Deletes namespace `ns`. */
    method DeleteProject(ns: string)
      modifies this
      ensures State() == old(State()).(trace := old(trace) + [Entry(Delete(ns), old(current))])
    {
      Record(Delete(ns));
    }
  }
}
