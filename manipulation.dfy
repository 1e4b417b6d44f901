/**
 * The project handler: one single-use object that names a test namespace,
 * prepares it (switching contexts and recreating it as admin) and cleans it up.
 */
module Manipulation {
  import opened Wrappers
  import opened OpenShift

  /** Suffix of a namespace the handler derives itself. */
  const TEMP_NAMESPACE_IDENTIFIER := "-automated"

  /**
   * isNotBlank: the string is present and holds a character that the
   * whitespace test `isSpace` rejects.
   */
  predicate IsNotBlank(s: Option<string>, isSpace: char -> bool)
    ensures IsNotBlank(s, isSpace) ==> s.Some? && |s.value| > 0
  {
    s.Some? && exists i :: 0 <= i < |s.value| && !isSpace(s.value[i])
  }

  /** The handler's fields as a value. */
  datatype Handler = Handler(
    project: string,
    namespace: string,
    temporary: bool,
    originalContext: Option<Context>,
    used: bool)

  /** How prepare ends: normally, by IllegalStateException, or by an error it lets through. */
  datatype Status = Completed | IllegalState | Propagated

  /** A handler and a cluster state after an operation, with how the operation ended. */
  datatype Transition = Transition(handler: Handler, world: World, status: Status)

  /** The cluster state after createProject, and whether createProject returned normally. */
  datatype Step = Step(world: World, returned: bool)

  /** Two handler states agree on what only the constructor sets. */
  predicate SameIdentity(h: Handler, h': Handler)
  {
    h'.project == h.project && h'.namespace == h.namespace && h'.temporary == h.temporary
  }

  /** The handler as constructed from a project and an optional namespace. */
  function NewHandler(project: string, namespace: Option<string>, isSpace: char -> bool): (h: Handler)
    ensures h.project == project && h.originalContext == None && !h.used
    ensures IsNotBlank(namespace, isSpace) ==> h.namespace == namespace.value && !h.temporary
    ensures !IsNotBlank(namespace, isSpace) ==> h.namespace == project + TEMP_NAMESPACE_IDENTIFIER && h.temporary
  {
    if IsNotBlank(namespace, isSpace) then Handler(project, namespace.value, false, None, false)
    else Handler(project, project + TEMP_NAMESPACE_IDENTIFIER, true, None, false)
  }

  /** The context prepare registers for a temporary namespace. */
  function TempContext(h: Handler, cfg: Config): Context
  {
    Context(h.project, cfg.masterUsername, cfg.masterPassword, h.namespace)
  }

  /**
   * createProject(ns): remember the current context, switch to the admin
   * context, recreate `ns` (a timeout is tolerated), switch back and create
   * the registry secret. Any other error leaves the admin context current.
   */
  function CreateProjectSpec(w: World, cfg: Config, ns: string, outcome: RecreateOutcome): (r: Step)
    ensures r.world.registry == w.registry
    ensures r.returned <==> outcome != Failed
    ensures r.returned ==> r.world.current == w.current
    ensures !r.returned ==> r.world.current == LookupContext(w.registry, cfg.adminContextName)
    ensures r.world.trace ==
      w.trace + [Entry(Recreate(ns), LookupContext(w.registry, cfg.adminContextName))]
      + (if r.returned then [Entry(CreateSecret, w.current)] else [])
  {
    var saved := w.current;
    var admin := w.(current := LookupContext(w.registry, cfg.adminContextName));
    var recreated := admin.(trace := admin.trace + [Entry(Recreate(ns), admin.current)]);
    if outcome == Failed then Step(recreated, false)
    else
      var restored := recreated.(current := saved);
      Step(restored.(trace := restored.trace + [Entry(CreateSecret, restored.current)]), true)
  }

  /**
   * prepare(): refuse a used handler; otherwise claim it, and for a
   * temporary namespace save the current context and switch to a new one
   * for the project; then create the project.
   */
  function PrepareSpec(h: Handler, w: World, cfg: Config, outcome: RecreateOutcome): (r: Transition)
    ensures SameIdentity(h, r.handler) && r.handler.used
    ensures h.used ==> r == Transition(h, w, IllegalState)
    ensures !h.used ==> r.status == (if outcome == Failed then Propagated else Completed)
    ensures !h.temporary ==> r.handler.originalContext == h.originalContext && r.world.registry == w.registry
    ensures !h.used && h.temporary ==>
      r.handler.originalContext == w.current && r.world.registry == w.registry[h.project := TempContext(h, cfg)]
    ensures !h.used && r.status == Completed ==>
      r.world.current == (if h.temporary then Some(TempContext(h, cfg)) else w.current)
    ensures |w.trace| <= |r.world.trace| && r.world.trace[..|w.trace|] == w.trace
  {
    if h.used then Transition(h, w, IllegalState)
    else
      var claimed := h.(used := true);
      var entered :=
        if h.temporary then
          var registered := w.(registry := w.registry[h.project := TempContext(h, cfg)]);
          registered.(current := LookupContext(registered.registry, h.project))
        else w;
      var saved := if h.temporary then claimed.(originalContext := w.current) else claimed;
      var created := CreateProjectSpec(entered, cfg, h.namespace, outcome);
      Transition(saved, created.world, if created.returned then Completed else Propagated)
  }

  /**
   * cleanup(): for a temporary namespace restore the saved context and then
   * delete the namespace; mark the handler used in every case.
   */
  function CleanupSpec(h: Handler, w: World): (r: Transition)
    ensures SameIdentity(h, r.handler) && r.handler.used && r.handler.originalContext == h.originalContext
    ensures r.status == Completed
    ensures !h.temporary ==> r.world == w
    ensures h.temporary ==>
      r.world == World(h.originalContext, w.registry, w.trace + [Entry(Delete(h.namespace), h.originalContext)])
  {
    var world :=
      if h.temporary then
        var restored := w.(current := h.originalContext);
        restored.(trace := restored.trace + [Entry(Delete(h.namespace), restored.current)])
      else w;
    Transition(h.(used := true), world, Completed)
  }

  /** A call a client can make on a handler. */
  datatype Op = PrepareOp(outcome: RecreateOutcome) | CleanupOp

  function Apply(h: Handler, w: World, cfg: Config, op: Op): Transition
  {
    match op
    case PrepareOp(outcome) => PrepareSpec(h, w, cfg, outcome)
    case CleanupOp => CleanupSpec(h, w)
  }

  /** The state after a sequence of calls, and how many prepare calls got past the guard. */
  datatype Run = Run(handler: Handler, world: World, guardPasses: nat)

  function RunOps(h: Handler, w: World, cfg: Config, ops: seq<Op>): Run
    decreases |ops|
  {
    if ops == [] then Run(h, w, 0)
    else
      var t := Apply(h, w, cfg, ops[0]);
      var rest := RunOps(t.handler, t.world, cfg, ops[1..]);
      rest.(guardPasses := rest.guardPasses + if ops[0].PrepareOp? && !h.used then 1 else 0)
  }

  /** One call appends to the trace exactly one Recreate of the handler's namespace iff it is a prepare that passes the guard. */
  lemma ApplyRecreates(h: Handler, w: World, cfg: Config, op: Op)
    ensures var t := Apply(h, w, cfg, op);
      |w.trace| <= |t.world.trace| && t.world.trace[..|w.trace|] == w.trace &&
      Count(t.world.trace[|w.trace|..], Recreate(h.namespace)) == if op.PrepareOp? && !h.used then 1 else 0
  {
    var t := Apply(h, w, cfg, op);
    var added := t.world.trace[|w.trace|..];
    assert t.world.trace == w.trace + added;
    if op.PrepareOp? && !h.used {
      var first := [added[0]];
      var rest := added[1..];
      assert added == first + rest;
      assert first[..0] == [];
      assert added[0].action == Recreate(h.namespace);
      assert rest == [] || (|rest| == 1 && rest[0].action == CreateSecret && rest[..0] == []);
      CountAppend(first, rest, Recreate(h.namespace));
    } else if op.CleanupOp? && h.temporary {
      assert added == [Entry(Delete(h.namespace), h.originalContext)];
      assert added[..0] == [];
    } else {
      assert added == [];
    }
  }

  /**
   * Over any sequence of calls: the constructor's fields never change, the
   * handler is used once any call was made, at most one prepare passes the
   * guard (none if the handler started used), and the handler's namespace is
   * recreated once per prepare that passed the guard.
   */
  lemma {:induction false} RunInvariants(h: Handler, w: World, cfg: Config, ops: seq<Op>)
    ensures var r := RunOps(h, w, cfg, ops);
      SameIdentity(h, r.handler) &&
      r.handler.used == (h.used || |ops| > 0) &&
      r.guardPasses <= (if h.used then 0 else 1) &&
      |w.trace| <= |r.world.trace| && r.world.trace[..|w.trace|] == w.trace &&
      Count(r.world.trace, Recreate(h.namespace)) == Count(w.trace, Recreate(h.namespace)) + r.guardPasses
    decreases |ops|
  {
    if ops != [] {
      var t := Apply(h, w, cfg, ops[0]);
      ApplyRecreates(h, w, cfg, ops[0]);
      RunInvariants(t.handler, t.world, cfg, ops[1..]);
      var r := RunOps(h, w, cfg, ops);
      assert t.world.trace == w.trace + t.world.trace[|w.trace|..];
      CountAppend(w.trace, t.world.trace[|w.trace|..], Recreate(h.namespace));
      assert r.world.trace[..|w.trace|] == r.world.trace[..|t.world.trace|][..|w.trace|];
    }
  }

  /** A second prepare always fails and changes nothing, however the first one ended. */
  lemma SecondPrepareFails(h: Handler, w: World, cfg: Config, first: RecreateOutcome, second: RecreateOutcome)
    ensures var p := PrepareSpec(h, w, cfg, first);
      PrepareSpec(p.handler, p.world, cfg, second) == Transition(p.handler, p.world, IllegalState)
  {
  }

  /**
   * prepare then cleanup on a temporary handler, however prepare ended:
   * the context current on entry to prepare is current again, and the
   * namespace was deleted exactly once. Had prepare completed, the
   * temporary context was current in between.
   */
  lemma {:induction false} TemporaryLifecycle(h: Handler, w: World, cfg: Config, outcome: RecreateOutcome)
    requires h.temporary && !h.used
    ensures var p := PrepareSpec(h, w, cfg, outcome);
      var c := CleanupSpec(p.handler, p.world);
      c.handler.used &&
      c.world.current == w.current &&
      Count(c.world.trace, Delete(h.namespace)) == Count(w.trace, Delete(h.namespace)) + 1 &&
      (p.status == Completed ==> p.world.current == Some(TempContext(h, cfg)))
  {
    var p := PrepareSpec(h, w, cfg, outcome);
    var c := CleanupSpec(p.handler, p.world);
    var admin := LookupContext(w.registry[h.project := TempContext(h, cfg)], cfg.adminContextName);
    var created := [Entry(Recreate(h.namespace), admin)]
      + (if outcome != Failed then [Entry(CreateSecret, Some(TempContext(h, cfg)))] else []);
    var deleted := [Entry(Delete(h.namespace), w.current)];
    assert c.world.trace == w.trace + created + deleted;
    assert created == [created[0]] + created[1..];
    assert [created[0]][..0] == [] && deleted[..0] == [];
    assert created[1..] == [] || created[1..][..0] == [];
    CountAppend([created[0]], created[1..], Delete(h.namespace));
    CountAppend(w.trace, created, Delete(h.namespace));
    CountAppend(w.trace + created, deleted, Delete(h.namespace));
  }

  /** A timeout of recreateProject does not fail prepare, and the registry secret is still created, under the context in force before the admin switch. */
  lemma TimeoutTolerated(h: Handler, w: World, cfg: Config)
    requires !h.used
    ensures var p := PrepareSpec(h, w, cfg, TimedOut);
      var prior := if h.temporary then Some(TempContext(h, cfg)) else w.current;
      p.status == Completed && p.world.current == prior &&
      p.world.trace[|p.world.trace| - 1] == Entry(CreateSecret, prior) &&
      Count(p.world.trace, CreateSecret) == Count(w.trace, CreateSecret) + 1
  {
  }

  /** The worked example: project "foo" without a namespace. */
  lemma FooScenario(namespace: Option<string>, isSpace: char -> bool, w: World, cfg: Config)
    requires namespace == None || namespace == Some("")
    ensures var h := NewHandler("foo", namespace, isSpace);
      var p := PrepareSpec(h, w, cfg, Created);
      var c := CleanupSpec(p.handler, p.world);
      h.namespace == "foo-automated" && h.temporary &&
      p.status == Completed &&
      p.world.current == Some(Context("foo", cfg.masterUsername, cfg.masterPassword, "foo-automated")) &&
      c.world.current == w.current &&
      Count(c.world.trace, Delete("foo-automated")) == Count(w.trace, Delete("foo-automated")) + 1
  {
    var h := NewHandler("foo", namespace, isSpace);
    assert h.namespace == "foo-automated";
    TemporaryLifecycle(h, w, cfg, Created);
  }

  /**
   * prepare, then any test workload, then cleanup on a temporary handler:
   * whatever state the workload left, cleanup makes the context current on
   * entry to prepare current again and adds exactly one Delete of the namespace.
   */
  lemma CleanupAfterWorkload(h: Handler, w: World, cfg: Config, outcome: RecreateOutcome, w': World)
    requires h.temporary && !h.used
    ensures var p := PrepareSpec(h, w, cfg, outcome);
      var c := CleanupSpec(p.handler, w');
      c.handler.used &&
      c.world.current == w.current &&
      Count(c.world.trace, Delete(h.namespace)) == Count(w'.trace, Delete(h.namespace)) + 1
  {
    var deleted := [Entry(Delete(h.namespace), w.current)];
    assert deleted[..0] == [];
    CountAppend(w'.trace, deleted, Delete(h.namespace));
  }

  /** cleanup on a handler whose namespace was given switches no context and deletes nothing. */
  lemma PermanentCleanup(h: Handler, w: World)
    requires !h.temporary
    ensures var c := CleanupSpec(h, w);
      c.handler.used && c.world.current == w.current &&
      Count(c.world.trace, Delete(h.namespace)) == Count(w.trace, Delete(h.namespace))
  {
  }

  /**
   * The handler object. Its project, namespace and temporariness are
   * constants: only the constructor sets them.
   */
  class ProjectHandler {
    const project: string
    const namespace: string
    const temporaryNamespace: bool
    var originalContext: Option<Context>
    var used: bool

    function Snapshot(): Handler
      reads this
    {
      Handler(project, namespace, temporaryNamespace, originalContext, used)
    }

    /** Creates a handler; a blank namespace makes it derive a temporary one. */
    constructor (project: string, namespace: Option<string>, isSpace: char -> bool)
      ensures Snapshot() == NewHandler(project, namespace, isSpace)
    {
      this.project := project;
      if IsNotBlank(namespace, isSpace) {
        this.namespace := namespace.value;
        this.temporaryNamespace := false;
      } else {
        this.namespace := project + TEMP_NAMESPACE_IDENTIFIER;
        this.temporaryNamespace := true;
      }
      this.originalContext := None;
      this.used := false;
    }

    /** Creates a handler for the master namespace of the cluster's configuration. */
    constructor WithMasterNamespace(project: string, cluster: Cluster, isSpace: char -> bool)
      ensures Snapshot() == NewHandler(project, cluster.config.masterNamespace, isSpace)
    {
      var h := NewHandler(project, cluster.config.masterNamespace, isSpace);
      this.project := h.project;
      this.namespace := h.namespace;
      this.temporaryNamespace := h.temporary;
      this.originalContext := h.originalContext;
      this.used := h.used;
    }

    static method CreateProject(cluster: Cluster, ns: string, outcome: RecreateOutcome) returns (returned: bool)
      modifies cluster
      ensures Step(cluster.State(), returned) == CreateProjectSpec(old(cluster.State()), cluster.config, ns, outcome)
    {
      var saved := cluster.current;
      cluster.SetContext(cluster.GetContext(cluster.config.adminContextName));
      var r := cluster.RecreateProject(ns, outcome);
      if r == Failed {
        return false;
      }
      cluster.SetContext(saved);
      cluster.CreateORegSecret();
      returned := true;
    }

    method Prepare(cluster: Cluster, outcome: RecreateOutcome) returns (status: Status)
      modifies this, cluster
      ensures Transition(Snapshot(), cluster.State(), status)
           == PrepareSpec(old(Snapshot()), old(cluster.State()), cluster.config, outcome)
    {
      if used {
        return IllegalState;
      }
      used := true;
      if temporaryNamespace {
        originalContext := cluster.current;
        cluster.NewContext(project, cluster.config.masterUsername, cluster.config.masterPassword, namespace);
        cluster.SetContext(cluster.GetContext(project));
      }
      var returned := CreateProject(cluster, namespace, outcome);
      status := if returned then Completed else Propagated;
    }

    method Cleanup(cluster: Cluster)
      modifies this, cluster
      ensures Transition(Snapshot(), cluster.State(), Completed) == CleanupSpec(old(Snapshot()), old(cluster.State()))
    {
      if temporaryNamespace {
        RestoreContext(cluster);
        DeleteNamespace(cluster);
      }
      used := true;
    }

    method RestoreContext(cluster: Cluster)
      modifies cluster
      ensures cluster.State() == old(cluster.State()).(current := originalContext)
    {
      cluster.SetContext(originalContext);
    }

    method DeleteNamespace(cluster: Cluster)
      modifies cluster
      ensures cluster.State() == old(cluster.State()).(trace := old(cluster.trace) + [Entry(Delete(namespace), old(cluster.current))])
    {
      cluster.DeleteProject(namespace);
    }
  }
}
