# ProjectHandler: a verified model of the test-namespace lifecycle

This project models `cz.xtf.manipulation.ProjectHandler` from the XTF test
framework. A handler manages one namespace (an OpenShift project) for one test
run. Construction decides the namespace. If the caller gives a non-blank one,
the handler uses it and never deletes it. Otherwise the handler derives
`<project>-automated` and treats it as temporary. `prepare()` may run once.
For a temporary namespace it saves the caller's context and switches to a
fresh context for the project. It then recreates the namespace under the admin
context, switches back, and creates the registry secret. On a temporary handler,
`cleanup()` restores the saved context and deletes the namespace.

Files:

- `wrappers.dfy`: `Option`, which stands for a Java reference that may be null.
- `openshift.dfy`: the cluster collaborators, seen only through their effect
  on process-wide state. That state is the current context, the registry of
  named contexts, and a trace of administration calls. Each trace entry is
  tagged with the context that was current when the call ran. It holds the
  value view (`World`) and the mutable `Cluster` class.
- `manipulation.dfy`: the handler. `PrepareSpec`, `CleanupSpec` and
  `CreateProjectSpec` are pure functions over the handler and world values.
  The class `ProjectHandler` has the Java fields. Its methods change the
  handler and the `Cluster` step by step, and each is proved to end in the
  state its function gives. The lemmas about those functions state the
  lifecycle properties.

How the model treats its inputs:

- The outcome of `recreateProject` (returns, `TimeoutException`, any other
  exception) is a parameter of `Prepare`.
- The Java whitespace test behind `isNotBlank` is the parameter `isSpace`.
- `masterNamespace()`, `masterUsername()`, `masterPassword()` and the name of
  the admin context are read-only values in `Config`.
- `OpenShiftContext.getContext` of an unregistered name is modelled as null
  (`None`).
- `newContext` registers its context under the project name and replaces any
  earlier context of that name.

Points where the code may surprise a reader; the model follows the code:

- The code rejects only a null project (`@NonNull`, line 58). It does not
  reject an empty one, so the model has no such precondition.
- `recreateProject` is not wrapped in `finally`. If it fails with anything but
  a timeout, the admin context stays current (lines 73-80).
- Deletion in `cleanup()` runs under the restored original context, not under
  the admin context (lines 131-133, 144). The trace records it under that
  context.

## Model

| member | source | states |
|---|---|---|
| `Manipulation.IsNotBlank` | utilities/src/main/java/cz/xtf/manipulation/ProjectHandler.java:20 | a non-blank namespace argument is present and non-empty; null, empty and whitespace-only arguments are blank |
| `Manipulation.NewHandler` | utilities/src/main/java/cz/xtf/manipulation/ProjectHandler.java:58-66 | a non-blank argument is used verbatim and the handler is not temporary; otherwise the namespace is `project + "-automated"` and the handler is temporary; either way nothing is saved and the handler is unused |
| `Manipulation.CreateProjectSpec` | utilities/src/main/java/cz/xtf/manipulation/ProjectHandler.java:68-85 | the registry is unchanged; it returns normally exactly when recreateProject does not fail with a non-timeout error; on a normal return the caller's context is current again; the recreate runs under the admin context and the secret creation runs under the restored prior context; on another error the admin context stays current and no secret is created |
| `Manipulation.PrepareSpec` | utilities/src/main/java/cz/xtf/manipulation/ProjectHandler.java:90-104 | on a used handler it fails with IllegalState and changes nothing; otherwise it marks the handler used on every path; only a non-timeout recreate error propagates; a temporary handler saves the caller's context and registers the project context; a permanent one registers nothing and saves nothing; after a normal return the temporary context (or, for a permanent handler, the caller's context) is current; the trace only grows; the constructor's fields are unchanged |
| `Manipulation.CleanupSpec` | utilities/src/main/java/cz/xtf/manipulation/ProjectHandler.java:130-146 | marks the handler used; on a permanent handler the cluster state is unchanged; on a temporary one the saved context becomes current and one Delete of the namespace is recorded under it; nothing else changes |
| `Manipulation.ApplyRecreates` | utilities/src/main/java/cz/xtf/manipulation/ProjectHandler.java:90-104 | one call only appends to the trace, and appends one Recreate of the handler's namespace exactly when it is a prepare that passes the guard |
| `Manipulation.RunInvariants` | utilities/src/main/java/cz/xtf/manipulation/ProjectHandler.java:31-37 | over any sequence of prepare and cleanup calls: project, namespace and temporariness never change; the handler is used once any call ran; at most one prepare passes the guard (none on a used handler); the namespace is recreated once per prepare that passed the guard, so at most once |
| `Manipulation.SecondPrepareFails` | utilities/src/main/java/cz/xtf/manipulation/ProjectHandler.java:91-94 | after any prepare, even one that errored partway, a second prepare fails with IllegalState and changes neither the handler nor the cluster |
| `Manipulation.TemporaryLifecycle` | utilities/src/main/java/cz/xtf/manipulation/ProjectHandler.java:96-100 | on a temporary handler, prepare then cleanup restores the context current on entry to prepare and records exactly one more Delete of the namespace, however prepare ended; after a normal prepare the project's temporary context was current |
| `Manipulation.CleanupAfterWorkload` | utilities/src/main/java/cz/xtf/manipulation/ProjectHandler.java:130-139 | on a temporary handler, whatever the test workload did to the cluster between prepare and cleanup, cleanup makes the context current on entry to prepare current again and adds exactly one Delete of the namespace to the trace it finds |
| `Manipulation.PermanentCleanup` | utilities/src/main/java/cz/xtf/manipulation/ProjectHandler.java:130-136 | on a non-temporary handler cleanup keeps the current context, records no Delete and marks the handler used |
| `Manipulation.TimeoutTolerated` | utilities/src/main/java/cz/xtf/manipulation/ProjectHandler.java:74-82 | a recreate timeout does not fail prepare; the prior context is current afterwards and exactly one more secret creation is recorded, as the last call, under that context |
| `Manipulation.FooScenario` | utilities/src/main/java/cz/xtf/manipulation/ProjectHandler.java:58-66 | project "foo" without a namespace gives the temporary namespace "foo-automated"; prepare switches to the "foo" context; cleanup restores the original context and deletes "foo-automated" once |
| `Manipulation.ProjectHandler.constructor` | utilities/src/main/java/cz/xtf/manipulation/ProjectHandler.java:58-66 | the new object's fields are those of `NewHandler` for the same arguments |
| `Manipulation.ProjectHandler.WithMasterNamespace` | utilities/src/main/java/cz/xtf/manipulation/ProjectHandler.java:43-45 | the one-argument constructor is the two-argument one applied to the master namespace of the cluster's configuration, the same configuration whose credentials `Prepare` reads |
| `Manipulation.ProjectHandler.CreateProject` | utilities/src/main/java/cz/xtf/manipulation/ProjectHandler.java:68-85 | the cluster state afterwards, and whether it returned, are those of `CreateProjectSpec` |
| `Manipulation.ProjectHandler.Prepare` | utilities/src/main/java/cz/xtf/manipulation/ProjectHandler.java:90-104 | the handler and cluster afterwards, and the status, are those of `PrepareSpec` |
| `Manipulation.ProjectHandler.Cleanup` | utilities/src/main/java/cz/xtf/manipulation/ProjectHandler.java:130-136 | the handler and cluster afterwards are those of `CleanupSpec` |
| `Manipulation.ProjectHandler.RestoreContext` | utilities/src/main/java/cz/xtf/manipulation/ProjectHandler.java:138-140 | the saved original context becomes current; nothing else changes |
| `Manipulation.ProjectHandler.DeleteNamespace` | utilities/src/main/java/cz/xtf/manipulation/ProjectHandler.java:142-146 | one Delete of the handler's namespace is recorded under the current context; nothing else changes |
| `OpenShift.Cluster.GetContext` | utilities/src/main/java/cz/xtf/manipulation/ProjectHandler.java:100 | the context registered under a name, or null when none is |
| `OpenShift.Cluster.SetContext` | utilities/src/main/java/cz/xtf/manipulation/ProjectHandler.java:73 | the given context becomes current; registry and trace are unchanged |
| `OpenShift.Cluster.NewContext` | utilities/src/main/java/cz/xtf/manipulation/ProjectHandler.java:99 | a context with the given credentials and namespace is registered under the name; the current context is unchanged |
| `OpenShift.Cluster.RecreateProject` | utilities/src/main/java/cz/xtf/manipulation/ProjectHandler.java:75 | the recreate is recorded under the current context and ends as the outcome parameter says |
| `OpenShift.Cluster.CreateORegSecret` | utilities/src/main/java/cz/xtf/manipulation/ProjectHandler.java:82 | the secret creation is recorded under the current context |
| `OpenShift.Cluster.DeleteProject` | utilities/src/main/java/cz/xtf/manipulation/ProjectHandler.java:144 | the deletion is recorded under the current context |

## Left out

- `saveEventsLog` (lines 109-125): it only creates a directory, runs the `oc get events` binary and writes a file. It changes no handler or context state.
- Logging (`log.info`, `log.warn`): it has no effect on state.
- A null `project`: Dafny strings cannot be null, so the `NullPointerException` that `@NonNull` raises at line 58 is not modelled.
- Errors raised by `newContext`, `createORegSecret` and `deleteProject`: these calls are into code this model does not include. The model treats them as always returning. Had they thrown, the error would propagate unchanged and the state would be as it was at that call.
- The inner workings of `OpenshiftUtil`, `OpenShiftUtils.master()` and `OpenShiftContext`: they appear only as their effect on the current context, the registry and the trace.
- Concurrency: the current context is process-wide, and the model runs one handler at a time.
- The exact Java whitespace classification used by `isNotBlank`: it is the parameter `isSpace`.
