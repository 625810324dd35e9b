# A verified model of the rstream operator

The operator publishes Kubernetes Services through rstream tunnels. A manager reconciles every `RstreamTunnel` into
five child objects; one of them is a Deployment whose agent opens the tunnel and reports back into the tunnel's
status. This project models the parts in which several writers, several objects or several steps have to fit
together, and proves what they guarantee. `dafny verify dfyconfig.toml` checks all of it.

## How it is laid out

- **Status shared by two writers** – `TunnelStatus` (the mutations, as functions and as the methods that assign the
  fields), `MergePatch` (RFC 7396), `StatusPatch` (the patch of a status document), `StatusStore` (any interleaving of
  Get, Patch, crash and edit), `StatusClient` (the read-mutate-patch retry loop).
- **Stable public address** – `PublicAddress` (which stored hostname counts as confirmed), `AgentProperties` (from
  configuration to engine properties), `OpenTunnel` (discovery under a quota of one tunnel), `StableAddress` (the
  feedback loop over whole runs of agents and manager), `Overlap` (agents that overlap, and what exactly they can do to
  the address), `Runner` and `Backoff` (the retry loop and its schedule).
- **Reconciliation** – `Services` and `SecretRefs` (what is read), `Reconcile` (what the children should be, and the
  index of tunnels to look at again), `Controller` (the state machine of queue, attempts, reports, users, agents, third
  parties, failures and crashes), `Convergence` (what holds in every reachable state, what becomes of the children, and
  where a key gets when left alone), `Liveness` (the same for runs of the whole system), `Children` (the ordered writes
  and deletions, as methods and as functions).
- **Specs, names and hashes** – `AgentConfig`, `Names`, `Fnv`, `Workload`, `Ordering`; `Api`, `Text` and `Wrappers`
  hold the shared datatypes and string operations.

## What is assumed

- The Control plane's resolution, the YAML encoder, SHA-256, the texts of errors, the SDK's name generator, the CORS
  normalizer and `time.ParseDuration` are fixed functions that the model takes as parameters; nothing is assumed about
  their results except where a statement says so. Every pass ends in a patch of the status of the tunnel that the
  manager itself watches, so a Control plane whose error text differs each time would keep a blocked tunnel in the
  queue for ever.
- Gets and Lists return what is stored. `Reconcile` swallows a failed read of a connection, Secret or Service without
  asking for another pass (internal/controller/rstreamtunnel_controller.go:75-84), so without this a tunnel could stay
  behind for ever; the convergence statement therefore needs it.
- The resource definition's defaults have been filled in where a statement asks for `Api.Defaulted`.
- A watch event queues its keys in the step that caused it, one attempt per key is under way at a time, and users do
  not remove the operator's finalizer. Child names of different tunnels are different; `Names` proves how far the code
  ensures that.
- An engine that is asked for a hostname serves the tunnel under that name, gives it an id and presents the name in
  the address (`StableAddress.Echoes`); the SDK leaves a hostname that is already set alone
  (internal/agent/open_tunnel.go:23-24).

## What turned out not to hold

- The manager can take back the agent's TunnelReady, because its patch carries the whole condition list and no lock
  (`StatusStore.StaleManagerRevertsTunnelReady`), and a list is carried as soon as one text in it is new
  (`StatusStore.NewTextRevertsTunnelReady`); `StatusStore.ManagerPatchKeepsTunnelReady` says exactly when the entry
  stays. A stale manager patch can also lower `status.observedGeneration`
  (`StatusStore.PatchLowersObservedGeneration`, with a run in `StatusStore.ObservedGenerationCanFall`); an agent's patch
  cannot.
- The stable address of README.md:99 is unconditional for one agent at a time
  (`StableAddress.OneAgentKeepsItsAddress`), which the single replica and the Recreate strategy aim at. While two pods
  overlap it is not: both may read the status before anything is confirmed, and the second report replaces the first
  (`Overlap.OverlappingAgentsDisagree`). After a report, another name can follow exactly when an attempt under way has a
  tunnel open under another name, holds another confirmed name, holds none and is free to choose, or has the same name
  open under an address that does not confirm it while a later pod would be free to choose (`Overlap.AfterReportIff`).
- The wait schedule is capped doubling for ever exactly when the maximum is below 2^62 nanoseconds; from 2^62 on, and
  only then, some wait is negative (`Backoff.ScheduleIsExact`).
- User pod labels and annotations are merged over the operator's. The pod template fits the Deployment's selector
  exactly when they do not redefine a selector label (`Workload.TemplateFitsSelector`), and a new configuration
  replaces the pods exactly when they leave the hash annotation alone (`Workload.NewHashReplacesPods`).
- "The children of a tunnel that cannot be reconciled are what the last success left" needs no third party to fail: a
  pass that is cut off after its first write leaves a mixture once the connection is gone
  (`Liveness.CutOffPassLeavesMixture`). The children are what the last undisturbed pass left
  (`Convergence.CleanChildrenAreTheLastPass`) exactly until a write of a cut-off pass, a deletion or a third party's
  change (`Convergence.NotCleanIff`), and while the tunnel cannot be reconciled only a write of an attempt that has been
  overtaken, a deletion or a third party changes them (`Convergence.BlockedRunLeavesChildren`).
- The health flag stays true during the deferred closes after an accepted Online; `Run` clears it right after them,
  before the wait.

An object that bypasses the resource definition's default for `protocol` is treated in two ways when it asks for HTTP/3
and leaves its type out as well: the agent infers a datagram tunnel, `expectedServiceProtocol` asks for a TCP port,
against docs/002-api-reference.md:174. With the default in place the two always agree (`Services.TargetFitsTunnel`).

## Model

| member | source | states |
|---|---|---|
| `TunnelStatus.SetEffect` | internal/controller/status.go:62-70 | Setting a condition decides that type, keeps the entry of every other type and never makes a type occur twice. |
| `TunnelStatus.MutationInvariant` | internal/controller/rstreamtunnel_controller.go:278-328 | Every mutation of manager or agent keeps "Ready=True only with TunnelReady=True", unique types and the generation bound, and only Online changes the address. |
| `TunnelStatus.AgentMutation` | internal/agent/status.go:71-159 | An agent's mutation sets TunnelReady and Ready to the same value and leaves every other condition as it was. |
| `TunnelStatus.TunnelObject.SetCondition` | internal/controller/status.go:62-70 | The in-place search and overwrite, or append, yields the list the specification gives. |
| `TunnelStatus.TunnelObject.MarkTunnelBlocked` | internal/controller/rstreamtunnel_controller.go:278-284 | The field assignments amount to the blocked mutation of the whole status. |
| `TunnelStatus.TunnelObject.MarkTargetBlocked` | internal/controller/rstreamtunnel_controller.go:286-294 | The field assignments amount to the target-blocked mutation. |
| `TunnelStatus.TunnelObject.MarkReconciled` | internal/controller/rstreamtunnel_controller.go:296-320 | The assignments with their branches on the Deployment and on TunnelReady amount to the reconciled mutation. |
| `TunnelStatus.TunnelObject.MarkFinalizing` | internal/controller/rstreamtunnel_controller.go:326-328 | Ready turns False and nothing else but the generation changes. |
| `TunnelStatus.TunnelObject.MarkConnecting` | internal/agent/status.go:71-92 | The assignments amount to the connecting mutation. |
| `TunnelStatus.TunnelObject.MarkOnline` | internal/agent/status.go:108-135 | The assignments amount to the online mutation, with all three address fields. |
| `TunnelStatus.TunnelObject.MarkDisconnected` | internal/agent/status.go:137-159 | The assignments amount to the disconnected mutation; the address stays. |
| `TunnelStatus.ReconciledMeans` | internal/controller/rstreamtunnel_controller.go:296-320 | A full pass publishes Accepted and Resolved True, AgentReady True if and only if the Deployment is available, and Ready True if and only if it is and TunnelReady was found True; TunnelReady is set only if it was Unknown and the Deployment is not available. |
| `TunnelStatus.TunnelBlockedMeans` | internal/controller/rstreamtunnel_controller.go:278-284 | A blocked tunnel gets Accepted False and Ready False with the given reason and text, lastError, and nothing else changes. |
| `TunnelStatus.TargetBlockedMeans` | internal/controller/rstreamtunnel_controller.go:286-294 | A tunnel blocked by its target gets Accepted True, Resolved False and Ready False, and nothing else changes. |
| `TunnelStatus.FinalizingMeans` | internal/controller/rstreamtunnel_controller.go:326-328 | A deletion publishes Ready False and no other condition. |
| `TunnelStatus.ConnectingMeans` | internal/agent/status.go:71-92 | Connecting publishes TunnelReady False and Ready False, clears the error and keeps the address. |
| `TunnelStatus.OnlineMeans` | internal/agent/status.go:108-135 | Online publishes TunnelReady True and Ready True and each field of the report in its place. |
| `TunnelStatus.DisconnectedMeans` | internal/agent/status.go:137-159 | Disconnected publishes TunnelReady False and Ready False with the error and keeps the address. |
| `TunnelStatus.MutationIsIdempotent` | internal/controller/rstreamtunnel_controller.go:278-328 | Every mutation done twice at the same generation is done once, texts included, so a repeated report writes nothing. |
| `MergePatch.RoundTrip` | internal/controller/status.go:27-31 | Section 2 of RFC 7396: the patch computed from (before, after), applied to before, gives exactly after, members removed and nested objects included. |
| `MergePatch.Frame` | internal/controller/status.go:27-31 | A member the client did not change is not in the patch and keeps its stored value on any stored object. |
| `StatusPatch.PatchRoundTrip` | internal/agent/status.go:170-178 | A status patch applied to the status it was computed from stores the wanted status, omitted empty fields included. |
| `StatusPatch.PatchIsMerge` | internal/controller/status.go:27-31 | On any other stored status the JSON patch replaces exactly the fields the mutation changed, conditions as one field. |
| `StatusStore.EveryRunIsSafe` | internal/agent/status.go:161-180 | Over every interleaving of Gets, Patches, crashes and edits: Ready=True goes with TunnelReady=True, types are unique, no generation is ahead, and the address is, as a whole, the one of the last accepted Online. |
| `StatusStore.InvNext` | internal/controller/status.go:18-33 | One step, from a stale snapshot or not, keeps the invariant, and versions and generations only grow. |
| `StatusStore.VersionCountsChanges` | internal/controller/status.go:27-31 | A served patch moves the version on by one if it changes the status and not at all otherwise; the generation stays. |
| `StatusStore.LockedPatchIsExact` | internal/agent/status.go:178 | A locked patch is accepted if and only if the object is the one that was read, and then stores exactly what the agent computed. |
| `StatusStore.PatchKeepsFine` | internal/controller/status.go:27-31 | However stale its snapshot, a served patch leaves the status sound and changes the address only as a report. |
| `StatusStore.AgentPatchOnlyTouchesItsConditions` | internal/agent/status.go:73-90 | In a reachable state an accepted agent patch leaves Accepted, Resolved and AgentReady as stored. |
| `StatusStore.ManagerPatchKeepsTunnelReady` | internal/controller/status.go:27-31 | When a manager patch leaves the stored TunnelReady alone: if and only if it carries no list, or its own copy's entry is the stored one. |
| `StatusStore.StaleManagerRevertsTunnelReady` | internal/controller/rstreamtunnel_controller.go:286-294 | A first accepted Online followed by a manager patch computed before it leaves TunnelReady unknown again; the address survives. |
| `StatusStore.NewTextRevertsTunnelReady` | internal/controller/rstreamtunnel_controller.go:286-294 | On a status that is target-blocked already, a stale target-blocked patch takes an accepted report's readiness back if and only if its text is another one. |
| `StatusStore.PatchLowersObservedGeneration` | internal/controller/status.go:27-31 | The exact condition under which a patch lowers the stored observedGeneration. |
| `StatusStore.ObservedGenerationCanFall` | internal/controller/status.go:18-33 | A run from any initial object not yet observed: manager reads, spec edited, agent reads and reports, manager patches, and the stored generation falls. |
| `StatusStore.AgentPatchKeepsObservedGeneration` | internal/agent/status.go:161-180 | In a reachable state an accepted agent patch never lowers it. |
| `StatusClient.PatchStatus` | internal/agent/status.go:161-180 | The retry loop: an unlocked write succeeds at once on whatever is stored; a locked one succeeds only on an object nobody touched since its read; after five conflicts nothing of it is stored. |
| `StatusClient.ApiServer.Patch` | internal/controller/status.go:18-33 | Serving the JSON document is serving the field-wise patch, with a conflict exactly when the versions differ under a lock. |
| `PublicAddress.AddressHostOfShown` | internal/agent/status.go:94-106 | Parsing any presentation of a host (scheme, port, further words) gives back that host. |
| `PublicAddress.ConfirmedIffPresented` | internal/agent/status.go:94-106 | For an address that presents a host in one of the engine's forms, the stored hostname counts as confirmed if and only if there is a tunnel id and the host is that hostname, ignoring case. |
| `AgentProperties.BuildProperties` | internal/agent/properties.go:14-153 | The step-by-step assignment with early returns gives the first refusal in the code's order, or exactly the accepted properties. |
| `AgentProperties.BuildBase` | internal/agent/properties.go:14-96 | The part before the HTTP section, with the choice between the configured and the confirmed hostname. |
| `AgentProperties.AddHTTP` | internal/agent/properties.go:97-129 | The HTTP section sets what the configuration gives, or refuses with the first rule broken. |
| `AgentProperties.AddTLS` | internal/agent/properties.go:130-153 | The TLS section, likewise. |
| `AgentProperties.ConfigReadsBack` | internal/resources/config.go:36-139 | What the manager writes for name, hostname, protocol, type, HTTP version, TLS mode and minimum version, the agent reads back as exactly the spec's values. |
| `AgentProperties.AcceptedSpecAtAgent` | internal/controller/rstreamtunnel_controller.go:200-223 | End to end: a spec that passes the resource rules and the manager's validation is refused by the agent exactly for guaranteed delivery on a bytestream, HTTP settings off HTTP, or CORS normalization; TCP specs never. |
| `AgentProperties.AcceptedSpecMeans` | internal/agent/properties.go:14-96 | An accepted spec reaches the engine with its name (given or derived), protocol, given or inferred type, publication, port, and the hostname of the spec, else the confirmed one, else none; written from the spec. |
| `AgentProperties.AcceptedSpecHTTP` | internal/agent/properties.go:97-129 | With its HTTP section: version, normalized CORS policy, token and rstream authentication, and the challenge, each where the spec has it. |
| `AgentProperties.AcceptedSpecTLS` | internal/agent/properties.go:130-153 | With its TLS section: mode, minimum version, ALPNs and client certificates. |
| `AgentProperties.AcceptedSpecRest` | internal/resources/config.go:36-101 | With guaranteed delivery, regions, addresses, upstream TLS (for HTTP only as its own setting) and the labels, among which the operator's five win over the user's. |
| `AgentProperties.AcceptedSpecIsRefusedIff` | internal/controller/rstreamtunnel_controller.go:200-223 | The refusals of accepted specs in the spec's own terms: guaranteed delivery off datagrams, a policy that does not normalize, an HTTP section off HTTP. |
| `AgentProperties.AcceptsIff` | internal/agent/properties.go:14-153 | Any configuration, of the manager's making or not, is accepted if and only if every text in it can be read and its settings go together. |
| `AgentProperties.ValidatesIff` | internal/controller/rstreamtunnel_controller.go:200-223 | The manager's validation passes if and only if a port goes with TCP and TCP goes with none of the settings it excludes. |
| `AgentProperties.RulesAgree` | internal/controller/rstreamtunnel_controller.go:200-223 | Of the objects that satisfy the resource definition and have its defaults, the manager refuses exactly the TCP tunnels with guaranteed delivery. |
| `OpenTunnel.Open` | internal/agent/open_tunnel.go:14-52 | For every engine the calls are the planned session, and never are two tunnels open at once. |
| `OpenTunnel.DiscoveryIsExact` | internal/agent/open_tunnel.go:14-52 | Without Control plane metadata, case by case over every engine: which requests are made and which tunnel is served or left open; the second request is made if and only if the name is open, one is generated, and the first tunnel can be read, closed and tells its domain, and it differs from the first in the hostname alone. |
| `OpenTunnel.NamedAtOnce` | internal/agent/open_tunnel.go:14-32 | With it the one request carries the hostname generated for that engine, or the one given. |
| `OpenTunnel.SessionFitsQuota` | internal/agent/open_tunnel.go:14-52 | At most two creates, the second only after the first tunnel was read and closed; a tunnel handed out is the only one open. |
| `OpenTunnel.KnownHostnameIsRequested` | internal/agent/open_tunnel.go:14-32 | A known hostname is asked for once and unchanged, whatever the connection and the engine are. |
| `OpenTunnel.SpliceIsExact` | internal/agent/open_tunnel.go:36-52 | The second name, cut at its first ".t.", gives back the generated label and the engine's serving domain. |
| `StableAddress.AddressIsStable` | README.md:99 | Once a hostname is settled, every later request and every later report is for it, over any failures, restarts, changes of the agents' configuration that leave the hostname open, and interleaved manager patches. |
| `StableAddress.OneAgentKeepsItsAddress` | README.md:99 | With one agent at a time, any recorded report whose address confirms its hostname settles it for good. |
| `StableAddress.ReportSettles` | internal/agent/status.go:108-135 | An accepted report settles its hostname when every other attempt under way is bound to it. |
| `StableAddress.UndisturbedAttemptRecords` | internal/agent/runner.go:70-110 | From any reachable state an undisturbed attempt asks as its session plans and has its report recorded, so the states the stability statements speak of are reached. |
| `StableAddress.OpenedAttemptRecords` | internal/agent/runner.go:93-110 | An attempt with a tunnel open can go on to record it, whatever has been recorded meanwhile. |
| `Overlap.HoldingAttemptRecords` | internal/agent/runner.go:70-110 | So can an attempt that has only read the status, once a tunnel comes up for the name it holds. |
| `Overlap.OpensAnother` | internal/agent/open_tunnel.go:14-52 | A pod that holds another confirmed name, or none and is left to choose, is served under another hostname than the recorded one by some engine. |
| `Overlap.OpensOnly` | internal/agent/open_tunnel.go:14-52 | Any other pod is served under the recorded hostname only, by every engine. |
| `Overlap.OverlapIff` | README.md:99 | While a hostname is recorded and confirmed, some continuation records another one if and only if some attempt under way can stray from it. |
| `Overlap.AfterReportIff` | internal/agent/status.go:108-135 | The same right after an accepted report, where the attempts that matter are the other ones. |
| `Overlap.OverlappingAgentsDisagree` | internal/agent/runner.go:70-110 | For every accepted spec that leaves the hostname to the engine: a run of two agents that both read an unconfirmed status, in which one name is recorded, confirmed and then replaced. |
| `StableAddress.ConfirmedIsAsked` | internal/agent/properties.go:74-81 | A confirmed hostname is what every request of a session asks for. |
| `StableAddress.SpecReuses` | internal/resources/config.go:36-101 | A tunnel reuses the confirmed name if and only if its spec names none, publishes it and is not TCP. |
| `Runner.Agent.RunOnce` | internal/agent/runner.go:70-128 | The events of an attempt up to the stage that fails, deferred closes included, and when health is left true. |
| `Runner.Agent.Attempt` | internal/agent/runner.go:42-66 | One turn of the loop: its events, when it ends the run, and the next backoff. |
| `Runner.Agent.Run` | internal/agent/runner.go:26-68 | The loop produces exactly the specified events and ends with health false. |
| `Runner.EveryRunIsOrderly` | internal/agent/runner.go:26-128 | Over any rounds an observer finds every report in order, nothing open at a wait, health true only after an accepted Online, and each wait as scheduled. |
| `Runner.RunIsOrderly` | internal/agent/runner.go:26-68 | So every run of `Run` from the start of the agent is in order. |
| `Runner.RoundMeans` | internal/agent/runner.go:70-128 | Which resources an attempt opens and closes, what it reports and whether it becomes healthy, by the step that fails. |
| `Runner.AttemptsMade` | internal/agent/runner.go:42-66 | Attempt number i is made if and only if every attempt before it failed with the context not done, then or in the wait after it; it is reported as disconnected if and only if it is made and fails so. |
| `Backoff.Schedule.Next` | internal/agent/backoff.go:17-27 | Returns the current wait and moves on as the 64-bit arithmetic does. |
| `Backoff.Schedule.Reset` | internal/agent/backoff.go:29-34 | After a reset the next wait is the initial one again. |
| `Backoff.WaitIsCappedDoubling` | internal/agent/backoff.go:13-27 | For 0 < initial <= max < 2^62 the k-th wait is min(initial * 2^k, max). |
| `Backoff.ScheduleIsExact` | internal/agent/backoff.go:17-27 | It is so for all k if and only if max < 2^62, and some wait is negative if and only if it is not. |
| `Backoff.AcceptedDurationsSchedule` | internal/agent/config.go:73-96 | Accepted settings give positive, ordered durations and that schedule. |
| `Backoff.AcceptedDurationsIff` | internal/agent/config.go:73-96 | Which settings are accepted, with one second and thirty seconds for blank ones. |
| `Services.ResolveServicePort` | internal/controller/service.go:46-66 | The search loop finds the first wanted port. |
| `Services.FirstPortIsFirst` | internal/controller/service.go:46-66 | The port found is wanted and no earlier one is; none is found if and only if none is wanted. |
| `Services.TargetFitsTunnel` | internal/controller/service.go:68-83 | With the defaults filled in, a resolved target is UDP exactly when the agent's tunnel carries datagrams; the one kind of spec that bypasses the defaults and breaks this is named. |
| `Services.AgentDialsTheService` | internal/controller/service.go:15-66 | The agent's target is the named Service in the given namespace or the tunnel's, on the first port with the name or number asked for, in decimal, and in that port's protocol, TCP if it has none. |
| `Services.TargetIff` | internal/controller/service.go:26-66 | A target is resolved if and only if the Service is there, a port matches, and the first match has the expected protocol; which error it is otherwise. |
| `Services.DocumentedPortRules` | docs/002-api-reference.md:171-177 | The documented table from protocol to the Service port's transport, for a resolved target whose type is inferred. |
| `SecretRefs.AgentSecretRefs` | internal/controller/refs.go:42-66 | Filling the set step by step and sorting gives the sorted list of the agent's references. |
| `SecretRefs.AllSecretRefs` | internal/controller/refs.go:28-40 | The same with the Control plane headers' references. |
| `SecretRefs.ReferencesSecret` | internal/controller/refs.go:90-97 | The search finds a reference to the Secret if and only if the connection has one. |
| `SecretRefs.AddControlPlaneHeaders` | internal/controller/refs.go:82-88 | The loop over the headers, as a function of the headers so far. |
| `SecretRefs.AddHeadersEffect` | internal/controller/refs.go:82-88 | It sets exactly the headers this reference gives, to the trimmed value, and no other. |
| `SecretRefs.RefOrder` | internal/controller/refs.go:68-80 | Ordering references by name, then key, is a strict total order. |
| `SecretRefs.ConnectionSecrets` | internal/controller/rstreamtunnel_controller.go:134-165 | Reading succeeds if and only if every reference can be read; it yields the trimmed token, for each header its last reference's value, and the versions of exactly the agent's Secrets. |
| `SecretRefs.ConnectionReads` | internal/controller/rstreamtunnel_controller.go:134-165 | In the connection's terms: reading succeeds if and only if token, certificates, proxy credentials and every header value are there; it gives the trimmed token and each header's last value. |
| `Ordering.CanonicalIsUnique` | internal/controller/refs.go:68-80 | A set has one sorted list, so map iteration order leaves no trace. |
| `Ordering.CollectSorted` | internal/controller/rstreamtunnel_controller.go:161-165 | Collecting in any order and sorting gives that list. |
| `Reconcile.ReadConnection` | internal/controller/rstreamtunnel_controller.go:121-179 | The method with its loop computes the specified resolution, each error case included. |
| `Reconcile.Prepare` | internal/controller/rstreamtunnel_controller.go:71-96 | Everything before the first write computes the outcome. |
| `Reconcile.PlanMeans` | internal/controller/rstreamtunnel_controller.go:71-96 | The configuration of a reconcilable tunnel: the connection it names, or `default`, its secrets, the Control plane's answer to them, that engine to dial and that stable-domain engine for the name, the Service as target, the tunnel's own name, and image and digest of the manager. |
| `Reconcile.OutcomeMeans` | internal/controller/rstreamtunnel_controller.go:71-84 | Which of the six obstacles blocks a tunnel, in the order in which they are looked for. |
| `Reconcile.MapConnectionToTunnels` | internal/controller/rstreamtunnel_controller.go:364-376 | From a listing of the namespace, the requests are exactly the indexed tunnels. |
| `Reconcile.MapServiceToTunnels` | internal/controller/rstreamtunnel_controller.go:378-391 | From a listing of all namespaces, the requests are exactly the indexed tunnels. |
| `Reconcile.MapSecretToTunnels` | internal/controller/rstreamtunnel_controller.go:393-418 | By way of the connections that refer to the Secret, the requests are exactly the indexed tunnels. |
| `Reconcile.IndexIsExact` | internal/controller/rstreamtunnel_controller.go:364-418 | The index lists a tunnel if and only if the changed object is one its reconciliation reads, default connection names and other namespaces included. |
| `Reconcile.IndexMeans` | internal/controller/rstreamtunnel_controller.go:364-418 | The same in the objects' own terms: connection names with their default, Services from any namespace, and Secrets referred to for token, certificates, proxy or headers. |
| `Reconcile.OutcomeFrame` | internal/controller/rstreamtunnel_controller.go:121-191 | Clusters that agree on a tunnel's inputs give it the same outcome. |
| `Reconcile.IndexCovers` | internal/controller/rstreamtunnel_controller.go:364-418 | If two clusters differ in one connection, Secret or Service, every tunnel with a different outcome is listed for that object. |
| `Reconcile.HeaderSecretLeavesNoTrace` | internal/controller/rstreamtunnel_controller.go:134-165 | A Secret used only for Control plane headers does not show in the children unless the resolution changes. |
| `Reconcile.MountedSecretsAreHashed` | internal/resources/workload.go:190-268 | The Secrets whose versions are hashed are exactly those the Deployment's environment and volumes refer to. |
| `Reconcile.EqualHashInputsEqualSecrets` | internal/resources/workload.go:56-58 | Equal hash inputs mean the same configuration text and the same version of every Secret the pods use. |
| `Controller.CallKeeps` | internal/controller/rstreamtunnel_controller.go:55-109 | Each single call of an attempt keeps the invariant of its key and stays on course to the outcome of the cluster as it is. |
| `Controller.WriteKeeps` | internal/controller/rstreamtunnel_controller.go:225-257 | A child write in its place in the order keeps guard, order and currency. |
| `Controller.DeleteKeeps` | internal/controller/rstreamtunnel_controller.go:322-348 | So does a deletion, and the removal of the finalizer after the last. |
| `Controller.ClusterFrame` | internal/controller/rstreamtunnel_controller.go:350-362 | A change around the tunnels keeps the invariant of every key it queues or does not concern. |
| `Controller.InvNext` | internal/controller/rstreamtunnel_controller.go:55-109 | Every step of the system keeps the invariant of every key. |
| `Controller.EveryRunKeeps` | internal/controller/rstreamtunnel_controller.go:350-418 | The invariant holds in every reachable state. |
| `Convergence.IdleIsConverged` | internal/controller/rstreamtunnel_controller.go:55-109 | In every reachable state an idle live tunnel that can be reconciled has all five children as computed from the current cluster, and a status that says so; an idle deleted one has lost the finalizer. |
| `Convergence.ReportedMeans` | internal/controller/rstreamtunnel_controller.go:296-320 | Such a status is Accepted and Resolved at the tunnel's generation, AgentReady exactly if the Deployment is available, Ready exactly if TunnelReady is True as well, with host and port of the target, the names and no error. |
| `Convergence.IdlePodsMean` | internal/controller/rstreamtunnel_controller.go:85-99 | In every reachable state, the stored ConfigMap and Deployment of an idle reconcilable tunnel hold the encoding of the configuration for the engine and name that the Control plane answers to the stored connection, and the spec's or the manager's image and replicas. |
| `Convergence.BlockedMeans` | internal/controller/rstreamtunnel_controller.go:71-82 | A status that says what blocks a tunnel: never Ready; Accepted only if the target is missing, with Resolved False; refused as an invalid spec if and only if the spec is invalid; lastError is the text. |
| `Convergence.QuietMeans` | internal/controller/rstreamtunnel_controller.go:55-109 | A key at rest has its five children and that report of them, or the report of what is in the way. |
| `Convergence.NoOrphans` | internal/controller/rstreamtunnel_controller.go:61-70 | In every reachable state only a tunnel that exists and has the finalizer has children. |
| `Convergence.ChildrenAreClosed` | internal/controller/rstreamtunnel_controller.go:225-257 | In every reachable state Deployment implies ConfigMap and RoleBinding, RoleBinding implies Role, Role implies ServiceAccount, unless a third party deleted a child. |
| `Convergence.FinalizerGoesLast` | internal/controller/rstreamtunnel_controller.go:329-347 | The finalizer only goes in the last call of a deletion, with none of the five children left. |
| `Convergence.ChildrenChange` | internal/controller/rstreamtunnel_controller.go:225-257 | An action changes the children if and only if it writes something new, deletes one or is a third party's change; the history notes exactly these. |
| `Convergence.CleanChildrenAreTheLastPass` | internal/controller/rstreamtunnel_controller.go:97-99 | In every reachable state, children marked clean are exactly what the last undisturbed pass left, and that is all five as its plan wants them. |
| `Convergence.NotCleanIff` | internal/controller/rstreamtunnel_controller.go:97-99 | They are not if and only if, since that pass, a step of the run wrote something new, deleted one or was a third party's change. |
| `Convergence.BlockedStep` | internal/controller/rstreamtunnel_controller.go:71-84 | In a reachable state in which a tunnel cannot be reconciled, a step changes its children if and only if it is a write of an overtaken attempt, a deletion or a third party's change. |
| `Convergence.BlockedRunLeavesChildren` | internal/controller/rstreamtunnel_controller.go:71-84 | Over whole runs of such states, queued keys included, the children stay what they were but for these steps. |
| `Convergence.CallOnQuiet` | internal/controller/rstreamtunnel_controller.go:55-109 | A pass over a settled and fully reported key changes neither children nor status and asks for no other pass, its own status patch included. |
| `Convergence.AttemptEnds` | internal/controller/rstreamtunnel_controller.go:55-109 | Every attempt ends after finitely many calls, settled and reported, or with its tunnel one finalizer step further. |
| `Convergence.LeftAloneItSettles` | internal/controller/rstreamtunnel_controller.go:55-109 | However stale its attempt, a key left alone comes to rest, although effective status patches queue it again. |
| `Liveness.EveryKeySettles` | internal/controller/rstreamtunnel_controller.go:55-109 | From every reachable state of the system there are further steps of the manager alone after which the key is idle and settled. |
| `Liveness.EveryKeyIsReported` | internal/controller/rstreamtunnel_controller.go:55-109 | From every reachable state in which a key is not at rest the manager alone reaches one in which its status says how things are, Ready or blocked and by what. |
| `Liveness.CutOffPassLeavesMixture` | internal/controller/rstreamtunnel_controller.go:71-99 | Without any third party: a pass fails after its first write, the connection is deleted, and the key comes to rest blocked with one new child among the old ones. |
| `Liveness.CutOffFirstPass` | internal/controller/rstreamtunnel_controller.go:225-231 | On a fresh cluster that leaves the ConfigMap alone. |
| `Children.ChildStore.ApplyChildren` | internal/controller/rstreamtunnel_controller.go:225-257 | The writes up to the first failing call leave exactly the state after that many writes. |
| `Children.ChildStore.DeleteChildren` | internal/controller/rstreamtunnel_controller.go:329-340 | The deletions up to the first failing call, likewise. |
| `Children.ApplyFirstEffect` | internal/controller/rstreamtunnel_controller.go:225-257 | A pass cut off after n writes has updated exactly the first n kinds. |
| `Children.FullPass` | internal/resources/workload.go:25-188 | After a full pass every child is up to date and keeps what others had added. |
| `Children.PassIsIdempotent` | internal/controller/rstreamtunnel_controller.go:259-267 | A second pass with the same plan changes nothing. |
| `Children.ApplyStaysClosed` | internal/controller/rstreamtunnel_controller.go:225-257 | Wherever the writes stop, no child lacks what it needs. |
| `Children.DeleteStaysClosed` | internal/controller/rstreamtunnel_controller.go:329-340 | Wherever the deletions stop, no child lacks what it needs, and in the end none is left. |
| `Children.CallsApply` | internal/controller/rstreamtunnel_controller.go:225-257 | The state machine's writing calls do what the method does. |
| `Children.CallsDelete` | internal/controller/rstreamtunnel_controller.go:322-348 | So do its deleting calls. |
| `Workload.ConfigHash` | internal/resources/names.go:81-88 | The write loop digests every value followed by a NUL. |
| `Workload.FrameInjective` | internal/resources/names.go:81-88 | NUL framing of NUL-free values can be undone. |
| `Workload.HashInputIsInjective` | internal/resources/workload.go:56-58 | Hash inputs are equal if and only if the text and the map from Secret names to versions are. |
| `Workload.ChildrenFit` | internal/resources/workload.go:25-188 | The five children fit together: Deployment, ConfigMap and ServiceAccount by their names, and the RoleBinding joins the ServiceAccount to the Role of this tunnel. |
| `Workload.PodsMean` | internal/resources/workload.go:25-125 | Text, image, replicas, labels and annotations of the pods, with the user's winning, and the digest among them. |
| `Workload.ConfigFitsPods` | internal/resources/workload.go:190-268 | Every environment variable and file the configuration names is there in the pods, from the Secret the connection refers to, and none is named for a credential it does not have. |
| `Workload.SelectorsAreApart` | internal/resources/names.go:64-79 | Among pods labelled by the operator, a tunnel's selector matches those of the tunnel itself only. |
| `Workload.TemplateFitsSelector` | internal/resources/workload.go:49-55 | The pod template fits the selector if and only if the user's pod labels redefine none of its labels. |
| `Workload.NewHashReplacesPods` | internal/resources/workload.go:56-63 | A new digest changes the Deployment if and only if the user's annotations leave the hash annotation alone. |
| `Names.BuildDnsLabel` | internal/resources/names.go:97-122 | The builder loop with its flag computes the label. |
| `Names.DnsLabelIsLabel` | internal/resources/names.go:97-122 | Every result is a label of section 2.1 of RFC 1123 without a double dash. |
| `Names.DnsLabelIdempotent` | internal/resources/names.go:97-122 | The label of a label is itself. |
| `Names.DnsLabelKeepsLetters` | internal/resources/names.go:97-122 | A label keeps exactly the name's letters and digits, lower-cased and in order; without any it is the fallback. |
| `Names.BaseNameIsLabel` | internal/resources/names.go:42-58 | The base name is a label of at most 63 characters ending in the hash, truncated or not. |
| `Names.NamesMean` | internal/resources/names.go:42-58 | The stem is the label of the prefixed name, cut at 54 characters and freed of dashes at the cut, before a dash and the hash of the uid, or of namespace and name. |
| `Names.EqualNamesEqualHashes` | internal/resources/names.go:124-140 | Equal base names force equal 32-bit hashes. |
| `Names.OneCharacterSeparatesChildren` | internal/resources/names.go:42-58 | Tunnels whose hash inputs differ in exactly one character share no child name. |
| `Fnv.Sum32a` | internal/resources/names.go:136-140 | The hash loop computes FNV-1a. |
| `Fnv.KnownAnswers` | internal/resources/names.go:136-140 | The published hashes of the empty text and of `a`. |
| `Fnv.XorIsBitwise` | internal/resources/names.go:136-140 | The exclusive or has exactly the bits in which the two numbers differ. |
| `Fnv.MultiplyInjective` | internal/resources/names.go:136-140 | Multiplication by the prime 16777619 is injective modulo 2^32. |
| `Fnv.OneByteNeverCollides` | internal/resources/names.go:136-140 | Inputs of equal length that differ in exactly one byte never share a hash. |
| `Fnv.HexInjective` | internal/resources/names.go:136-140 | Eight hexadecimal digits determine the hash. |

## Left out

- Traffic: `serveTCP`, `proxyTCP`, `serveUDP`, `proxyUDP`, the health server, TLS files and the transport conversion.
- The `RstreamConnection` reconciler: a smaller copy of the tunnel's status handling.
- Wall-clock time and `LastTransitionTime`; a condition is its type, status, generation, reason and message.
- Fixed or copied pod contents (probes, security contexts, resources, scheduling settings, mounts) and the role's rules:
  nothing holds of them beyond the literals.
- `LoadConfig`, `ValidateConfig` and the environment: reading and checking of strings the manager itself has written.
- In `Controller` the read and the patch of a status write are one step; `StatusStore` takes them apart.
- Refusals by the API server other than conflicts (an immutable selector, a foreign controller reference): in
  `Controller` such a write is a failing call.
- Objects that others create under a child's name before the operator does; third parties change and delete children.
- Rate limiting and the order of the work queue: any queued key may be taken next.
- Dials, listeners and deadlines of the agent: `Runner` models at which stage an attempt fails and whether the context
  is done.
- `net/url` beyond the authority part of section 3.2 of RFC 3986: paths, queries, user information and escapes.
- Names.DnsLabelIsLabel: for names of ASCII characters, as Kubernetes object names are; `dnsLabel` lets other letters
  through, the model replaces them.
- Names.OneCharacterSeparatesChildren: says nothing about inputs that differ in several bytes, which may collide.
- PublicAddress.ConfirmedIffPresented: for addresses in the forms an engine presents; that no other address confirms
  anything but the host `confirmedHostname` parses from it is all that is said of the others
  (`PublicAddress.ConfirmedForAnyAddress`).
- StatusStore.EveryRunIsSafe: deleting and recreating the tunnel object during the run is not part of it.
- Convergence.ChildrenAreClosed: a third party can break the closure by deleting a child, until the next pass that
  nothing interferes with.
- Convergence.LeftAloneItSettles: for a key whose calls do not fail; nothing is said about how long others may
  interfere. A blocked pass whose status patch was lost counts as settled, as the manager drops that error.
