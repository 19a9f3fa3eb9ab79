/**
 * The plugin manager the credential provider talks to, as an abstract
 * collaborator: launching a plugin and answering a request are oracles fixed
 * when the manager is built, and every call is recorded in a ghost trace.
 */
module PluginManagement {
  import opened Wrappers
  import opened AuthMessages

  /** What discovery found; `pluginFile` is the text the plugin file renders as. */
  datatype PluginDiscoveryResult = PluginDiscoveryResult(pluginFile: string)

  /** A created plugin: a number unique to this manager and the plugin it runs. */
  datatype PluginHandle = PluginHandle(id: nat, plugin: PluginDiscoveryResult)

  datatype MessageMethod = GetAuthCredentials

  /** One call into the manager or into a plugin's connection. */
  datatype Event =
    | Created(handle: PluginHandle)
    | Sent(handle: PluginHandle, messageMethod: MessageMethod, request: GetAuthenticationCredentialsRequest)
    | Disposed(handle: PluginHandle)

  /** The plugins created and not yet disposed after the first `n` calls of `t`. */
  function LiveAfter(t: seq<Event>, n: nat): set<PluginHandle>
    requires n <= |t|
  {
    if n == 0 then {} else Apply(LiveAfter(t, n - 1), t[n - 1])
  }

  /** The live plugins after one more call. */
  function Apply(live: set<PluginHandle>, e: Event): set<PluginHandle>
  {
    match e
    case Created(h) => live + {h}
    case Sent(_, _, _) => live
    case Disposed(h) => live - {h}
  }

  /** The ids of every plugin created during the first `n` calls of `t`. */
  function UsedIdsAfter(t: seq<Event>, n: nat): set<nat>
    requires n <= |t|
  {
    if n == 0 then {}
    else if t[n - 1].Created? then UsedIdsAfter(t, n - 1) + {t[n - 1].handle.id}
    else UsedIdsAfter(t, n - 1)
  }

  /**
   * In the first `n` calls of `t`, every plugin is created under an id never
   * used before, and a request is sent only to a plugin that has been created
   * and not yet disposed of.
   */
  predicate DisciplinedAfter(t: seq<Event>, n: nat)
    requires n <= |t|
  {
    n == 0 || (DisciplinedAfter(t, n - 1) && AllowedAt(t, n - 1))
  }

  /** Whether the call at index `k` of `t` keeps the discipline. */
  predicate AllowedAt(t: seq<Event>, k: nat)
    requires k < |t|
  {
    match t[k]
    case Created(h) => h.id !in UsedIdsAfter(t, k)
    case Sent(h, _, _) => h in LiveAfter(t, k)
    case Disposed(_) => true
  }

  function Live(t: seq<Event>): set<PluginHandle> { LiveAfter(t, |t|) }

  function UsedIds(t: seq<Event>): set<nat> { UsedIdsAfter(t, |t|) }

  predicate Disciplined(t: seq<Event>) { DisciplinedAfter(t, |t|) }

  /** Whether call `e` keeps the discipline after the calls of `t`. */
  predicate Allowed(t: seq<Event>, e: Event)
  {
    match e
    case Created(h) => h.id !in UsedIds(t)
    case Sent(h, _, _) => h in Live(t)
    case Disposed(_) => true
  }

  /** Later calls do not change what the earlier ones did. */
  lemma {:induction false} PrefixStable(t: seq<Event>, u: seq<Event>, n: nat)
    requires n <= |t|
    ensures LiveAfter(t + u, n) == LiveAfter(t, n)
    ensures UsedIdsAfter(t + u, n) == UsedIdsAfter(t, n)
    ensures DisciplinedAfter(t + u, n) == DisciplinedAfter(t, n)
  {
    if n > 0 {
      PrefixStable(t, u, n - 1);
      assert (t + u)[n - 1] == t[n - 1];
    }
  }

  /** How one more call changes the derived views of a trace. */
  lemma Step(t: seq<Event>, e: Event)
    ensures Live(t + [e]) == Apply(Live(t), e)
    ensures UsedIds(t + [e]) == if e.Created? then UsedIds(t) + {e.handle.id} else UsedIds(t)
    ensures Disciplined(t + [e]) <==> Disciplined(t) && Allowed(t, e)
  {
    PrefixStable(t, [e], |t|);
  }

  /** Only created plugins can be live. */
  lemma {:induction false} LiveWereCreated(t: seq<Event>, n: nat)
    requires n <= |t|
    ensures forall h :: h in LiveAfter(t, n) ==> h.id in UsedIdsAfter(t, n)
  {
    if n > 0 {
      LiveWereCreated(t, n - 1);
    }
  }

  class PluginManager {
    /** Why launching a plugin fails, or `None` when it starts and answers the handshake. */
    const launchFault: PluginDiscoveryResult -> Option<string>
    /** A plugin's answer to a request, or the reason the exchange faulted. */
    const respond: (PluginDiscoveryResult, GetAuthenticationCredentialsRequest)
                   -> Result<GetAuthenticationCredentialsResponse, string>

    var nextId: nat
    ghost var trace: seq<Event>

    ghost predicate Valid()
      reads this
    {
      Disciplined(trace) && forall i :: i in UsedIds(trace) ==> i < nextId
    }

    constructor (launchFault: PluginDiscoveryResult -> Option<string>,
                 respond: (PluginDiscoveryResult, GetAuthenticationCredentialsRequest)
                          -> Result<GetAuthenticationCredentialsResponse, string>)
      ensures Valid() && trace == []
      ensures this.launchFault == launchFault && this.respond == respond
    {
      this.launchFault := launchFault;
      this.respond := respond;
      nextId := 0;
      trace := [];
    }

    /** Starts a new plugin for `plugin`; the handle is fresh. */
    method CreatePlugin(plugin: PluginDiscoveryResult) returns (r: Result<PluginHandle, string>)
      requires Valid()
      modifies this
      ensures Valid()
      ensures r == match launchFault(plugin)
        case Some(reason) => Err(reason)
        case None => Ok(PluginHandle(old(nextId), plugin))
      ensures r.Ok? ==> r.value.id !in old(UsedIds(trace))
      ensures trace == old(trace) + if r.Ok? then [Created(r.value)] else []
      ensures Live(trace) == if r.Ok? then old(Live(trace)) + {r.value} else old(Live(trace))
      ensures nextId == if r.Ok? then old(nextId) + 1 else old(nextId)
    {
      match launchFault(plugin)
      case Some(reason) =>
        r := Err(reason);
      case None =>
        r := Ok(PluginHandle(nextId, plugin));
        Step(trace, Created(r.value));
        trace := trace + [Created(r.value)];
        nextId := nextId + 1;
    }

    /** Sends `request` over a live plugin's connection and waits for the answer. */
    method SendRequest(handle: PluginHandle, messageMethod: MessageMethod,
                       request: GetAuthenticationCredentialsRequest)
      returns (r: Result<GetAuthenticationCredentialsResponse, string>)
      requires Valid() && handle in Live(trace)
      modifies this
      ensures Valid() && nextId == old(nextId)
      ensures r == respond(handle.plugin, request)
      ensures trace == old(trace) + [Sent(handle, messageMethod, request)]
      ensures Live(trace) == old(Live(trace))
    {
      r := respond(handle.plugin, request);
      Step(trace, Sent(handle, messageMethod, request));
      trace := trace + [Sent(handle, messageMethod, request)];
    }

    /** Shuts a plugin down; disposing of one twice is harmless. */
    method DisposeOfPlugin(handle: PluginHandle)
      requires Valid()
      modifies this
      ensures Valid() && nextId == old(nextId)
      ensures trace == old(trace) + [Disposed(handle)]
      ensures Live(trace) == old(Live(trace)) - {handle}
    {
      Step(trace, Disposed(handle));
      trace := trace + [Disposed(handle)];
    }
  }
}
