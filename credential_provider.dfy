/**
 * The credential provider that obtains credentials from a plugin: a proxy
 * request is declined at once; any other request is sent to a newly created
 * plugin as one GetAuthenticationCredentials exchange, whose answer is mapped
 * to a credential response, and the plugin is disposed of afterwards.
 */
module Credentials {
  import opened Wrappers
  import opened AuthMessages
  import opened PluginManagement

  /** The kind of credential the host asks for. */
  datatype CredentialRequestType = Proxy | Unauthorized | Forbidden

  /** The host's web proxy; accepted and ignored. */
  datatype WebProxy = WebProxy(address: string)

  /**
   * A network credential, or a credential that may only be presented for the
   * listed authentication schemes.
   */
  datatype Credential =
    | Plain(username: Option<string>, password: Option<string>)
    | Filtered(inner: Credential, authTypes: seq<string>)

  datatype CredentialStatus = Success | ProviderNotApplicable

  datatype CredentialResponse = CredentialResponse(credentials: Option<Credential>, status: CredentialStatus)

  /** The response that declines the request and carries no credential. */
  const NotApplicable := CredentialResponse(None, ProviderNotApplicable)

  /** The network credential a possibly filtered credential ends in. */
  function Innermost(c: Credential): (p: Credential)
    ensures p.Plain?
  {
    match c
    case Plain(_, _) => c
    case Filtered(inner, _) => Innermost(inner)
  }

  /** The schemes the outermost filter allows, or `None` when the credential is not filtered. */
  function AllowedSchemes(c: Credential): Option<seq<string>>
  {
    match c
    case Plain(_, _) => None
    case Filtered(_, schemes) => Some(schemes)
  }

  /**
   * Maps the plugin's answer: an invalid answer declines; a valid one yields
   * its username and password, filtered by its scheme list when it has one.
   */
  function ToCredentialResponse(r: GetAuthenticationCredentialsResponse): (c: CredentialResponse)
    ensures c.status == Success <==> r.isValid
    ensures c.credentials.Some? <==> r.isValid
    ensures r.isValid ==>
      var cred := c.credentials.value;
      Innermost(cred) == Plain(r.username, r.password) &&
      AllowedSchemes(cred) == r.authTypes &&
      (cred.Filtered? ==> cred.inner.Plain?)
  {
    if r.isValid then
      var plain := Plain(r.username, r.password);
      var cred := if r.authTypes.Some? then Filtered(plain, r.authTypes.value) else plain;
      CredentialResponse(Some(cred), Success)
    else
      NotApplicable
  }

  /** The mapping forgets nothing of a valid answer. */
  lemma ValidAnswersMapApart(r1: GetAuthenticationCredentialsResponse, r2: GetAuthenticationCredentialsResponse)
    requires r1.isValid && r2.isValid && r1 != r2
    ensures ToCredentialResponse(r1) != ToCredentialResponse(r2)
  {
  }

  const IdPrefix := "SecurePluginCredentialProvider_"

  /** The provider's identifier: a fixed prefix followed by the rendering of the plugin file. */
  function ProviderId(plugin: PluginDiscoveryResult): (id: string)
    ensures |id| == |IdPrefix| + |plugin.pluginFile|
    ensures id[..|IdPrefix|] == IdPrefix
    ensures id[|IdPrefix|..] == plugin.pluginFile
  {
    IdPrefix + plugin.pluginFile
  }

  /** Providers whose plugin files render differently have different identifiers. */
  lemma ProviderIdsDiffer(p1: PluginDiscoveryResult, p2: PluginDiscoveryResult)
    requires p1.pluginFile != p2.pluginFile
    ensures ProviderId(p1) != ProviderId(p2)
  {
  }

  /** Why a credential request ended in an exception. */
  datatype Fault =
    | Contract(error: ContractError)  // the request could not be built
    | PluginFault(reason: string)     // the plugin could not be launched or the exchange failed

  /** What `GetAsync` returns, given the plugin's behaviour. */
  function Outcome(plugin: PluginDiscoveryResult, kind: CredentialRequestType, uri: Option<Uri>,
                   isRetry: bool, nonInteractive: bool,
                   launchFault: PluginDiscoveryResult -> Option<string>,
                   respond: (PluginDiscoveryResult, GetAuthenticationCredentialsRequest)
                            -> Result<GetAuthenticationCredentialsResponse, string>)
    : Result<CredentialResponse, Fault>
  {
    if kind == Proxy then Ok(NotApplicable)
    else
      var request := NewRequest(uri, isRetry, nonInteractive);
      if request.Err? then Err(Contract(request.error))
      else if launchFault(plugin).Some? then Err(PluginFault(launchFault(plugin).value))
      else
        var reply := respond(plugin, request.value);
        if reply.Err? then Err(PluginFault(reply.error))
        else Ok(ToCredentialResponse(reply.value))
  }

  /** The calls `GetAsync` makes, when the next plugin created gets id `nextId`. */
  function Events(plugin: PluginDiscoveryResult, nextId: nat, kind: CredentialRequestType,
                  uri: Option<Uri>, isRetry: bool, nonInteractive: bool,
                  launchFault: PluginDiscoveryResult -> Option<string>,
                  respond: (PluginDiscoveryResult, GetAuthenticationCredentialsRequest)
                           -> Result<GetAuthenticationCredentialsResponse, string>)
    : seq<Event>
  {
    if kind == Proxy then []
    else
      var request := NewRequest(uri, isRetry, nonInteractive);
      if request.Err? || launchFault(plugin).Some? then []
      else
        var h := PluginHandle(nextId, plugin);
        var sent := [Created(h), Sent(h, GetAuthCredentials, request.value)];
        if respond(plugin, request.value).Err? then sent else sent + [Disposed(h)]
  }

  /** A proxy request is declined without creating, calling or disposing of any plugin. */
  lemma ProxyNeverReachesAPlugin(plugin: PluginDiscoveryResult, nextId: nat, kind: CredentialRequestType,
                                 uri: Option<Uri>, isRetry: bool, nonInteractive: bool,
                                 launchFault: PluginDiscoveryResult -> Option<string>,
                                 respond: (PluginDiscoveryResult, GetAuthenticationCredentialsRequest)
                                          -> Result<GetAuthenticationCredentialsResponse, string>)
    requires kind == Proxy
    ensures Outcome(plugin, kind, uri, isRetry, nonInteractive, launchFault, respond) == Ok(NotApplicable)
    ensures Events(plugin, nextId, kind, uri, isRetry, nonInteractive, launchFault, respond) == []
  {
  }

  /** A null URI on any other request fails before a plugin is created. */
  lemma NullUriFailsBeforeAnyCall(plugin: PluginDiscoveryResult, nextId: nat, kind: CredentialRequestType,
                                  isRetry: bool, nonInteractive: bool,
                                  launchFault: PluginDiscoveryResult -> Option<string>,
                                  respond: (PluginDiscoveryResult, GetAuthenticationCredentialsRequest)
                                           -> Result<GetAuthenticationCredentialsResponse, string>)
    requires kind != Proxy
    ensures Outcome(plugin, kind, None, isRetry, nonInteractive, launchFault, respond)
            == Err(Contract(ArgumentNull("uri")))
    ensures Events(plugin, nextId, kind, None, isRetry, nonInteractive, launchFault, respond) == []
  {
  }

  /**
   * Otherwise: one plugin is created for the discovered plugin, the caller's
   * request is sent to it once, and that same plugin is disposed of once the
   * answer is in; the outcome is the mapped answer.
   */
  lemma ExchangeCallSequence(plugin: PluginDiscoveryResult, nextId: nat, kind: CredentialRequestType,
                             uri: Uri, isRetry: bool, nonInteractive: bool,
                             launchFault: PluginDiscoveryResult -> Option<string>,
                             respond: (PluginDiscoveryResult, GetAuthenticationCredentialsRequest)
                                      -> Result<GetAuthenticationCredentialsResponse, string>)
    requires kind != Proxy && launchFault(plugin).None?
    ensures
      var h := PluginHandle(nextId, plugin);
      var request := GetAuthenticationCredentialsRequest(uri, isRetry, nonInteractive);
      var reply := respond(plugin, request);
      Events(plugin, nextId, kind, Some(uri), isRetry, nonInteractive, launchFault, respond)
        == [Created(h), Sent(h, GetAuthCredentials, request)] + (if reply.Ok? then [Disposed(h)] else []) &&
      Outcome(plugin, kind, Some(uri), isRetry, nonInteractive, launchFault, respond)
        == if reply.Ok? then Ok(ToCredentialResponse(reply.value)) else Err(PluginFault(reply.error))
  {
  }

  /** Beyond "is it a proxy request", the kind of request changes neither the outcome nor the calls. */
  lemma KindDoesNotMatter(plugin: PluginDiscoveryResult, nextId: nat,
                          kind1: CredentialRequestType, kind2: CredentialRequestType,
                          uri: Option<Uri>, isRetry: bool, nonInteractive: bool,
                          launchFault: PluginDiscoveryResult -> Option<string>,
                          respond: (PluginDiscoveryResult, GetAuthenticationCredentialsRequest)
                                   -> Result<GetAuthenticationCredentialsResponse, string>)
    requires kind1 != Proxy && kind2 != Proxy
    ensures Outcome(plugin, kind1, uri, isRetry, nonInteractive, launchFault, respond)
            == Outcome(plugin, kind2, uri, isRetry, nonInteractive, launchFault, respond)
    ensures Events(plugin, nextId, kind1, uri, isRetry, nonInteractive, launchFault, respond)
            == Events(plugin, nextId, kind2, uri, isRetry, nonInteractive, launchFault, respond)
  {
  }

  /**
   * An exchange appended to a disciplined trace keeps it disciplined. A
   * successful exchange leaves no plugin running, and so does one that fails
   * before a plugin is created; one whose request faulted leaves its plugin
   * live, since nothing disposes of it on that path.
   */
  lemma ExchangeLeavesTrace(t: seq<Event>, plugin: PluginDiscoveryResult, nextId: nat,
                            kind: CredentialRequestType, uri: Option<Uri>, isRetry: bool, nonInteractive: bool,
                            launchFault: PluginDiscoveryResult -> Option<string>,
                            respond: (PluginDiscoveryResult, GetAuthenticationCredentialsRequest)
                                     -> Result<GetAuthenticationCredentialsResponse, string>)
    requires Disciplined(t) && forall i :: i in UsedIds(t) ==> i < nextId
    ensures
      var e := Events(plugin, nextId, kind, uri, isRetry, nonInteractive, launchFault, respond);
      var o := Outcome(plugin, kind, uri, isRetry, nonInteractive, launchFault, respond);
      Disciplined(t + e) &&
      (o.Ok? ==> Live(t + e) == Live(t)) &&
      (o.Err? && e == [] ==> Live(t + e) == Live(t)) &&
      (o.Err? && e != [] ==> Live(t + e) == Live(t) + {PluginHandle(nextId, plugin)})
  {
    var e := Events(plugin, nextId, kind, uri, isRetry, nonInteractive, launchFault, respond);
    if e != [] {
      var h := PluginHandle(nextId, plugin);
      var request := GetAuthenticationCredentialsRequest(uri.value, isRetry, nonInteractive);
      var t1 := t + [Created(h)];
      var t2 := t1 + [Sent(h, GetAuthCredentials, request)];
      Step(t, Created(h));
      Step(t1, Sent(h, GetAuthCredentials, request));
      LiveWereCreated(t, |t|);
      assert h !in Live(t);
      if respond(plugin, request).Ok? {
        Step(t2, Disposed(h));
        assert t + e == t2 + [Disposed(h)];
      } else {
        assert t + e == t2;
      }
    } else {
      assert t + e == t;
    }
  }

  class SecurePluginCredentialProvider {
    const discoveredPlugin: PluginDiscoveryResult
    /** Identifier of this credential provider. */
    const id: string

    constructor (plugin: PluginDiscoveryResult)
      ensures discoveredPlugin == plugin && id == ProviderId(plugin)
    {
      discoveredPlugin := plugin;
      id := ProviderId(plugin);
    }

    /**
     * Asks the discovered plugin for credentials for `uri`. `proxy` and
     * `message` are accepted and not used.
     */
    method GetAsync(manager: PluginManager, uri: Option<Uri>, proxy: WebProxy, kind: CredentialRequestType,
                    message: string, isRetry: bool, nonInteractive: bool)
      returns (r: Result<CredentialResponse, Fault>)
      requires manager.Valid()
      modifies manager
      ensures manager.Valid()
      ensures r == Outcome(discoveredPlugin, kind, uri, isRetry, nonInteractive,
                           manager.launchFault, manager.respond)
      ensures manager.trace == old(manager.trace) +
                Events(discoveredPlugin, old(manager.nextId), kind, uri, isRetry, nonInteractive,
                       manager.launchFault, manager.respond)
    {
      if kind == Proxy {
        return Ok(NotApplicable);
      }

      var request := NewRequest(uri, isRetry, nonInteractive);
      if request.Err? {
        return Err(Contract(request.error));
      }
      var created := manager.CreatePlugin(discoveredPlugin);
      if created.Err? {
        return Err(PluginFault(created.error));
      }
      var plugin := created.value;
      var reply := manager.SendRequest(plugin, GetAuthCredentials, request.value);
      if reply.Err? {
        return Err(PluginFault(reply.error));
      }
      var response := ToCredentialResponse(reply.value);

      // The plugin is not kept for a later request.
      manager.DisposeOfPlugin(plugin);

      return Ok(response);
    }
  }
}
