# NuGet secure plugin credential exchange, modelled in Dafny

This project models how NuGet obtains credentials from a credential plugin
over the plugin protocol:

- `AuthMessages` (`auth_messages.dfy`) is the `GetAuthenticationCredentials`
  message contract. The request has three required members (`Uri`, `IsRetry`,
  `NonInteractive`). It has a constructor that rejects a null URI. It is read
  from a JSON object through that same constructor. The module also holds the
  response record (`IsValid`, `Username`, `Password`, `AuthTypes`).
- `PluginManagement` (`plugin_manager.dfy`) is the plugin manager and the
  plugin connection, seen only from outside. Launching a plugin and the
  plugin's answer to a request are oracles fixed when the manager is built.
  Each create, send and dispose call is appended to a ghost trace. The manager
  keeps the trace *disciplined*: every plugin gets a fresh id, and a request
  goes only to a plugin that was created and not yet disposed of.
- `Credentials` (`credential_provider.dfy`) is `SecurePluginCredentialProvider`.
  Its constructor forms the provider `Id`. `GetAsync` declines proxy requests
  at once. For any other request it builds the request, creates a plugin,
  sends one `GetAuthCredentials` request, maps the answer and disposes of the
  plugin. `ToCredentialResponse` maps the plugin's answer to a credential
  response.
- `Wrappers` (`wrappers.dfy`) holds `Option` (`None` is .NET `null`) and
  `Result` (`Err` is a thrown exception).

The request is a datatype whose `uri` has no null case. So every request
holds a URI, and no request changes after it is built: the source's
properties have private setters and are assigned only in the constructor.
Credentials are the datatype `Plain(username, password) | Filtered(inner,
authTypes)`.

`GetAsync` is specified by two functions of its inputs and the plugin's
behaviour. `Outcome` gives the result. `Events` gives the calls appended to
the manager's trace. The lemmas beside them state the call sequence, the
proxy short-circuit and how the exchange affects which plugins are live.

`GetAsync` is not total. A null URI on a non-proxy request throws
`ArgumentNullException` (SecurePluginCredentialProvider.cs:53). A failure to
launch the plugin or a failed request propagates unchanged. The model returns
these as `Err(Fault)`. A declined request is a value, `ProviderNotApplicable`
with no credential, not an exception.

The plugin is disposed of only after a successful answer: there is no
`finally`, so a failed request leaves its plugin undisposed.
`ExchangeLeavesTrace` states both cases.

## Model

| member | source | states |
|---|---|---|
| AuthMessages.NewRequest | src/NuGet.Core/NuGet.Protocol/Plugins/Messages/GetAuthenticationCredentials.cs:22-28 | Construction succeeds exactly when the URI is non-null. A null URI gives `ArgumentNull("uri")` and no request. On success the URI, `isRetry` and `nonInteractive` are stored exactly as given. |
| AuthMessages.Decode | src/NuGet.Core/NuGet.Protocol/Plugins/Messages/GetAuthenticationCredentials.cs:13-28 | A payload missing any of the three required members is rejected, never defaulted. A missing or null `Uri` fails the constructor's check with `ArgumentNull("uri")`, and no other payload does. With a URI present, a missing `IsRetry`, else a missing `NonInteractive`, gives `RequiredMemberMissing` for it. A complete payload decodes exactly as the constructor does. A decoded request holds exactly the payload's values. |
| AuthMessages.Encode | src/NuGet.Core/NuGet.Protocol/Plugins/Messages/GetAuthenticationCredentials.cs:13-20 | Serialization writes all three required members, and decoding what it writes gives back the same request. |
| Credentials.ToCredentialResponse | src/NuGet.Clients/NuGet.Credentials/SecurePluginCredentialProvider.cs:67-86 | Total. The status is `Success` and a credential is present exactly when `IsValid`; otherwise the result is `ProviderNotApplicable` with no credential. A valid answer's credential ends in the answer's username and password. It is filtered exactly when `AuthTypes` is non-null, by one filter whose scheme list is `AuthTypes` in the same order. |
| Credentials.ValidAnswersMapApart | src/NuGet.Clients/NuGet.Credentials/SecurePluginCredentialProvider.cs:70-78 | Two different valid answers map to different credential responses: no username, password or scheme is lost. |
| Credentials.ProviderId | src/NuGet.Clients/NuGet.Credentials/SecurePluginCredentialProvider.cs:22 | The identifier is `SecurePluginCredentialProvider_` followed by the rendering of the plugin file, and that rendering can be read back from it. |
| Credentials.ProviderIdsDiffer | src/NuGet.Clients/NuGet.Credentials/SecurePluginCredentialProvider.cs:22 | Providers whose plugin files render differently have different identifiers. |
| Credentials.SecurePluginCredentialProvider.constructor | src/NuGet.Clients/NuGet.Credentials/SecurePluginCredentialProvider.cs:18-23 | Stores the discovered plugin and sets `id` to its `ProviderId`. |
| Credentials.SecurePluginCredentialProvider.GetAsync | src/NuGet.Clients/NuGet.Credentials/SecurePluginCredentialProvider.cs:44-65 | Returns `Outcome` of its inputs and appends exactly `Events` to the manager's trace. The manager's trace stays disciplined. `proxy` and `message` have no effect. |
| Credentials.ProxyNeverReachesAPlugin | src/NuGet.Clients/NuGet.Credentials/SecurePluginCredentialProvider.cs:47-51 | A proxy request yields `ProviderNotApplicable`, whatever its URI. No plugin is created, no request is sent and nothing is disposed of. |
| Credentials.NullUriFailsBeforeAnyCall | src/NuGet.Clients/NuGet.Credentials/SecurePluginCredentialProvider.cs:53 | A non-proxy request with a null URI fails with `ArgumentNull("uri")` before any plugin is created. |
| Credentials.ExchangeCallSequence | src/NuGet.Clients/NuGet.Credentials/SecurePluginCredentialProvider.cs:53-62 | Otherwise, in order: a plugin is created for the discovered plugin, one `GetAuthCredentials` request with the caller's URI, `isRetry` and `nonInteractive` is sent to it, and that same plugin is disposed of once an answer arrives. The outcome is the mapped answer, or the fault of the failed request. |
| Credentials.KindDoesNotMatter | src/NuGet.Clients/NuGet.Credentials/SecurePluginCredentialProvider.cs:31-36 | Any two non-proxy request kinds give the same outcome and the same calls. |
| Credentials.ExchangeLeavesTrace | src/NuGet.Clients/NuGet.Credentials/SecurePluginCredentialProvider.cs:54-62 | An exchange keeps a disciplined trace disciplined. After a successful exchange, or one that fails before a plugin is created, the set of live plugins is as before. After a failed request the exchange's plugin is still live. |
| PluginManagement.LiveWereCreated | src/NuGet.Clients/NuGet.Credentials/SecurePluginCredentialProvider.cs:54 | After any prefix of the trace, every live plugin was created within that prefix. |
| PluginManagement.PluginManager.CreatePlugin | src/NuGet.Clients/NuGet.Credentials/SecurePluginCredentialProvider.cs:54 | Fails with the launch fault, or creates a plugin for the discovered plugin under an id not used before, and records the creation. |
| PluginManagement.PluginManager.SendRequest | src/NuGet.Clients/NuGet.Credentials/SecurePluginCredentialProvider.cs:55-58 | Accepts only a live plugin, returns that plugin's answer to the request and records the request. |
| PluginManagement.PluginManager.DisposeOfPlugin | src/NuGet.Clients/NuGet.Credentials/SecurePluginCredentialProvider.cs:62 | Records the disposal; the plugin is no longer live. |

## Left out

- The plugin manager, plugin process and connection are not part of this model. They are two deterministic oracles: the launch fault per discovered plugin, and the answer per plugin and request. Process spawning, handshakes, sharing plugins between callers, correlation ids and lifecycle states are not modelled.
- `async`/`await` and the `CancellationToken`: cancellation and timeouts are not modelled. A request either gets an answer or faults.
- The `Logger` constructor argument is stored and never used by this code, so it is not modelled.
- JSON framing and `System.Uri` parsing: a URI is an opaque value, and a payload is a record of members that are absent or present.
- Decode: follows the JSON library's order, in which the constructor runs before the required-member check. Whether the library wraps the constructor's exception is not modelled. An explicit JSON `null` for `IsRetry` or `NonInteractive` is not representable in the model.
- DisposeOfPlugin: modelled as never failing. If the awaited disposal threw, the response already mapped would be lost and `GetAsync` would throw instead.
- `NetworkCredential` and `AuthTypeFilteredCredentials` are library types. How a filtered credential is matched against a scheme, and how `NetworkCredential` stores a null username or password, are not modelled.
- `CredentialResponse` and `CredentialStatus` are modelled with only the two statuses this code produces.
- `PluginDiscoveryResult.pluginFile` is the text the plugin file renders as in the identifier. `PluginFile` itself is not part of this model, so whether two plugin files render differently is not established here. The identifiers are unique per plugin only if they do.
