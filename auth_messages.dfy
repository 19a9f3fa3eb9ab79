/**
 * The GetAuthenticationCredentials message pair of the plugin protocol:
 * the request contract with its null-checking constructor, its JSON payload
 * with three required members, and the response record the host receives.
 */
module AuthMessages {
  import opened Wrappers

  /** A `System.Uri`, treated as an opaque value. */
  datatype Uri = Uri(text: string)

  /** The exceptions the request contract raises. */
  datatype ContractError =
    | ArgumentNull(paramName: string)         // the constructor's null check
    | RequiredMemberMissing(memberName: string) // a [JsonRequired] member absent from the payload

  /**
   * The request. Its properties have private setters and are assigned only by
   * the constructor, so a value of this type never changes; `uri` has no null
   * case, so every request holds a URI.
   */
  datatype GetAuthenticationCredentialsRequest =
    GetAuthenticationCredentialsRequest(uri: Uri, isRetry: bool, nonInteractive: bool)

  /** The constructor: rejects a null `uri`, otherwise stores its three arguments. */
  function NewRequest(uri: Option<Uri>, isRetry: bool, nonInteractive: bool)
    : (r: Result<GetAuthenticationCredentialsRequest, ContractError>)
    ensures r.Ok? <==> uri.Some?
    ensures r.Err? ==> r.error == ArgumentNull("uri")
    ensures r.Ok? ==> r.value.uri == uri.value && r.value.isRetry == isRetry
                      && r.value.nonInteractive == nonInteractive
  {
    match uri
    case None => Err(ArgumentNull("uri"))
    case Some(u) => Ok(GetAuthenticationCredentialsRequest(u, isRetry, nonInteractive))
  }

  /** Whether a member occurs in a JSON object at all (a JSON `null` is `Present`). */
  datatype Member<+T> = Absent | Present(value: T)

  /** The JSON object a request is read from; the URI member may be an explicit null. */
  datatype RequestPayload = RequestPayload(
    uri: Member<Option<Uri>>,
    isRetry: Member<bool>,
    nonInteractive: Member<bool>)

  predicate Complete(p: RequestPayload) {
    p.uri.Present? && p.isRetry.Present? && p.nonInteractive.Present?
  }

  /**
   * Deserialization. The constructor runs first, with an absent member passed
   * as its default (a null URI, `false`), so a missing or null URI fails its
   * null check; only then are the remaining required members checked, in
   * declaration order. No absent member is ever defaulted into a request.
   */
  function Decode(p: RequestPayload): (r: Result<GetAuthenticationCredentialsRequest, ContractError>)
    ensures !Complete(p) ==> r.Err?
    ensures Complete(p) ==> r == NewRequest(p.uri.value, p.isRetry.value, p.nonInteractive.value)
    ensures p.uri != Present(None) && p.uri != Absent <==> r != Err(ArgumentNull("uri"))
    ensures p.uri.Present? && p.uri.value.Some? && !Complete(p) ==>
              r == Err(RequiredMemberMissing(if p.isRetry.Absent? then "IsRetry" else "NonInteractive"))
    ensures r.Ok? ==> Complete(p) && p.uri.value == Some(r.value.uri)
                      && p.isRetry.value == r.value.isRetry
                      && p.nonInteractive.value == r.value.nonInteractive
  {
    var uri := if p.uri.Present? then p.uri.value else None;
    var isRetry := if p.isRetry.Present? then p.isRetry.value else false;
    var nonInteractive := if p.nonInteractive.Present? then p.nonInteractive.value else false;
    var built := NewRequest(uri, isRetry, nonInteractive);
    if built.Err? then built
    else if p.isRetry.Absent? then Err(RequiredMemberMissing("IsRetry"))
    else if p.nonInteractive.Absent? then Err(RequiredMemberMissing("NonInteractive"))
    else built
  }

  /** Serialization writes all three members. */
  function Encode(req: GetAuthenticationCredentialsRequest): (p: RequestPayload)
    ensures Complete(p)
    ensures Decode(p) == Ok(req)
  {
    RequestPayload(Present(Some(req.uri)), Present(req.isRetry), Present(req.nonInteractive))
  }

  /** The plugin's answer; username, password and the scheme list may be null. */
  datatype GetAuthenticationCredentialsResponse = GetAuthenticationCredentialsResponse(
    isValid: bool,
    username: Option<string>,
    password: Option<string>,
    authTypes: Option<seq<string>>)
}
