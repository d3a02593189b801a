/** The API-key guard (internal/adapters/handlers/http/middlewares/apikey.go).
    The `x-api-key` header and the WAYA_API_KEY environment value are
    parameters; the wrapped handler is represented by the reply it would give. */
module ApiKey {

  import opened Handlers

  const UnauthorizedMessage: string := "Unauthorized: Invalid or missing x-api-key"

  /** The reply, and whether the wrapped handler ran. */
  datatype Guarded = Guarded(reply: Reply, nextInvoked: bool)

  /** A request passes when its header is non-empty and equal to the expected key. */
  function APIKeyAuth(header: string, expected: string, next: Reply): (g: Guarded)
    ensures g.nextInvoked <==> header != "" && header == expected
    ensures g.nextInvoked ==> g.reply == next
    ensures !g.nextInvoked ==> g.reply == Reply(StatusUnauthorized, ErrorBody(UnauthorizedMessage))
  {
    if header == "" || header != expected then
      Guarded(Reply(StatusUnauthorized, ErrorBody(UnauthorizedMessage)), false)
    else
      Guarded(next, true)
  }

  /** With WAYA_API_KEY unset (empty), every request is rejected, even one whose
      header is empty too. */
  lemma UnsetKeyRejectsAll(header: string, next: Reply)
    ensures !APIKeyAuth(header, "", next).nextInvoked
    ensures APIKeyAuth(header, "", next).reply.code == StatusUnauthorized
  {
  }
}
