/**
 * The optional shared-secret gate of the cron job and the follow-up email route: when a secret
 * is configured (a truthy environment value), the `authorization` header must be exactly
 * "Bearer " followed by it; when none is configured every request passes.
 */
module BearerAuth {
  import opened Wrappers
  import opened Text

  const BearerPrefix := "Bearer "

  /** The only header value a configured secret accepts. */
  function BearerOf(secret: string): string {
    BearerPrefix + secret
  }

  /** `!(secret && header !== \`Bearer ${secret}\`)`; a missing header is `null`, never equal to a string. */
  predicate Authorized(secret: Option<string>, header: Option<string>) {
    !Truthy(secret) || header == Some(BearerOf(secret.value))
  }

  /** Without a configured secret every request passes, with or without a header. */
  lemma NoSecretAdmitsAll(secret: Option<string>, header: Option<string>)
    requires !Truthy(secret)
    ensures Authorized(secret, header)
  {
  }

  /** A configured secret admits one header value and no other; a request without the header is refused. */
  lemma SecretAdmitsOnlyItsBearer(secret: Option<string>, header: Option<string>)
    requires Truthy(secret)
    ensures Authorized(secret, header) <==>
              && header.Some? && |header.value| >= |BearerPrefix|
              && header.value[..|BearerPrefix|] == BearerPrefix
              && header.value[|BearerPrefix|..] == secret.value
  {
    if header.Some? && |header.value| >= |BearerPrefix| && header.value[..|BearerPrefix|] == BearerPrefix
       && header.value[|BearerPrefix|..] == secret.value {
      assert header.value == header.value[..|BearerPrefix|] + header.value[|BearerPrefix|..];
    }
  }

  /** Two different secrets never accept the same header. */
  lemma BearerInjective(a: string, b: string)
    requires BearerOf(a) == BearerOf(b)
    ensures a == b
  {
    assert a == BearerOf(a)[|BearerPrefix|..];
  }
}
