/** The credential record and the lifetime arithmetic that drives every refresh decision.
    Instants are unbounded counts of nanoseconds; durations are Go's 64-bit nanoseconds. */
module Credentials {
  import opened Basics
  import opened GoInt

  datatype Credential = Credential(
    token: string,
    subject: string,
    scopes: seq<string>,
    provider: string,
    expiresAt: Option<int>,
    refreshToken: string,
    clientId: string,
    tokenEndpoint: string,
    issuedAt: Option<int>)

  const DEFAULT_LIFETIME: int64 := 900 * SECOND
  const MIN_REFRESH_SKEW: int64 := 30 * SECOND

  /** The lifetime from which doubling no longer fits in 64 bits. */
  const DOUBLING_WRAPS: int := 0x4000_0000_0000_0000

  // ----- the proactive-refresh margin -----

  /** The margin in closed form, one line per regime. */
  function Skew(lifetime: int64): (s: int64)
    ensures lifetime <= 0 ==> s == 0
    ensures 0 < lifetime ==> 0 <= s <= lifetime / 2
  {
    if lifetime <= 0 then 0
    else if lifetime <= 60 * SECOND then lifetime / 2
    else if lifetime <= 225 * SECOND || DOUBLING_WRAPS <= lifetime then MIN_REFRESH_SKEW
    else 2 * lifetime / 15
  }

  /** The margin as the code computes it: a wrapping product, a truncating quotient, a floor
      and a cap. */
  method RefreshSkew(lifetime: int64) returns (skew: int64)
    ensures skew == Skew(lifetime)
  {
    if lifetime <= 0 {
      return 0;
    }
    skew := Quo(Wrap(lifetime * 2), 15);
    if skew < MIN_REFRESH_SKEW {
      skew := MIN_REFRESH_SKEW;
    }
    var half := Quo(lifetime, 2);
    if skew > half {
      skew := half;
    }
  }

  /** The margin as it is described, over unbounded integers: two fifteenths of the lifetime, at
      least thirty seconds, at most half the lifetime. */
  function Described(lifetime: int): int {
    if lifetime <= 0 then 0
    else
      var floored := if 2 * lifetime / 15 < MIN_REFRESH_SKEW then MIN_REFRESH_SKEW else 2 * lifetime / 15;
      if floored > lifetime / 2 then lifetime / 2 else floored
  }

  /** The code meets its description exactly for the lifetimes whose double fits in 64 bits. */
  lemma DescribedIff(lifetime: int64)
    ensures Skew(lifetime) == Described(lifetime) <==> lifetime < DOUBLING_WRAPS
  {
  }

  /** A server can advertise a lifetime at which it does not: this expires_in is recorded exactly, and
      its margin is thirty seconds rather than some nineteen years. */
  lemma RecordableLifetimeFallsShort()
    ensures var lifetime := RecordedLifetime(4_611_686_019);
            && lifetime == 4_611_686_019 * SECOND
            && Skew(lifetime) == MIN_REFRESH_SKEW < 600_000_000 * SECOND < Described(lifetime)
  {
    DescribedIff(RecordedLifetime(4_611_686_019));
  }

  /** The margin never shrinks as the lifetime grows, up to the point where doubling wraps; there it
      drops to the floor, from two fifteenths of 2^62 ns. */
  lemma SkewMonotone(a: int64, b: int64)
    requires a <= b
    ensures b < DOUBLING_WRAPS ==> Skew(a) <= Skew(b)
    ensures 226 * SECOND <= a < DOUBLING_WRAPS <= b ==> Skew(b) < Skew(a)
    ensures Skew(DOUBLING_WRAPS) < Skew(DOUBLING_WRAPS - 1)
  {
  }

  // ----- reading a credential -----

  predicate Refreshable(c: Credential) {
    c.refreshToken != "" && c.clientId != "" && c.tokenEndpoint != ""
  }

  function Lifetime(c: Credential): int64 {
    if c.expiresAt.None? then 0
    else if c.issuedAt.None? then DEFAULT_LIFETIME
    else Saturate(c.expiresAt.value - c.issuedAt.value)
  }

  /** Zero without an expiry, fifteen minutes without an issue instant, and otherwise the span between the
      two, cut off at the ends of the 64-bit range. */
  lemma LifetimeIs(c: Credential)
    ensures c.expiresAt.None? ==> Lifetime(c) == 0
    ensures c.expiresAt.Some? && c.issuedAt.None? ==> Lifetime(c) == 900 * SECOND
    ensures c.expiresAt.Some? && c.issuedAt.Some? ==>
              var span := c.expiresAt.value - c.issuedAt.value;
              && (-0x8000_0000_0000_0000 <= span < 0x8000_0000_0000_0000 ==> Lifetime(c) == span)
              && (span >= 0x8000_0000_0000_0000 ==> Lifetime(c) == 0x8000_0000_0000_0000 - 1)
              && (span < -0x8000_0000_0000_0000 ==> Lifetime(c) == -0x8000_0000_0000_0000)
  {
  }

  predicate Expired(c: Credential, now: int) {
    c.expiresAt.Some? && now >= c.expiresAt.value
  }

  predicate NeedsRefresh(c: Credential, now: int) {
    c.expiresAt.Some? && Refreshable(c) && now >= c.expiresAt.value - Skew(Lifetime(c))
  }

  /** Exactly when a credential is due, from its two instants: within two fifteenths of its lifetime
      before expiry, but no less than thirty seconds and no more than half the lifetime, and thirty
      seconds again from where the doubling wraps; within two minutes if its issue instant is unknown;
      never without an expiry or without the means to refresh. */
  lemma DueIff(c: Credential, now: int)
    ensures NeedsRefresh(c, now) ==>
              c.expiresAt.Some? && c.refreshToken != "" && c.clientId != "" && c.tokenEndpoint != ""
    ensures c.expiresAt.Some? && c.refreshToken != "" && c.clientId != "" && c.tokenEndpoint != "" ==>
              var left := c.expiresAt.value - now;
              && (c.issuedAt.None? ==> (NeedsRefresh(c, now) <==> left <= 120 * SECOND))
              && (c.issuedAt.Some? ==>
                    var lifetime := c.expiresAt.value - c.issuedAt.value;
                    && (lifetime <= 0 ==> (NeedsRefresh(c, now) <==> left <= 0))
                    && (0 < lifetime <= 60 * SECOND ==> (NeedsRefresh(c, now) <==> 2 * left <= lifetime))
                    && (60 * SECOND <= lifetime <= 225 * SECOND ==> (NeedsRefresh(c, now) <==> left <= 30 * SECOND))
                    && (225 * SECOND <= lifetime < DOUBLING_WRAPS ==>
                          (NeedsRefresh(c, now) <==> 15 * left <= 2 * lifetime))
                    && (DOUBLING_WRAPS <= lifetime ==> (NeedsRefresh(c, now) <==> left <= 30 * SECOND)))
    ensures Expired(c, now) <==> c.expiresAt.Some? && c.expiresAt.value - now <= 0
  {
  }

  /** An expired refreshable credential always needs refresh, and the need never lapses as
      time passes. */
  lemma NeedIsUpwardClosed(c: Credential, t: int, u: int)
    requires t <= u
    ensures NeedsRefresh(c, t) ==> NeedsRefresh(c, u)
    ensures Refreshable(c) && Expired(c, t) ==> NeedsRefresh(c, t)
  {
  }

  /** A credential judged fresh at `now` outlasts the longest permitted lock wait, provided its
      lifetime is at least twice that wait. */
  lemma FreshOutlastsLockWait(c: Credential, now: int, later: int)
    requires Refreshable(c) && !NeedsRefresh(c, now)
    requires c.expiresAt.Some? ==> Lifetime(c) >= 20 * SECOND
    requires later <= now + 10 * SECOND
    ensures !Expired(c, later)
  {
  }

  /** The bound is tight: below it, every lifetime admits an instant at which the credential is
      judged fresh and yet is dead when the wait runs out. */
  lemma ShorterLivesMayDieWaiting(c: Credential)
    requires Refreshable(c) && c.expiresAt.Some? && 0 < Lifetime(c) < 20 * SECOND
    ensures exists now :: !NeedsRefresh(c, now) && Expired(c, now + 10 * SECOND)
  {
    var now := c.expiresAt.value - Skew(Lifetime(c)) - 1;
    assert !NeedsRefresh(c, now) && Expired(c, now + 10 * SECOND);
  }

  // ----- the RFC 6749 section 6 exchange -----

  /** A decoded success body. `scope` is None when the field is empty, otherwise its words. */
  datatype TokenResponse = TokenResponse(
    accessToken: string,
    expiresIn: int64,
    refreshToken: string,
    scope: Option<seq<string>>,
    error: string,
    errorDescription: string)

  /** What the transport hands back: nothing, a body that could not be read, or a status with
      a text and the body it decoded to, if it did. */
  datatype Reply =
    | NoResponse
    | BodyUnread
    | Response(status: int, text: string, body: Option<TokenResponse>)

  datatype RefreshError =
    | NotRefreshable
    | Transport
    | Refused(status: int, code: string, description: string)
    | NotJson
    | NoAccessToken

  /** The lifetime recorded for an advertised `expires_in`. */
  function RecordedLifetime(expiresIn: int64): (r: int64)
    ensures r > 0
  {
    var l := Wrap(expiresIn * SECOND);
    if l <= 0 then DEFAULT_LIFETIME else l
  }

  /** Exactly which: the product with one second, reduced to 64 bits, if that is positive as a signed
      number, and fifteen minutes otherwise. */
  lemma RecordedLifetimeIs(expiresIn: int64)
    ensures var bits := expiresIn * SECOND % 0x1_0000_0000_0000_0000;
            RecordedLifetime(expiresIn) == if 0 < bits < 0x8000_0000_0000_0000 then bits else 900 * SECOND
    ensures 0 < expiresIn * SECOND < 0x8000_0000_0000_0000 ==> RecordedLifetime(expiresIn) == expiresIn * SECOND
    ensures -0x8000_0000_0000_0000 <= expiresIn * SECOND <= 0 ==> RecordedLifetime(expiresIn) == 900 * SECOND
  {
  }

  /** So a negative lifetime is not always read as absent: this one is recorded as almost 2^63 ns. */
  lemma NegativeLifetimeMayWrap()
    ensures RecordedLifetime(-9_223_372_037) == 0x8000_0000_0000_0000 - 145_224_192
  {
  }

  /** The credential a successful exchange yields. */
  function Renewed(c: Credential, now: int, tr: TokenResponse): Credential {
    Credential(
      tr.accessToken, c.subject,
      if tr.scope.Some? then tr.scope.value else c.scopes,
      c.provider,
      Some(now + RecordedLifetime(tr.expiresIn)),
      if tr.refreshToken == "" then c.refreshToken else tr.refreshToken,
      c.clientId, c.tokenEndpoint,
      Some(now))
  }

  /** What the exchange must make of each field: the bearer, and the refresh token and scopes where the
      reply has any, come from the reply; identity, client and endpoint stay; the instants are the
      captured one and the advertised lifetime after it, or fifteen minutes if none is advertised. */
  ghost predicate Carries(r: Credential, c: Credential, now: int, tr: TokenResponse) {
    && r.token == tr.accessToken
    && (tr.refreshToken != "" ==> r.refreshToken == tr.refreshToken)
    && (tr.refreshToken == "" ==> r.refreshToken == c.refreshToken)
    && (tr.scope.Some? ==> r.scopes == tr.scope.value)
    && (tr.scope.None? ==> r.scopes == c.scopes)
    && r.subject == c.subject && r.provider == c.provider
    && r.clientId == c.clientId && r.tokenEndpoint == c.tokenEndpoint
    && r.issuedAt == Some(now) && r.expiresAt.Some?
    && var bits := tr.expiresIn * SECOND % 0x1_0000_0000_0000_0000;
    && (0 < bits < 0x8000_0000_0000_0000 ==> r.expiresAt.value == now + bits)
    && (0 == bits || bits >= 0x8000_0000_0000_0000 ==> r.expiresAt.value == now + 900 * SECOND)
  }

  /** Field by field, with the usual cases of the lifetime spelled out. */
  lemma RenewedCarries(c: Credential, now: int, tr: TokenResponse)
    ensures Carries(Renewed(c, now, tr), c, now, tr)
    ensures 0 < tr.expiresIn * SECOND < 0x8000_0000_0000_0000 ==>
              Renewed(c, now, tr).expiresAt == Some(now + tr.expiresIn * SECOND)
    ensures -0x8000_0000_0000_0000 <= tr.expiresIn * SECOND <= 0 ==>
              Renewed(c, now, tr).expiresAt == Some(now + 900 * SECOND)
  {
    RecordedLifetimeIs(tr.expiresIn);
  }

  predicate Usable(reply: Reply) {
    reply.Response? && 200 <= reply.status <= 299 && reply.body.Some? && reply.body.value.accessToken != ""
  }

  function Truncate(s: string, n: nat): string {
    if |s| <= n then s else s[..n] + "\U{2026}"
  }

  /** `refreshAt` after the request has been answered: classify the reply, then fill in the
      new credential field by field. */
  method RefreshAt(c: Credential, now: int, reply: Reply) returns (r: Result<Credential, RefreshError>)
    // each outcome, from the credential and the reply alone
    ensures r == Err(NotRefreshable) <==> c.refreshToken == "" || c.clientId == "" || c.tokenEndpoint == ""
    ensures r == Err(Transport) <==> Refreshable(c) && !reply.Response?
    ensures r.Err? && r.error.Refused? <==> Refreshable(c) && reply.Response? && !(200 <= reply.status <= 299)
    ensures r.Err? && r.error.Refused? ==>
              && r.error.status == reply.status
              && match reply.body
                 case Some(tr) => r.error.code == tr.error && r.error.description == tr.errorDescription
                 case None =>
                   && r.error.code == ""
                   && (|reply.text| <= 200 ==> r.error.description == reply.text)
                   && (|reply.text| > 200 ==> r.error.description == reply.text[..200] + "\U{2026}")
    ensures r == Err(NotJson) <==>
              Refreshable(c) && reply.Response? && 200 <= reply.status <= 299 && reply.body.None?
    ensures r == Err(NoAccessToken) <==>
              && Refreshable(c) && reply.Response? && 200 <= reply.status <= 299
              && reply.body.Some? && reply.body.value.accessToken == ""
    ensures r.Ok? <==>
              && Refreshable(c) && reply.Response? && 200 <= reply.status <= 299
              && reply.body.Some? && reply.body.value.accessToken != ""
    ensures r.Ok? ==> Carries(r.value, c, now, reply.body.value)
    // so the call makes the credential the protocol's rotation writes
    ensures r.Ok? ==> r.value == Renewed(c, now, reply.body.value)
  {
    if !Refreshable(c) {
      return Err(NotRefreshable);
    }
    if !reply.Response? {
      return Err(Transport);
    }
    if reply.status < 200 || reply.status > 299 {
      var refused := Refused(reply.status, "", "");
      if reply.body.Some? {
        refused := refused.(code := reply.body.value.error);
        refused := refused.(description := reply.body.value.errorDescription);
      } else {
        refused := refused.(description := Truncate(reply.text, 200));
      }
      return Err(refused);
    }
    if reply.body.None? {
      return Err(NotJson);
    }
    var tr := reply.body.value;
    if tr.accessToken == "" {
      return Err(NoAccessToken);
    }
    var renewed := Credential(tr.accessToken, c.subject, c.scopes, c.provider, None,
                            tr.refreshToken, c.clientId, c.tokenEndpoint, None);
    if renewed.refreshToken == "" {
      renewed := renewed.(refreshToken := c.refreshToken);
    }
    if tr.scope.Some? {
      renewed := renewed.(scopes := tr.scope.value);
    }
    var lifetime := Wrap(tr.expiresIn * SECOND);
    if lifetime <= 0 {
      lifetime := DEFAULT_LIFETIME;
    }
    renewed := renewed.(issuedAt := Some(now));
    renewed := renewed.(expiresAt := Some(now + lifetime));
    RenewedCarries(c, now, tr);
    return Ok(renewed);
  }

  /** What every persisted rotation looks like: refreshable, stamped with its captured instant,
      and outside its own window at that instant. */
  predicate Rotation(c: Credential, now: int) {
    && Refreshable(c)
    && c.issuedAt == Some(now)
    && c.expiresAt == Some(now + Lifetime(c))
    && Lifetime(c) > 0
    && !Expired(c, now)
    && !NeedsRefresh(c, now)
  }

  /** For every 64-bit `expires_in`, wrapping or not, a renewed credential is usable at the
      instant it is issued and can itself be renewed. */
  lemma RenewedIsUsable(c: Credential, now: int, tr: TokenResponse)
    requires Refreshable(c)
    ensures Rotation(Renewed(c, now, tr), now)
    ensures Lifetime(Renewed(c, now, tr)) == RecordedLifetime(tr.expiresIn)
  {
  }

  /** A positive advertised lifetime is never overstated, so with `now` captured before the
      request was sent the recorded expiry is no later than the server's own. */
  lemma RecordedLifetimeNeverOverstates(expiresIn: int64, now: int, servedAt: int)
    requires expiresIn > 0 && now <= servedAt
    ensures RecordedLifetime(expiresIn) <= expiresIn * SECOND
    ensures now + RecordedLifetime(expiresIn) <= servedAt + expiresIn * SECOND
    ensures expiresIn * SECOND <= MAX64 ==> RecordedLifetime(expiresIn) == expiresIn * SECOND
  {
  }

  datatype Exchange = Exchange(now: int, response: TokenResponse)

  /** The credential after a chain of successful exchanges. */
  function Chain(c: Credential, xs: seq<Exchange>): Credential {
    if xs == [] then c
    else Renewed(Chain(c, xs[..|xs| - 1]), xs[|xs| - 1].now, xs[|xs| - 1].response)
  }

  /** However long the chain, every link is an expiring, refreshable credential that keeps the
      client, endpoint, subject and provider it started with. */
  lemma {:induction false} ChainStaysRefreshable(c: Credential, xs: seq<Exchange>)
    requires Refreshable(c)
    ensures Refreshable(Chain(c, xs))
    ensures xs != [] ==> Rotation(Chain(c, xs), xs[|xs| - 1].now)
    ensures Chain(c, xs).clientId == c.clientId && Chain(c, xs).tokenEndpoint == c.tokenEndpoint
    ensures Chain(c, xs).subject == c.subject && Chain(c, xs).provider == c.provider
  {
    if xs == [] {
    } else {
      var front, last := xs[..|xs| - 1], xs[|xs| - 1];
      ChainStaysRefreshable(c, front);
      RenewedIsUsable(Chain(c, front), last.now, last.response);
    }
  }
}
