/**
 * `PaypalProvider`: the PayPal REST client. It caches the OAuth bearer token
 * obtained by the client-credentials grant (section 4.4 of RFC 6749) and
 * refreshes it 60 seconds before the `expires_in` lifetime (section 5.1 of
 * RFC 6749) runs out. HTTP is not performed: each request sent is appended
 * to the ghost log `requests`, and each reply (or the message of what the
 * call threw) is a parameter. Times are milliseconds.
 */
module PayPal {
  import opened Wrappers
  import opened JsText

  const SandboxUrl := "https://api-m.sandbox.paypal.com"

  /** `configService.get('PAYPAL_BASE_URL') || sandbox`: missing or empty means sandbox. */
  function BaseUrlOf(configured: Option<string>): (r: string)
    ensures configured.Some? && configured.value != "" ==> r == configured.value
    ensures configured.None? || configured.value == "" ==> r == SandboxUrl
  {
    if configured.Some? && configured.value != "" then configured.value else SandboxUrl
  }

  /** `x.toFixed(2)` for `x` = a / 100 with `a` a natural number of minor units. */
  function UnsignedAmount(a: nat): (s: string)
    ensures |s| >= 4 && s[|s| - 3] == '.' && IsDigit(s[0])
  {
    NatToString(a / 100) + "." + [DigitChar(a % 100 / 10), DigitChar(a % 10)]
  }

  /** `(amount / 100).toFixed(2)` for an integer number of minor units. */
  function FormatAmount(amount: int): (s: string)
    ensures |s| >= 4 && s[|s| - 3] == '.'
    ensures (amount < 0) <==> s[0] == '-'
  {
    if amount < 0 then "-" + UnsignedAmount(-amount) else UnsignedAmount(amount)
  }

  /** Reads digits, '.', and exactly two digits back into minor units. */
  function ParseUnsigned(body: string): (r: Option<nat>) {
    if |body| < 4 || body[|body| - 3] != '.' then None
    else
      var whole := body[..|body| - 3];
      var frac := body[|body| - 2..];
      if !AllDigits(whole) || !AllDigits(frac) then None
      else Some(DigitsValue(whole) * 100 + DigitsValue(frac))
  }

  /** Reads a decimal amount with exactly two fraction digits, optionally negative, into minor units. */
  function ParseAmount(s: string): (r: Option<int>) {
    if |s| > 0 && s[0] == '-' then
      match ParseUnsigned(s[1..])
      case Some(v) => Some(-(v as int))
      case None => None
    else
      match ParseUnsigned(s)
      case Some(v) => Some(v as int)
      case None => None
  }

  lemma {:induction false} TwoDigitsValue(a: nat)
    ensures AllDigits([DigitChar(a % 100 / 10), DigitChar(a % 10)])
    ensures DigitsValue([DigitChar(a % 100 / 10), DigitChar(a % 10)]) == a % 100
  {
    var f := [DigitChar(a % 100 / 10), DigitChar(a % 10)];
    assert f[..1] == [DigitChar(a % 100 / 10)] && f[..1][..0] == [];
    assert DigitsValue(f[..1]) == a % 100 / 10;
  }

  lemma {:induction false} UnsignedRoundTrip(a: nat)
    ensures ParseUnsigned(UnsignedAmount(a)) == Some(a)
  {
    var w := NatToString(a / 100);
    var f := [DigitChar(a % 100 / 10), DigitChar(a % 10)];
    var body := UnsignedAmount(a);
    assert body == w + "." + f;
    assert body[..|body| - 3] == w;
    assert body[|body| - 2..] == f;
    NatToStringRoundTrip(a / 100);
    TwoDigitsValue(a);
  }

  /** The amount string PayPal receives denotes exactly the amount in minor units. */
  lemma {:induction false} FormatAmountRoundTrip(amount: int)
    ensures ParseAmount(FormatAmount(amount)) == Some(amount)
  {
    if amount < 0 {
      UnsignedRoundTrip(-amount);
      ParseNegated(UnsignedAmount(-amount), -amount);
    } else {
      UnsignedRoundTrip(amount);
    }
  }

  /** A minus sign in front of an amount that reads as `v` reads as `-v`. */
  lemma ParseNegated(u: string, v: nat)
    requires ParseUnsigned(u) == Some(v)
    ensures ParseAmount("-" + u) == Some(-(v as int))
  {
    assert ("-" + u)[1..] == u;
  }

  /** The access token response of RFC 6749 section 5.1; `expiresIn` is in seconds. */
  datatype TokenReply = TokenReply(accessToken: string, expiresIn: int)

  /** The part of a PayPal order the service reads. */
  datatype PayPalOrder = PayPalOrder(id: string, status: string)

  datatype Body =
    | TokenForm(grant: string, credentials: string)
    | OrderBody(intent: string, currencyCode: string, value: string, referenceId: string)
    | RefundBody(currencyCode: string, value: string)
    | EmptyJson
    | NoBody

  datatype Verb = Get | Post

  datatype Request = Request(verb: Verb, url: string, authorization: string, body: Body)

  /** When a token fetched at `now` with lifetime `expiresIn` is refreshed: 60 s early. */
  function ExpiryAfter(now: int, expiresIn: int): (t: int)
    ensures t == now + expiresIn * 1000 - 60000
  {
    now + (expiresIn - 60) * 1000
  }

  /** `this.accessToken && this.tokenExpiry && new Date() < this.tokenExpiry`. */
  predicate Fresh(token: Option<string>, expiry: Option<int>, now: int) {
    token.Some? && token.value != "" && expiry.Some? && now < expiry.value
  }

  /** The cached token and expiry after `getAccessToken` at `now`. */
  function NextCache(token: Option<string>, expiry: Option<int>, now: int, fetched: Result<TokenReply, string>):
    (c: (Option<string>, Option<int>))
    ensures Fresh(token, expiry, now) || fetched.Failure? ==> c == (token, expiry)
    ensures !Fresh(token, expiry, now) && fetched.Success? ==>
      c == (Some(fetched.value.accessToken), Some(ExpiryAfter(now, fetched.value.expiresIn)))
  {
    if Fresh(token, expiry, now) || fetched.Failure? then (token, expiry)
    else (Some(fetched.value.accessToken), Some(ExpiryAfter(now, fetched.value.expiresIn)))
  }

  /**
   * A non-empty token fetched at `now` stays fresh until its early expiry and
   * not a moment longer; a cached token that is still fresh is kept.
   */
  lemma FetchedTokenFreshUntilExpiry(token: Option<string>, expiry: Option<int>, now: int,
                                     fetched: Result<TokenReply, string>, later: int)
    requires fetched.Success? && fetched.value.accessToken != "" && !Fresh(token, expiry, now)
    ensures var c := NextCache(token, expiry, now, fetched);
      Fresh(c.0, c.1, later) <==> later < now + fetched.value.expiresIn * 1000 - 60000
  {
  }

  class PaypalProvider {
    const baseUrl: string
    const clientId: string
    const clientSecret: string
    var accessToken: Option<string>
    var tokenExpiry: Option<int>
    ghost var requests: seq<Request>

    constructor (configuredUrl: Option<string>, clientId: string, clientSecret: string)
      ensures baseUrl == BaseUrlOf(configuredUrl) && this.clientId == clientId && this.clientSecret == clientSecret
      ensures accessToken.None? && tokenExpiry.None? && requests == []
    {
      baseUrl := BaseUrlOf(configuredUrl);
      this.clientId := clientId;
      this.clientSecret := clientSecret;
      accessToken := None;
      tokenExpiry := None;
      requests := [];
    }

    predicate CacheValid(now: int)
      reads this
    {
      Fresh(accessToken, tokenExpiry, now)
    }

    /** The token request: the client-credentials grant, authenticated with the client's id and secret. */
    function TokenRequest(): (r: Request)
      reads this
      ensures r.url == baseUrl + "/v1/oauth2/token" && r.verb == Post
      ensures r.body == TokenForm("grant_type=client_credentials", clientId + ":" + clientSecret)
    {
      Request(Post, baseUrl + "/v1/oauth2/token", "Basic", TokenForm("grant_type=client_credentials", clientId + ":" + clientSecret))
    }

    /**
     * `getAccessToken()`: the cached token while it is valid, with no
     * request; otherwise one token request, whose reply replaces the cache.
     */
    method GetAccessToken(now: int, fetched: Result<TokenReply, string>) returns (r: Result<string, string>)
      modifies this`accessToken, this`tokenExpiry, this`requests
      ensures old(CacheValid(now)) ==>
        && r == Success(old(accessToken).value)
        && accessToken == old(accessToken) && tokenExpiry == old(tokenExpiry) && requests == old(requests)
      ensures !old(CacheValid(now)) ==> requests == old(requests) + [TokenRequest()]
      ensures !old(CacheValid(now)) && fetched.Failure? ==>
        r == Failure(fetched.error) && accessToken == old(accessToken) && tokenExpiry == old(tokenExpiry)
      ensures !old(CacheValid(now)) && fetched.Success? ==>
        && accessToken == Some(fetched.value.accessToken)
        && tokenExpiry == Some(ExpiryAfter(now, fetched.value.expiresIn))
        && r == Success(fetched.value.accessToken)
      ensures r.Success? ==> accessToken == Some(r.value)
      ensures (accessToken, tokenExpiry) == NextCache(old(accessToken), old(tokenExpiry), now, fetched)
    {
      if CacheValid(now) {
        return Success(accessToken.value);
      }
      requests := requests + [TokenRequest()];
      if fetched.Failure? {
        return Failure(fetched.error);
      }
      accessToken := Some(fetched.value.accessToken);
      tokenExpiry := Some(ExpiryAfter(now, fetched.value.expiresIn));
      r := Success(accessToken.value);
    }

    /** The log after `getAccessToken` at `now`: the token request when the cache was stale. */
    ghost function TokenPhase(log: seq<Request>, valid: bool): (r: seq<Request>)
      reads this
    {
      if valid then log else log + [TokenRequest()]
    }

    /**
     * Obtains the token, then sends `req(token)` and returns `reply`; a
     * failed token fetch is thrown before the request.
     */
    method Authorized(now: int, fetched: Result<TokenReply, string>, req: string -> Request,
                      reply: Result<PayPalOrder, string>)
      returns (r: Result<PayPalOrder, string>)
      modifies this`accessToken, this`tokenExpiry, this`requests
      ensures (accessToken, tokenExpiry) == NextCache(old(accessToken), old(tokenExpiry), now, fetched)
      ensures var pre := TokenPhase(old(requests), old(CacheValid(now)));
        && (!old(CacheValid(now)) && fetched.Failure? ==> r == Failure(fetched.error) && requests == pre)
        && (old(CacheValid(now)) || fetched.Success? ==>
              && accessToken.Some?
              && requests == pre + [req(accessToken.value)]
              && r == reply)
    {
      var token := GetAccessToken(now, fetched);
      if token.Failure? {
        return Failure(token.error);
      }
      requests := requests + [req(token.value)];
      r := reply;
    }

    /** `createOrder({amount, currency, orderId})`. */
    method CreateOrder(amount: int, currency: string, orderId: string, now: int,
                       fetched: Result<TokenReply, string>, reply: Result<PayPalOrder, string>)
      returns (r: Result<PayPalOrder, string>)
      modifies this`accessToken, this`tokenExpiry, this`requests
      ensures (accessToken, tokenExpiry) == NextCache(old(accessToken), old(tokenExpiry), now, fetched)
      ensures var pre := TokenPhase(old(requests), old(CacheValid(now)));
        && (!old(CacheValid(now)) && fetched.Failure? ==> r == Failure(fetched.error) && requests == pre)
        && (old(CacheValid(now)) || fetched.Success? ==>
              && accessToken.Some? && r == reply
              && requests == pre + [Request(Post, baseUrl + "/v2/checkout/orders", "Bearer " + accessToken.value,
                                            OrderBody("CAPTURE", currency, FormatAmount(amount), orderId))])
    {
      r := Authorized(now, fetched,
        token => Request(Post, baseUrl + "/v2/checkout/orders", "Bearer " + token,
                         OrderBody("CAPTURE", currency, FormatAmount(amount), orderId)),
        reply);
    }

    /** `captureOrder(orderId)`. */
    method CaptureOrder(orderId: string, now: int, fetched: Result<TokenReply, string>,
                        reply: Result<PayPalOrder, string>)
      returns (r: Result<PayPalOrder, string>)
      modifies this`accessToken, this`tokenExpiry, this`requests
      ensures (accessToken, tokenExpiry) == NextCache(old(accessToken), old(tokenExpiry), now, fetched)
      ensures var pre := TokenPhase(old(requests), old(CacheValid(now)));
        && (!old(CacheValid(now)) && fetched.Failure? ==> r == Failure(fetched.error) && requests == pre)
        && (old(CacheValid(now)) || fetched.Success? ==>
              && accessToken.Some? && r == reply
              && requests == pre + [Request(Post, baseUrl + "/v2/checkout/orders/" + orderId + "/capture",
                                            "Bearer " + accessToken.value, EmptyJson)])
    {
      r := Authorized(now, fetched,
        token => Request(Post, baseUrl + "/v2/checkout/orders/" + orderId + "/capture", "Bearer " + token, EmptyJson),
        reply);
    }

    /** `getOrder(orderId)`. */
    method GetOrder(orderId: string, now: int, fetched: Result<TokenReply, string>,
                    reply: Result<PayPalOrder, string>)
      returns (r: Result<PayPalOrder, string>)
      modifies this`accessToken, this`tokenExpiry, this`requests
      ensures (accessToken, tokenExpiry) == NextCache(old(accessToken), old(tokenExpiry), now, fetched)
      ensures var pre := TokenPhase(old(requests), old(CacheValid(now)));
        && (!old(CacheValid(now)) && fetched.Failure? ==> r == Failure(fetched.error) && requests == pre)
        && (old(CacheValid(now)) || fetched.Success? ==>
              && accessToken.Some? && r == reply
              && requests == pre + [Request(Get, baseUrl + "/v2/checkout/orders/" + orderId,
                                            "Bearer " + accessToken.value, NoBody)])
    {
      r := Authorized(now, fetched,
        token => Request(Get, baseUrl + "/v2/checkout/orders/" + orderId, "Bearer " + token, NoBody),
        reply);
    }

    /**
     * `refundOrder(captureId, {amount: minor / 100, currency})`: the caller's
     * division and `toFixed(2)` together give `FormatAmount(minor)`.
     */
    method RefundOrder(captureId: string, minor: int, currency: string, now: int,
                       fetched: Result<TokenReply, string>, reply: Result<PayPalOrder, string>)
      returns (r: Result<PayPalOrder, string>)
      modifies this`accessToken, this`tokenExpiry, this`requests
      ensures (accessToken, tokenExpiry) == NextCache(old(accessToken), old(tokenExpiry), now, fetched)
      ensures var pre := TokenPhase(old(requests), old(CacheValid(now)));
        && (!old(CacheValid(now)) && fetched.Failure? ==> r == Failure(fetched.error) && requests == pre)
        && (old(CacheValid(now)) || fetched.Success? ==>
              && accessToken.Some? && r == reply
              && requests == pre + [Request(Post, baseUrl + "/v2/payments/captures/" + captureId + "/refund",
                                            "Bearer " + accessToken.value, RefundBody(currency, FormatAmount(minor)))])
    {
      r := Authorized(now, fetched,
        token => Request(Post, baseUrl + "/v2/payments/captures/" + captureId + "/refund", "Bearer " + token,
                         RefundBody(currency, FormatAmount(minor))),
        reply);
    }
  }

  /**
   * Two calls within the cached token's lifetime: the second sends only its
   * own request and reuses the first call's token.
   */
  method TwoCallsShareToken(provider: PaypalProvider, id1: string, id2: string, now: int, later: int,
                            fetched: TokenReply, reply1: Result<PayPalOrder, string>,
                            reply2: Result<PayPalOrder, string>)
    returns (r1: Result<PayPalOrder, string>, r2: Result<PayPalOrder, string>)
    requires fetched.accessToken != "" && now <= later < ExpiryAfter(now, fetched.expiresIn)
    requires !provider.CacheValid(now)
    modifies provider`accessToken, provider`tokenExpiry, provider`requests
    ensures r1 == reply1 && r2 == reply2
    ensures provider.requests == old(provider.requests) + [
      provider.TokenRequest(),
      Request(Get, provider.baseUrl + "/v2/checkout/orders/" + id1, "Bearer " + fetched.accessToken, NoBody),
      Request(Get, provider.baseUrl + "/v2/checkout/orders/" + id2, "Bearer " + fetched.accessToken, NoBody)]
    ensures provider.accessToken == Some(fetched.accessToken)
  {
    r1 := provider.GetOrder(id1, now, Success(fetched), reply1);
    FetchedTokenFreshUntilExpiry(old(provider.accessToken), old(provider.tokenExpiry), now, Success(fetched), later);
    r2 := provider.GetOrder(id2, later, Failure("not fetched"), reply2);
  }
}
