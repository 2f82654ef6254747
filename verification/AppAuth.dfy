/** The two credential caches of GitHub App authentication (appauth/transport.go, appauth/jwt.go). */
module AppAuth {
  import opened Common
  import opened RateLimit

  const MINUTE: int := 60 * SECOND
  const JWT_TTL: int := 10 * MINUTE
  const JWT_BACKDATE: int := 60 * SECOND
  const TOKEN_REFRESH_LEAD: int := MINUTE

  /** time.Time.Unix: whole seconds, rounded down. */
  function Unix(t: int): int {
    t / SECOND
  }

  // ---------------------------------------------------------------- app JWTs

  /** The claims of a JWT signed at `signedAt`; NumericDate claims are whole seconds (RFC 7519). */
  datatype Jwt = Jwt(iat: int, exp: int, signedAt: int)

  function Sign(now: int): Jwt {
    Jwt(Unix(now - JWT_BACKDATE), Unix(now + JWT_TTL), now)
  }

  /** jwtValidUntil (jwt.go:94-96). */
  function ValidUntil(now: int): int {
    now + (JWT_TTL - JWT_BACKDATE - TOKEN_REFRESH_LEAD)
  }

  /** One call of currentJWT: when, and whether signing would succeed. */
  datatype Call = Call(at: int, signs: bool)

  /** The most recent successful signature, if any. */
  function Cached(calls: seq<Call>): Option<Jwt> {
    if calls == [] then None
    else
      var before := Cached(calls[..|calls| - 1]);
      var c := calls[|calls| - 1];
      if before.Some? && c.at < ValidUntil(before.value.signedAt) then before
      else if c.signs then Some(Sign(c.at)) else before
  }

  /** What the last call returns; None is a signing error. */
  function Answer(calls: seq<Call>): Option<Jwt>
    requires calls != []
  {
    var c := calls[|calls| - 1];
    var cached := Cached(calls);
    if cached.Some? && c.at < ValidUntil(cached.value.signedAt) then cached else None
  }

  /** When signatures were made, in order. */
  function Signatures(calls: seq<Call>): seq<int> {
    if calls == [] then []
    else
      var before := Cached(calls[..|calls| - 1]);
      var c := calls[|calls| - 1];
      Signatures(calls[..|calls| - 1]) +
      if !(before.Some? && c.at < ValidUntil(before.value.signedAt)) && c.signs then [c.at] else []
  }

  /** The clock never goes back. */
  predicate Ordered(calls: seq<Call>) {
    forall i, j :: 0 <= i <= j < |calls| ==> calls[i].at <= calls[j].at
  }

  lemma {:induction false} CachedIsLast(calls: seq<Call>)
    requires Ordered(calls)
    ensures var s := Signatures(calls);
            Cached(calls) == if s == [] then None else Some(Sign(s[|s| - 1]))
    ensures forall i :: 0 <= i < |Signatures(calls)| ==> calls != [] && Signatures(calls)[i] <= calls[|calls| - 1].at
  {
    if calls != [] {
      var n := |calls| - 1;
      CachedIsLast(calls[..n]);
      assert n > 0 ==> calls[..n][n - 1] == calls[n - 1] && calls[n - 1].at <= calls[n].at;
    }
  }

  /**
    Every JWT returned is the one signed last, less than 8 minutes ago: issued 60 seconds before
    it was signed and expiring 10 minutes after, in whole seconds (RFC 7519, section 2).
   */
  lemma JwtIsLastSigned(calls: seq<Call>)
    requires Ordered(calls) && calls != [] && Answer(calls).Some?
    ensures Signatures(calls) != []
    ensures var s, j := Signatures(calls)[|Signatures(calls)| - 1], Answer(calls).value;
            && s <= calls[|calls| - 1].at < s + 480_000_000_000
            && j.iat == (s - 60_000_000_000) / 1_000_000_000
            && j.exp == (s + 600_000_000_000) / 1_000_000_000
  {
    CachedIsLast(calls);
  }

  /**
    So every JWT returned at t was issued in the past and has more than 2 minutes less one
    second left, and never more than GitHub's 10 minutes.
   */
  lemma JwtFresh(calls: seq<Call>)
    requires Ordered(calls) && calls != [] && Answer(calls).Some?
    ensures var t, j := calls[|calls| - 1].at, Answer(calls).value;
            && j.iat * 1_000_000_000 <= t - 60_000_000_000
            && 119_000_000_000 < j.exp * 1_000_000_000 - t <= 600_000_000_000
  {
    JwtIsLastSigned(calls);
  }

  /** A call fails exactly when signing does and the last signature, if any, is 8 minutes old or more. */
  lemma NoJwtIff(calls: seq<Call>)
    requires Ordered(calls) && calls != []
    ensures var c, s := calls[|calls| - 1], Signatures(calls);
            Answer(calls).None? <==> !c.signs && (s == [] || c.at - s[|s| - 1] >= 480_000_000_000)
  {
    CachedIsLast(calls);
    CachedIsLast(calls[..|calls| - 1]);
  }

  /** The key signs at most once in any 8 minutes. */
  lemma {:induction false} SignaturesApart(calls: seq<Call>)
    requires Ordered(calls)
    ensures forall i :: 0 < i < |Signatures(calls)| ==>
              Signatures(calls)[i] - Signatures(calls)[i - 1] >= 480_000_000_000
  {
    if calls != [] {
      var n := |calls| - 1;
      SignaturesApart(calls[..n]);
      CachedIsLast(calls[..n]);
    }
  }

  /** A call comes when the cached JWT is given up but its ten minutes are not over. */
  ghost predicate ComesEarly(calls: seq<Call>, k: nat)
    requires k < |calls|
  {
    var cached := Cached(calls[..k]);
    && calls[k].signs && cached.Some?
    && 480_000_000_000 <= calls[k].at - cached.value.signedAt < 600_000_000_000
  }

  /**
    "At most once per JWT lifetime" (appauth/transport.go:27-29) is true of a history exactly
    when nobody calls in the last two of the ten minutes of a JWT that is still the cached one.
   */
  lemma {:induction false} OncePerLifetimeIff(calls: seq<Call>)
    requires Ordered(calls)
    ensures (forall i :: 0 < i < |Signatures(calls)| ==> Signatures(calls)[i] - Signatures(calls)[i - 1] >= 600_000_000_000)
            <==> forall k :: 0 <= k < |calls| ==> !ComesEarly(calls, k)
  {
    if calls != [] {
      var n := |calls| - 1;
      var before := calls[..n];
      OncePerLifetimeIff(before);
      CachedIsLast(before);
      forall k | 0 <= k < n
        ensures ComesEarly(calls, k) <==> ComesEarly(before, k)
      {
        assert before[..k] == calls[..k];
      }
      var s, t := Signatures(before), Signatures(calls);
      assert forall i :: 0 < i < |s| ==> t[i] - t[i - 1] == s[i] - s[i - 1];
      assert |t| > |s| && s != [] ==> t[|s|] - t[|s| - 1] == calls[n].at - Cached(before).value.signedAt;
      assert ComesEarly(calls, n) ==> |t| > |s|;
    }
  }

  class AppAuthTransport {
    var jwt: Option<Jwt>
    var jwtGood: int
    ghost var calls: seq<Call>

    ghost predicate Valid()
      reads this
    {
      && jwt == Cached(calls)
      && (jwt.Some? ==> jwtGood == ValidUntil(jwt.value.signedAt))
    }

    constructor ()
      ensures Valid() && calls == []
    {
      jwt, jwtGood, calls := None, ZERO_TIME, [];
    }

    /** currentJWT, all of it under the mutex (transport.go:81-99). */
    method CurrentJWT(now: int, signs: bool) returns (r: Option<Jwt>)
      requires Valid()
      modifies this
      ensures Valid() && calls == old(calls) + [Call(now, signs)] && r == Answer(calls)
    {
      ghost var before := calls;
      calls := calls + [Call(now, signs)];
      assert calls[..|calls| - 1] == before;
      if jwt.Some? && now < jwtGood {
        return jwt;
      }
      if !signs {
        return None;
      }
      jwt := Some(Sign(now));
      jwtGood := ValidUntil(now);
      r := jwt;
    }
  }

  // ----------------------------------------------------- installation tokens

  /** What the Apps API answers when it is asked to mint a token. */
  datatype Mint = MintFails | Minted(token: string, expiresAt: int)

  /** One call of Token: its three readings of the clock and the answer a mint would get. */
  datatype Ask = Ask(t1: int, mint: Mint, t2: int, t3: int)

  datatype Entry = Entry(token: string, expiresAt: int, good: int)

  datatype Error = MintError | EmptyToken

  datatype Served = FromCache(entry: Entry) | Fresh(entry: Entry) | Failed(error: Error)

  /** The cached token after the calls (transport.go:162-190). */
  function Held(asks: seq<Ask>): Option<Entry>
    decreases |asks|, 1
  {
    if asks == [] then None
    else
      match Reply(asks)
      case FromCache(e) => Some(e)
      case Fresh(e) => Some(e)
      case Failed(_) => Held(asks[..|asks| - 1])
  }

  /** What the last call returns. */
  function Reply(asks: seq<Ask>): Served
    requires asks != []
    decreases |asks|, 0
  {
    var a := asks[|asks| - 1];
    var held := Held(asks[..|asks| - 1]);
    if held.Some? && a.t1 < held.value.good then FromCache(held.value)
    else
      match a.mint
      case MintFails => Failed(MintError)
      case Minted(token, expiresAt) =>
        if token == "" then Failed(EmptyToken)
        else
          var good := expiresAt - TOKEN_REFRESH_LEAD;
          Fresh(Entry(token, expiresAt, if a.t2 < good then good else a.t3))
  }

  predicate AsksOrdered(asks: seq<Ask>) {
    && (forall i :: 0 <= i < |asks| ==> asks[i].t1 <= asks[i].t2 <= asks[i].t3)
    && (forall i, j :: 0 <= i < j < |asks| ==> asks[i].t3 <= asks[j].t1)
  }

  /** A token lived too short for the cache: not even a minute was left when it was minted. */
  predicate ShortLived(e: Entry) {
    e.good != e.expiresAt - 60_000_000_000
  }

  lemma {:induction false} HeldOrigin(asks: seq<Ask>)
    requires AsksOrdered(asks) && Held(asks).Some?
    ensures ShortLived(Held(asks).value) ==> asks != [] && Held(asks).value.good <= asks[|asks| - 1].t3
  {
    var n := |asks| - 1;
    if Reply(asks).Failed? {
      HeldOrigin(asks[..n]);
    } else if Reply(asks).FromCache? {
      HeldOrigin(asks[..n]);
      assert n > 0 ==> asks[..n][n - 1].t3 <= asks[n].t1;
    }
  }

  /** A token served from the cache has more than a minute left, and is not one of the short-lived. */
  lemma {:induction false} CacheServesLiveTokens(asks: seq<Ask>)
    requires AsksOrdered(asks) && asks != [] && Reply(asks).FromCache?
    ensures var e := Reply(asks).entry;
            e.expiresAt - asks[|asks| - 1].t1 > 60_000_000_000 && !ShortLived(e) && e.token != ""
  {
    var n := |asks| - 1;
    HeldOrigin(asks[..n]);
    HeldNotEmpty(asks[..n]);
    if n > 0 {
      assert asks[..n][n - 1].t3 <= asks[n].t1;
    }
  }

  lemma {:induction false} HeldNotEmpty(asks: seq<Ask>)
    ensures Held(asks).Some? ==> Held(asks).value.token != ""
  {
    if asks != [] {
      HeldNotEmpty(asks[..|asks| - 1]);
    }
  }

  /**
    A short-lived token is used once and never served again: whatever comes, the cache does
    not answer with it, and until another mint succeeds every call asks for one and fails.
   */
  lemma {:induction false} ShortLivedUsedOnce(asks: seq<Ask>, more: seq<Ask>)
    requires asks != [] && more != [] && AsksOrdered(asks + more)
    requires Reply(asks).Fresh? && ShortLived(Reply(asks).entry)
    ensures Reply(asks + more) != FromCache(Reply(asks).entry)
    ensures (forall i :: 0 <= i < |more| ==> Unminted(more[i].mint)) ==> Reply(asks + more).Failed?
  {
    var all, n := asks + more, |more| - 1;
    var before := asks + more[..n];
    assert all[..|all| - 1] == before;
    if Reply(all).FromCache? {
      CacheServesLiveTokens(all);
    }
    if forall i :: 0 <= i < |more| ==> Unminted(more[i].mint) {
      StillHeld(asks, more[..n]);
      HeldOrigin(before);
      assert before[|before| - 1].t3 <= all[|all| - 1].t1;
      FailsWhen(all);
    }
  }

  /** The mint yields no token. */
  predicate Unminted(mint: Mint) {
    mint.MintFails? || mint.token == ""
  }

  /** Without a mint the cache stays as it is. */
  lemma {:induction false} StillHeld(asks: seq<Ask>, more: seq<Ask>)
    requires forall i :: 0 <= i < |more| ==> Unminted(more[i].mint)
    ensures Held(asks + more) == Held(asks)
  {
    if more == [] {
      assert asks + more == asks;
    } else {
      StillHeld(asks, more[..|more| - 1]);
      assert (asks + more)[..|asks + more| - 1] == asks + more[..|more| - 1];
    }
  }

  /** After a mint, calls before the refresh point are answered with that token, however many there are. */
  lemma {:induction false} NoMintWhileGood(asks: seq<Ask>, more: seq<Ask>)
    requires asks != [] && Reply(asks).Fresh?
    requires forall i :: 0 <= i < |more| ==> more[i].t1 < Reply(asks).entry.good
    ensures Held(asks + more) == Some(Reply(asks).entry)
    ensures more != [] ==> Reply(asks + more) == FromCache(Reply(asks).entry)
  {
    if more == [] {
      assert asks + more == asks;
    } else {
      var n := |more| - 1;
      NoMintWhileGood(asks, more[..n]);
      assert (asks + more)[..|asks + more| - 1] == asks + more[..n];
    }
  }

  /** All of the calls are answered from the cache. */
  ghost predicate AllCached(asks: seq<Ask>, more: seq<Ask>)
    requires asks != []
  {
    forall k :: 1 <= k <= |more| ==> Reply(asks + more[..k]).FromCache?
  }

  /**
    The mint is made under the mutex, so one mint serves a whole batch of callers exactly when
    all of them come before the refresh point.
   */
  lemma {:induction false} ServedByOneMintIff(asks: seq<Ask>, more: seq<Ask>)
    requires asks != [] && Reply(asks).Fresh?
    ensures AllCached(asks, more) <==> forall i :: 0 <= i < |more| ==> more[i].t1 < Reply(asks).entry.good
  {
    if forall i :: 0 <= i < |more| ==> more[i].t1 < Reply(asks).entry.good {
      forall k | 1 <= k <= |more|
        ensures Reply(asks + more[..k]).FromCache?
      {
        NoMintWhileGood(asks, more[..k]);
      }
    } else {
      var i := FirstLate(more, Reply(asks).entry.good);
      var all := asks + more[..i + 1];
      NoMintWhileGood(asks, more[..i]);
      assert all[..|all| - 1] == asks + more[..i];
      assert !Reply(all).FromCache?;
    }
  }

  lemma {:induction false} FirstLate(more: seq<Ask>, good: int) returns (i: nat)
    requires exists k :: 0 <= k < |more| && more[k].t1 >= good
    ensures i < |more| && more[i].t1 >= good && forall k :: 0 <= k < i ==> more[k].t1 < good
  {
    i := 0;
    while more[i].t1 < good
      invariant i < |more| && forall k :: 0 <= k < i ==> more[k].t1 < good
      decreases |more| - i
    {
      i := i + 1;
    }
  }

  /** n callers at the same instant, who would each be given a token of the same life. */
  function Burst(n: nat, t: int, token: string, expiresAt: int): seq<Ask> {
    seq(n, i => Ask(t, Minted(token, expiresAt), t, t))
  }

  /** The k-th caller of the burst makes a mint of its own. */
  ghost predicate AllMint(before: seq<Ask>, burst: seq<Ask>) {
    forall k :: 1 <= k <= |burst| ==> Reply(before + burst[..k]).Fresh?
  }

  /**
    "N concurrent callers at expiry may mint N tokens" (appauth/doc.go:56-60): although they
    queue at the mutex, they do exactly when the tokens minted have at most a minute to live.
   */
  lemma {:induction false} BurstMintsIff(before: seq<Ask>, n: nat, t: int, token: string, expiresAt: int)
    requires n >= 2 && token != ""
    requires Held(before).Some? ==> t >= Held(before).value.good
    ensures AllMint(before, Burst(n, t, token, expiresAt)) <==> expiresAt - t <= 60_000_000_000
  {
    var burst := Burst(n, t, token, expiresAt);
    if expiresAt - t <= TOKEN_REFRESH_LEAD {
      forall k | 1 <= k <= n
        ensures Reply(before + burst[..k]).Fresh?
      {
        assert burst[..k] == Burst(k, t, token, expiresAt);
        BurstMints(before, k, t, token, expiresAt);
      }
    } else {
      assert burst[..1] == Burst(1, t, token, expiresAt);
      assert (before + burst[..1])[..|before|] == before;
      assert Reply(before + burst[..1]).Fresh?;
      NoMintWhileGood(before + burst[..1], burst[1..2]);
      assert (before + burst[..1]) + burst[1..2] == before + burst[..2];
    }
  }

  lemma {:induction false} BurstMints(before: seq<Ask>, k: nat, t: int, token: string, expiresAt: int)
    requires k >= 1 && token != "" && expiresAt - t <= TOKEN_REFRESH_LEAD
    requires Held(before).Some? ==> t >= Held(before).value.good
    ensures Reply(before + Burst(k, t, token, expiresAt)) == Fresh(Entry(token, expiresAt, t))
  {
    var all := before + Burst(k, t, token, expiresAt);
    assert all[..|all| - 1] == before + Burst(k - 1, t, token, expiresAt);
    if k == 1 {
      assert before + Burst(0, t, token, expiresAt) == before;
    } else {
      BurstMints(before, k - 1, t, token, expiresAt);
    }
  }

  /**
    No lifetime is refused (appauth/doc.go:46-48 speaks of a refusal beyond 24 hours): a
    nonempty token minted to live for any time above a day is returned, and then served to
    every caller until a minute before it expires.
   */
  lemma LongLivedIsServed(asks: seq<Ask>, a: Ask, more: seq<Ask>)
    requires Held(asks).Some? ==> a.t1 >= Held(asks).value.good
    requires a.mint.Minted? && a.mint.token != "" && a.mint.expiresAt - a.t1 > 24 * 60 * 60_000_000_000
    requires a.t2 < a.mint.expiresAt - 60_000_000_000
    requires forall i :: 0 <= i < |more| ==> more[i].t1 < a.mint.expiresAt - 60_000_000_000
    ensures var e := Entry(a.mint.token, a.mint.expiresAt, a.mint.expiresAt - 60_000_000_000);
            && Reply(asks + [a]) == Fresh(e)
            && forall k :: 1 <= k <= |more| ==> Reply((asks + [a]) + more[..k]) == FromCache(e)
  {
    var all := asks + [a];
    assert all[..|asks|] == asks;
    forall k | 1 <= k <= |more|
      ensures Reply(all + more[..k]) == FromCache(Reply(all).entry)
    {
      NoMintWhileGood(all, more[..k]);
    }
  }

  /**
    Whatever is served, fresh or cached, is the token and expiry of the last mint that was used,
    kept until a minute before it expires or, if that has passed already, no longer than its call.
   */
  lemma {:induction false} ServedIsLastMinted(asks: seq<Ask>) returns (i: nat)
    requires Held(asks).Some?
    ensures i < |asks| && asks[i].mint == Minted(Held(asks).value.token, Held(asks).value.expiresAt)
    ensures Reply(asks[..i + 1]) == Fresh(Held(asks).value)
    ensures var e := Held(asks).value;
            e.good == if asks[i].t2 < e.expiresAt - 60_000_000_000 then e.expiresAt - 60_000_000_000 else asks[i].t3
    ensures forall k :: i + 1 < k <= |asks| ==> !Reply(asks[..k]).Fresh?
    ensures !Reply(asks).Failed? ==> Reply(asks).entry == Held(asks).value
  {
    var n := |asks| - 1;
    assert asks[..n + 1] == asks[..|asks|] == asks;
    if Reply(asks).Fresh? {
      i := n;
    } else {
      i := ServedIsLastMinted(asks[..n]);
      assert forall k :: 0 <= k <= n ==> asks[..n][..k] == asks[..k];
    }
  }

  /** When a call fails, and how: the cache cannot serve it, and its mint fails or is empty. */
  lemma FailsWhen(asks: seq<Ask>)
    requires asks != []
    ensures var a, held := asks[|asks| - 1], Held(asks[..|asks| - 1]);
            && (Reply(asks).Failed? <==> !(held.Some? && a.t1 < held.value.good) && Unminted(a.mint))
            && (Reply(asks).Failed? ==> Reply(asks).error == if a.mint.MintFails? then MintError else EmptyToken)
  {
  }

  class InstallationTokenSource {
    var token: string
    var good: int
    ghost var expiresAt: int
    ghost var asks: seq<Ask>

    ghost predicate Valid()
      reads this
    {
      Held(asks) == if token == "" then None else Some(Entry(token, expiresAt, good))
    }

    constructor ()
      ensures Valid() && asks == []
    {
      token, good, expiresAt, asks := "", ZERO_TIME, ZERO_TIME, [];
    }

    /** Token, all of it under the mutex (transport.go:162-190). */
    method Token(a: Ask) returns (r: string, error: Option<Error>)
      requires Valid()
      modifies this
      ensures Valid() && asks == old(asks) + [a]
      ensures match Reply(asks)
              case FromCache(e) => r == e.token && error == None
              case Fresh(e) => r == e.token && error == None
              case Failed(e) => r == "" && error == Some(e)
    {
      ghost var before := asks;
      HeldNotEmpty(before);
      asks := asks + [a];
      assert asks[..|asks| - 1] == before;
      if token != "" && a.t1 < good {
        return token, None;
      }
      match a.mint
      case MintFails =>
        return "", Some(MintError);
      case Minted(minted, expiry) =>
        if minted == "" {
          return "", Some(EmptyToken);
        }
        token := minted;
        expiresAt := expiry;
        good := expiry - TOKEN_REFRESH_LEAD;
        if a.t2 >= good {
          good := a.t3;
        }
        r, error := token, None;
    }
  }
}
