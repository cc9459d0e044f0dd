/** The stream access middleware, with ideal signatures, and what a token is worth over a whole run. */
module Auth {
  import opened Domain
  import opened Protocol
  import opened Safety
  import opened Lifecycle
  import opened Agreement

  const BEARER := "Bearer "
  const LOWER_BEARER := "bearer "

  datatype ParticipantCtx = ParticipantCtx(uuid: Uuid, stream: Uuid, isHost: bool)

  datatype AuthDecision = Granted(participant: ParticipantCtx) | Unauthorized | Forbidden

  function TrimPrefix(s: string, prefix: string): string {
    if prefix <= s then s[|prefix|..] else s
  }

  /** The public key of a live stream is the one its NewStream generated. */
  function StreamKey(s: State, stream: Uuid): Option<CallId> {
    if stream in s.live then Some(s.live[stream].key) else None
  }

  /** Verification against a key accepts exactly what was signed with it, and returns what was signed. */
  function Verify(s: State, token: string, key: CallId): Option<Claims> {
    if token in s.tokens && s.tokens[token].key == key then Some(s.tokens[token].claims) else None
  }

  /** What the middleware decides about a bare token. */
  function Authorize(s: State, token: string, route: Uuid, hostSpecific: bool): AuthDecision {
    if StreamKey(s, route).None? then Unauthorized
    else
      var claims := Verify(s, token, StreamKey(s, route).value);
      if claims.None? then Unauthorized
      else if claims.value.stream != route then Forbidden
      else if hostSpecific && !claims.value.host then Unauthorized
      else Granted(ParticipantCtx(claims.value.participant, route, claims.value.host))
  }

  method StreamAuthMiddleware(s: State, header: string, route: Uuid, hostSpecific: bool) returns (decision: AuthDecision)
    ensures decision == Authorize(s, TrimPrefix(TrimPrefix(header, BEARER), LOWER_BEARER), route, hostSpecific)
  {
    var authToken := header;
    authToken := TrimPrefix(authToken, BEARER);
    authToken := TrimPrefix(authToken, LOWER_BEARER);
    var publicKey := StreamKey(s, route);
    if publicKey.None? {
      return Unauthorized;
    }
    var token := Verify(s, authToken, publicKey.value);
    if token.None? {
      return Unauthorized;
    }
    var participant := ParticipantCtx(token.value.participant, token.value.stream, token.value.host);
    if route != participant.stream {
      return Forbidden;
    }
    if hostSpecific && !participant.isHost {
      return Unauthorized;
    }
    return Granted(participant);
  }

  /** The header forms that carry a token: bare, after either spelling of the scheme, or after both of them. */
  predicate Carries(header: string, token: string) {
    header == token || header == "Bearer " + token || header == "bearer " + token || header == "Bearer bearer " + token
  }

  lemma SpaceIsNoPrefix(prefix: string, token: string)
    requires ' ' in prefix && ' ' !in token
    ensures !(prefix <= token)
  {
    var i :| 0 <= i < |prefix| && prefix[i] == ' ';
    assert |token| <= i || token[i] != prefix[i];
  }

  lemma TrimPrefixExactly(s: string, prefix: string, rest: string)
    ensures TrimPrefix(s, prefix) == rest <==> s == prefix + rest || (s == rest && !(prefix <= s))
  {
    if prefix <= s { assert s == prefix + s[|prefix|..]; }
    if s == prefix + rest { assert s[|prefix|..] == rest; }
  }

  /** Trimming leaves a token, which has no space, of exactly the headers that carry it. */
  lemma TrimmingRecovers(header: string, token: string)
    requires ' ' !in token
    ensures TrimPrefix(TrimPrefix(header, BEARER), LOWER_BEARER) == token <==> Carries(header, token)
  {
    assert BEARER[6] == ' ' && LOWER_BEARER[6] == ' ';
    assert !(BEARER <= LOWER_BEARER + token) by { assert BEARER[0] != (LOWER_BEARER + token)[0]; }
    SpaceIsNoPrefix(BEARER, token);
    SpaceIsNoPrefix(LOWER_BEARER, token);
    var once := TrimPrefix(header, BEARER);
    TrimPrefixExactly(once, LOWER_BEARER, token);
    TrimPrefixExactly(header, BEARER, token);
    TrimPrefixExactly(header, BEARER, LOWER_BEARER + token);
    assert BEARER + (LOWER_BEARER + token) == "Bearer bearer " + token;
  }

  /** In every reached state, whatever the header says, a request is let in if and only if the header carries a token
      that the server minted for the route's stream, that stream is live, and the token is a host's where one is
      asked for; every other request is answered with 401. Who is let in is who the token was minted for. */
  lemma GrantedExactly(steps: seq<Step>, s: State, header: string, route: Uuid, hostSpecific: bool)
    requires Reached(steps, s)
    ensures var decision := Authorize(s, TrimPrefix(TrimPrefix(header, BEARER), LOWER_BEARER), route, hostSpecific);
            && (decision.Granted? <==>
                  && route in s.live
                  && exists token :: token in s.tokens && Carries(header, token) && s.tokens[token].claims.stream == route
                                     && (hostSpecific ==> s.tokens[token].claims.host))
            && (!decision.Granted? ==> decision == Unauthorized)
            && (decision.Granted? ==>
                  exists token :: token in s.tokens && Carries(header, token)
                                  && s.tokens[token].claims == Claims(route, decision.participant.uuid, decision.participant.isHost)
                                  && decision.participant.stream == route)
  {
    var trimmed := TrimPrefix(TrimPrefix(header, BEARER), LOWER_BEARER);
    NeverForbidden(steps, s, trimmed, route, hostSpecific);
    if trimmed in s.tokens {
      ReachedToken(steps, s, trimmed);
      TrimmingRecovers(header, trimmed);
      TokenAcceptedExactly(steps, s, trimmed, header, route, hostSpecific);
    }
    forall token | token in s.tokens && Carries(header, token) ensures token == trimmed {
      ReachedToken(steps, s, token);
      TrimmingRecovers(header, token);
    }
  }

  /** In every reached state a minted token is accepted on a route if and only if it is the route of its own
      stream, that stream is live, and the host is asked for only of a host token; it gives back its triple. */
  lemma TokenAcceptedExactly(steps: seq<Step>, s: State, token: string, header: string, route: Uuid, hostSpecific: bool)
    requires Reached(steps, s) && token in s.tokens && Carries(header, token)
    ensures var c := s.tokens[token].claims;
            var decision := Authorize(s, TrimPrefix(TrimPrefix(header, BEARER), LOWER_BEARER), route, hostSpecific);
            && (decision.Granted? <==> route == c.stream && route in s.live && (hostSpecific ==> c.host))
            && (decision.Granted? ==> decision.participant == ParticipantCtx(c.participant, c.stream, c.host))
  {
    ReachedToken(steps, s, token);
    TrimmingRecovers(header, token);
    if route in s.live { ReachedLive(steps, s, route); ReachedKeys(steps, s, token, route); }
  }

  /** Different streams have different keys. */
  lemma ReachedKeys(steps: seq<Step>, s: State, token: string, route: Uuid)
    requires Reached(steps, s) && token in s.tokens && route in s.live
    ensures s.tokens[token].key == s.live[route].key <==> s.tokens[token].claims.stream == route
  {
    ReachedToken(steps, s, token);
    ReachedLive(steps, s, route);
    ReachedOrigin(steps, s, route);
    ReachedOrigin(steps, s, s.tokens[token].claims.stream);
  }

  /** The middleware's 403 answer is never given: a token of another stream already fails verification. */
  lemma NeverForbidden(steps: seq<Step>, s: State, token: string, route: Uuid, hostSpecific: bool)
    requires Reached(steps, s)
    ensures !Authorize(s, token, route, hostSpecific).Forbidden?
  {
    if token in s.tokens && route in s.live { ReachedKeys(steps, s, token, route); }
  }

  /** A stream that has left the live table does not come back. */
  lemma LeavesForGood(steps: seq<Step>, n: nat, m: nat, stream: Uuid)
    requires Exec(steps).Some? && n <= m <= |steps| && Exec(steps[..n]).Some? && Exec(steps[..m]).Some?
    requires stream in Exec(steps[..n]).value.live && stream !in Exec(steps[..m]).value.live
    ensures stream !in Exec(steps).value.live
  {
    assert steps[..m][..n] == steps[..n];
    ReachedStream(steps[..n], Exec(steps[..n]).value, stream);
    ReachedStream(steps[..m], Exec(steps[..m]).value, stream);
    ReachedStream(steps, Exec(steps).value, stream);
    RunGrows(steps[..m], n);
    RunGrows(steps, m);
    LifeInGrows(Exec(steps[..n]).value, Exec(steps[..m]).value, stream);
    LifeInGrows(Exec(steps[..m]).value, Exec(steps).value, stream);
  }

  /** Once its stream has left the live table, a token is rejected on every route for the rest of the run, even one
      that a join still in flight mints afterwards. */
  lemma TokenDiesWithStream(steps: seq<Step>, n: nat, m: nat, token: string, header: string, route: Uuid, hostSpecific: bool)
    requires Exec(steps).Some? && n <= m <= |steps| && Exec(steps[..n]).Some? && Exec(steps[..m]).Some?
    requires token in Exec(steps).value.tokens && Carries(header, token)
    requires var stream := Exec(steps).value.tokens[token].claims.stream;
             stream in Exec(steps[..n]).value.live && stream !in Exec(steps[..m]).value.live
    ensures !Authorize(Exec(steps).value, TrimPrefix(TrimPrefix(header, BEARER), LOWER_BEARER), route, hostSpecific).Granted?
  {
    LeavesForGood(steps, n, m, Exec(steps).value.tokens[token].claims.stream);
    TokenAcceptedExactly(steps, Exec(steps).value, token, header, route, hostSpecific);
  }
}
