/** The API-key handshake of src/Database/Auth/ApiKeyAuthenticator.ts: the
    empty-key guard, the split of the key into name and secret, the per-URL
    cache of server public keys, the padding of the secret, and the status
    policy of the validation request with its retry on 417.

    The server is a script: `keys` holds the replies to successive public-key
    requests and `validations` the replies to successive validation requests.
    A request made once its script is used up gets no response. Encryption,
    decryption and base64 decoding are foreign; their outcomes are carried by
    the replies. */
module ApiKeyAuth {
  import opened Js
  import opened StatusCodes

  type Bytes = seq<bv8>

  /** The statuses of a validation response that are not rejected outright. */
  const AcceptedStatuses: set<int> := {Forbidden, Ok, InternalServerError}

  const ApiKeyEmptyMessage := "Api key is empty"
  const BadResponseMessage := "Bad response from server"
  /** The template literal ends its first line with an escaped space and then a
      real line break, both of which stay in the message. */
  const BadPublicKeyResponseMessage := "Bad response from server when  \ntrying to get public key"

  /** How a handshake step can reject. */
  datatype AuthFailure =
    | AuthenticationException(message: string)
      /** The AuthenticationException whose message is 'Error decoding public key: '
          followed by the engine's own message, which is not modelled. */
    | PublicKeyDecodeException
      /** A property read on null or undefined outside any try block. */
    | TypeError
      /** The decryption library threw. */
    | DecryptException

  // ---------------------------------------------------------------------------
  // Splitting the key

  /** `s.split(sep)` for a one-character separator: the pieces between
      separators, so that a string with k separators has k + 1 pieces. */
  function Split(s: string, sep: char): (pieces: seq<string>)
    ensures |pieces| == Occurrences(s, sep) + 1
  {
    if s == [] then [[]]
    else
      var rest := Split(s[1..], sep);
      if s[0] == sep then [[]] + rest else [[s[0]] + rest[0]] + rest[1..]
  }

  /** How many times `c` occurs in `s`. */
  function Occurrences(s: string, c: char): nat {
    if s == [] then 0 else (if s[0] == c then 1 else 0) + Occurrences(s[1..], c)
  }

  /** The pieces glued back together with the separator between them. */
  function Join(pieces: seq<string>, sep: char): string
    requires |pieces| >= 1
  {
    if |pieces| == 1 then pieces[0] else pieces[0] + [sep] + Join(pieces[1..], sep)
  }

  /** Splitting loses nothing, and no piece contains the separator. */
  lemma {:induction false} SplitJoin(s: string, sep: char)
    ensures Join(Split(s, sep), sep) == s
    ensures forall i :: 0 <= i < |Split(s, sep)| ==> sep !in Split(s, sep)[i]
  {
    if s != [] {
      var rest := Split(s[1..], sep);
      SplitJoin(s[1..], sep);
      var pieces := Split(s, sep);
      if s[0] == sep {
        assert pieces[1..] == rest;
        assert s == [] + [sep] + s[1..];
      } else {
        assert pieces[1..] == rest[1..];
        if |rest| > 1 {
          assert Join(rest, sep) == rest[0] + [sep] + Join(rest[1..], sep);
          assert s == [s[0]] + s[1..];
        } else {
          assert s == [s[0]] + rest[0];
        }
        forall i | 0 <= i < |pieces| ensures sep !in pieces[i] {
          if i > 0 { assert pieces[i] == rest[i]; }
        }
      }
    }
  }

  /** The API key's name and secret. */
  datatype KeyParts = KeyParts(name: string, secret: JsOpt<string>)

  /** The destructuring of the key split on '/' with a limit of two: the first
      two pieces; a missing second piece leaves the secret undefined. */
  function SplitApiKey(apiKey: string): (p: KeyParts)
    ensures p.secret.Undefined? <==> Occurrences(apiKey, '/') == 0
    ensures '/' !in p.name && (p.secret.Val? ==> '/' !in p.secret.v)
  {
    SplitJoin(apiKey, '/');
    var pieces := Split(apiKey, '/');
    KeyParts(pieces[0], if |pieces| >= 2 then Val(pieces[1]) else Undefined)
  }

  /** The name is the text before the first '/', the secret the text between
      the first and the second '/', and whatever follows a second '/' is
      dropped. A key without '/' has no secret. */
  lemma SplitApiKeyCharacterised(apiKey: string)
    ensures var p := SplitApiKey(apiKey);
      && '/' !in p.name
      && ('/' !in apiKey <==> p.secret == Undefined)
      && ('/' !in apiKey ==> p.name == apiKey)
      && (p.secret.Val? ==>
            && '/' !in p.secret.v
            && (var n := |p.name| + 1 + |p.secret.v|;
                && n <= |apiKey|
                && apiKey == p.name + "/" + p.secret.v + apiKey[n..]
                && (n == |apiKey| || apiKey[n] == '/')))
  {
    var pieces := Split(apiKey, '/');
    SplitJoin(apiKey, '/');
    assert '/' !in pieces[0];
    if |pieces| == 1 {
      assert apiKey == pieces[0];
    } else {
      var tail := Join(pieces[1..], '/');
      assert apiKey == pieces[0] + "/" + tail;
      assert apiKey[|pieces[0]|] == '/';
      assert '/' !in pieces[1];
      if |pieces| == 2 {
        assert tail == pieces[1];
      } else {
        assert pieces[1..][1..] == pieces[2..];
        assert tail == pieces[1] + "/" + Join(pieces[2..], '/');
        var n := |pieces[0]| + 1 + |pieces[1]|;
        assert apiKey[n] == '/';
      }
    }
  }

  // ---------------------------------------------------------------------------
  // Padding of the secret

  /** How many random bytes `buildServerRequest` appends to the secret: 64 less
      the secret's length modulo 64. */
  function PaddingLength(secretLength: nat): (n: nat)
    ensures 1 <= n <= 64
    ensures (secretLength + n) % 64 == 0
  {
    64 - secretLength % 64
  }

  /** The padding `buildServerRequest` computes, or the TypeError of reading
      `length` of a secret the split left undefined. */
  function SecretPadding(secret: JsOpt<string>): (r: Result<nat, AuthFailure>)
    ensures r.Success? <==> secret.Val?
    ensures r.Success? ==> 1 <= r.value <= 64 && (|secret.v| + r.value) % 64 == 0
  {
    if secret.Val? then Success(PaddingLength(|secret.v|)) else Failure(TypeError)
  }

  // ---------------------------------------------------------------------------
  // The public-key request

  /** The body of a public-key response. For an object, `decoded` is what
      base64-decoding its PublicKey member yields, None when that throws. */
  datatype KeyBody =
    | KeyBodyUndefined
    | KeyBodyNull
    | KeyBodyScalar
    | KeyBodyObject(publicKey: JsOpt<string>, decoded: Option<Bytes>)

  /** A public-key request either rejects (no response, or a status the request
      library rejects) or resolves with a response. */
  datatype KeyReply = KeyRequestFailed | KeyResponse(status: int, body: KeyBody)

  /** The reply handling of `getServerPublicKey` as written. Its rejection test
      is a conjunction whose first operand is "status is not OK" and whose
      second operand is where the local `body` gets assigned; on an OK status
      the conjunction stops at the first operand, `body` stays undefined, and
      the decoding in the try block reads a member of undefined and throws. Only a
      non-OK response with an object body can yield a key. `TypeUtil.isObject`
      is not part of this model; it is taken to hold exactly of object bodies. */
  function PublicKeyFromReplyAsWritten(reply: KeyReply): (r: Result<Bytes, AuthFailure>)
    ensures reply.KeyResponse? && reply.status == Ok ==> r == Failure(PublicKeyDecodeException)
    ensures r.Success? ==> reply.KeyResponse? && reply.status != Ok && reply.body.KeyBodyObject?
  {
    match reply
    case KeyRequestFailed => Failure(AuthenticationException(BadResponseMessage))
    case KeyResponse(status, body) =>
      if status == Ok then Failure(PublicKeyDecodeException)
      else
        match body
        case KeyBodyObject(_, decoded) =>
          if decoded.Some? then Success(decoded.value) else Failure(PublicKeyDecodeException)
        case KeyBodyScalar => Failure(AuthenticationException(BadPublicKeyResponseMessage))
        case _ => Failure(TypeError)
  }

  /** The reply handling evidently intended: an OK response whose body is an
      object with a truthy PublicKey is decoded, anything else is a bad
      response, and a request that rejects is a bad response too. */
  function PublicKeyFromReply(reply: KeyReply): (r: Result<Bytes, AuthFailure>)
    ensures r.Success? <==>
      (reply.KeyResponse? && reply.status == Ok && reply.body.KeyBodyObject?
       && TruthyString(reply.body.publicKey) && reply.body.decoded.Some?)
    ensures r.Success? ==> r.value == reply.body.decoded.value
    ensures r.Failure? && reply.KeyResponse? && reply.status != Ok ==>
      r.error == AuthenticationException(BadPublicKeyResponseMessage)
  {
    match reply
    case KeyRequestFailed => Failure(AuthenticationException(BadResponseMessage))
    case KeyResponse(status, body) =>
      if status == Ok && body.KeyBodyObject? && TruthyString(body.publicKey) then
        if body.decoded.Some? then Success(body.decoded.value) else Failure(PublicKeyDecodeException)
      else Failure(AuthenticationException(BadPublicKeyResponseMessage))
  }

  /** The input that separates the two: an OK reply carrying a decodable key. */
  lemma OkReplyDiscrepancy(encoded: string, key: Bytes)
    requires encoded != ""
    ensures var reply := KeyResponse(Ok, KeyBodyObject(Val(encoded), Some(key)));
      && PublicKeyFromReplyAsWritten(reply) == Failure(PublicKeyDecodeException)
      && PublicKeyFromReply(reply) == Success(key)
  {
  }

  // ---------------------------------------------------------------------------
  // The validation request and the whole handshake

  /** The body of a validation response. For an object, `decrypted` is what the
      decryption of its Token with its Nonce yields, None when it throws. */
  datatype AuthBody = AuthBodyMissing | AuthBodyObject(error: JsOpt<string>, decrypted: Option<Bytes>)

  /** A validation request either rejects or resolves with a response. */
  datatype ValidateReply = ValidateRequestFailed | ValidateResponse(status: int, body: AuthBody)

  /** What a handshake did: its outcome, the public-key cache afterwards, and
      how many replies of each script it used up. */
  datatype AuthRun = AuthRun(result: Result<Bytes, AuthFailure>, cache: map<string, Bytes>,
                             keysUsed: nat, validationsUsed: nat)

  /** The handling of an accepted validation response: a truthy `Error` rejects
      with its own text, otherwise the decrypted token is the result. */
  function FinishAuthentication(body: AuthBody): (r: Result<Bytes, AuthFailure>)
    ensures body.AuthBodyObject? && TruthyString(body.error) ==> r == Failure(AuthenticationException(body.error.v))
    ensures r.Success? ==> body.AuthBodyObject? && !TruthyString(body.error) && body.decrypted == Some(r.value)
  {
    match body
    case AuthBodyMissing => Failure(TypeError)
    case AuthBodyObject(error, decrypted) =>
      if TruthyString(error) then Failure(AuthenticationException(error.v))
      else if decrypted.Some? then Success(decrypted.value)
      else Failure(DecryptException)
  }

  /** `tryAuthenticate` followed by the body handling of `authenticate`: fetch
      (or reuse) the server's public key, build the request from the secret,
      send it, and on 417 forget the key and start over. */
  function TryAuthenticate(cache: map<string, Bytes>, url: string, secret: JsOpt<string>,
                           keys: seq<KeyReply>, validations: seq<ValidateReply>): (run: AuthRun)
    ensures run.keysUsed <= |keys| && run.validationsUsed <= |validations|
    decreases |validations|
  {
    var fetched := url !in cache;
    var key := if !fetched then Success(cache[url])
               else PublicKeyFromReply(if |keys| > 0 then keys[0] else KeyRequestFailed);
    var cache1 := if fetched && key.Success? then cache[url := key.value] else cache;
    var ku := if fetched && |keys| > 0 then 1 else 0;
    if key.Failure? then AuthRun(Failure(key.error), cache1, ku, 0)
    else if SecretPadding(secret).Failure? then AuthRun(Failure(TypeError), cache1, ku, 0)
    else if |validations| == 0 then
      AuthRun(Failure(AuthenticationException(BadResponseMessage)), cache1, ku, 0)
    else
      match validations[0]
      case ValidateRequestFailed => AuthRun(Failure(AuthenticationException(BadResponseMessage)), cache1, ku, 1)
      case ValidateResponse(status, body) =>
        if status == ExpectationFailed then
          var next := TryAuthenticate(cache1 - {url}, url, secret, keys[ku..], validations[1..]);
          next.(keysUsed := ku + next.keysUsed, validationsUsed := 1 + next.validationsUsed)
        else if status !in AcceptedStatuses then
          AuthRun(Failure(AuthenticationException(BadResponseMessage)), cache1, ku, 1)
        else AuthRun(FinishAuthentication(body), cache1, ku, 1)
  }

  /** `authenticate(url, apiKey, headers)`: an empty or absent key rejects at
      once, with no request and no change to the cache. */
  function AuthenticateSpec(cache: map<string, Bytes>, url: string, apiKey: JsOpt<string>,
                            keys: seq<KeyReply>, validations: seq<ValidateReply>): (run: AuthRun)
    ensures !TruthyString(apiKey) ==>
      run == AuthRun(Failure(AuthenticationException(ApiKeyEmptyMessage)), cache, 0, 0)
    ensures run.keysUsed <= |keys| && run.validationsUsed <= |validations|
  {
    if !TruthyString(apiKey) then AuthRun(Failure(AuthenticationException(ApiKeyEmptyMessage)), cache, 0, 0)
    else TryAuthenticate(cache, url, SplitApiKey(apiKey.v).secret, keys, validations)
  }

  /** Whether `getServerPublicKey` yields a key: the URL's key is cached, or
      the next public-key reply carries one. */
  predicate KeyAvailable(cache: map<string, Bytes>, url: string, keys: seq<KeyReply>) {
    url in cache || (|keys| > 0 && PublicKeyFromReply(keys[0]).Success?)
  }

  /** How many public-key requests `getServerPublicKey` makes: none for a
      cached URL, one otherwise. */
  function KeyRequests(cache: map<string, Bytes>, url: string): (n: nat)
    ensures n <= 1 && (n == 0 <==> url in cache)
  {
    if url in cache then 0 else 1
  }

  /** The cache once a key is available: unchanged for a cached URL, else with
      the fetched key stored under the URL. */
  function CacheWithKey(cache: map<string, Bytes>, url: string, keys: seq<KeyReply>): (c: map<string, Bytes>)
    requires KeyAvailable(cache, url, keys)
    ensures url in c && c - {url} == cache - {url}
    ensures url in cache ==> c == cache
    ensures url !in cache ==> c[url] == PublicKeyFromReply(keys[0]).value
  {
    if url in cache then cache else cache[url := PublicKeyFromReply(keys[0]).value]
  }

  /** A failed public-key step rejects before any validation request, and
      leaves the cache as it was. */
  lemma KeyUnavailableRejected(cache: map<string, Bytes>, url: string, secret: JsOpt<string>,
                               keys: seq<KeyReply>, validations: seq<ValidateReply>)
    requires !KeyAvailable(cache, url, keys)
    ensures var run := TryAuthenticate(cache, url, secret, keys, validations);
      && run.result.Failure? && run.cache == cache && run.validationsUsed == 0
      && run.keysUsed == (if |keys| > 0 then 1 else 0)
  {
  }

  /** A 417 reply drops the key for this URL, whether it was cached or just
      fetched, and the whole attempt starts over on the rest of both scripts. */
  lemma ExpectationFailedRestarts(cache: map<string, Bytes>, url: string, secret: string,
                                  keys: seq<KeyReply>, body: AuthBody, rest: seq<ValidateReply>)
    requires KeyAvailable(cache, url, keys)
    ensures var run := TryAuthenticate(cache, url, Val(secret), keys, [ValidateResponse(ExpectationFailed, body)] + rest);
      var ku := KeyRequests(cache, url);
      var next := TryAuthenticate(cache - {url}, url, Val(secret), keys[ku..], rest);
      run == next.(keysUsed := ku + next.keysUsed, validationsUsed := 1 + next.validationsUsed)
  {
    assert ([ValidateResponse(ExpectationFailed, body)] + rest)[1..] == rest;
    if url in cache {
      assert keys[0..] == keys;
    } else {
      assert cache[url := PublicKeyFromReply(keys[0]).value] - {url} == cache - {url};
    }
  }

  /** A resolved validation response whose status is neither 417 nor one of
      403, 200 and 500 rejects as a bad response, as does a request that
      rejects; the key obtained for it stays cached. */
  lemma UnacceptedStatusRejected(cache: map<string, Bytes>, url: string, secret: string,
                                 keys: seq<KeyReply>, reply: ValidateReply, rest: seq<ValidateReply>)
    requires KeyAvailable(cache, url, keys)
    requires reply.ValidateRequestFailed? ||
             (reply.status != ExpectationFailed && reply.status !in AcceptedStatuses)
    ensures TryAuthenticate(cache, url, Val(secret), keys, [reply] + rest)
            == AuthRun(Failure(AuthenticationException(BadResponseMessage)), CacheWithKey(cache, url, keys),
                       KeyRequests(cache, url), 1)
  {
  }

  /** A 403, 200 or 500 response ends the handshake with the body handling of
      `authenticate`: a truthy Error rejects with its text, else the token;
      the key obtained for it stays cached. */
  lemma AcceptedStatusFinishes(cache: map<string, Bytes>, url: string, secret: string,
                               keys: seq<KeyReply>, status: int, body: AuthBody, rest: seq<ValidateReply>)
    requires KeyAvailable(cache, url, keys) && status in AcceptedStatuses
    ensures var run := TryAuthenticate(cache, url, Val(secret), keys, [ValidateResponse(status, body)] + rest);
      && run == AuthRun(FinishAuthentication(body), CacheWithKey(cache, url, keys), KeyRequests(cache, url), 1)
      && (body.AuthBodyObject? && TruthyString(body.error) ==>
            run.result == Failure(AuthenticationException(body.error.v)))
  {
  }

  /** The handshake changes the cache at this URL only. */
  lemma {:induction false} OnlyThisUrlCached(cache: map<string, Bytes>, url: string, secret: JsOpt<string>,
                                            keys: seq<KeyReply>, validations: seq<ValidateReply>)
    ensures TryAuthenticate(cache, url, secret, keys, validations).cache - {url} == cache - {url}
    decreases |validations|
  {
    var fetched := url !in cache;
    var key := if !fetched then Success(cache[url])
               else PublicKeyFromReply(if |keys| > 0 then keys[0] else KeyRequestFailed);
    var cache1 := if fetched && key.Success? then cache[url := key.value] else cache;
    var ku := if fetched && |keys| > 0 then 1 else 0;
    assert cache1 - {url} == cache - {url};
    if key.Success? && SecretPadding(secret).Success? && |validations| > 0
       && validations[0].ValidateResponse? && validations[0].status == ExpectationFailed {
      OnlyThisUrlCached(cache1 - {url}, url, secret, keys[ku..], validations[1..]);
      assert (cache1 - {url}) - {url} == cache - {url};
    }
  }

  /** A handshake that succeeds leaves the server key it used in the cache. */
  lemma {:induction false} SuccessLeavesKeyCached(cache: map<string, Bytes>, url: string, secret: JsOpt<string>,
                                                 keys: seq<KeyReply>, validations: seq<ValidateReply>)
    ensures var run := TryAuthenticate(cache, url, secret, keys, validations);
      run.result.Success? ==> url in run.cache
    decreases |validations|
  {
    var fetched := url !in cache;
    var key := if !fetched then Success(cache[url])
               else PublicKeyFromReply(if |keys| > 0 then keys[0] else KeyRequestFailed);
    var cache1 := if fetched && key.Success? then cache[url := key.value] else cache;
    var ku := if fetched && |keys| > 0 then 1 else 0;
    if key.Success? && SecretPadding(secret).Success? && |validations| > 0
       && validations[0].ValidateResponse? && validations[0].status == ExpectationFailed {
      SuccessLeavesKeyCached(cache1 - {url}, url, secret, keys[ku..], validations[1..]);
    }
  }

  /** The authenticator object: its only state is the public-key cache, which
      starts empty. */
  class ApiKeyAuthenticator {
    var serverPublicKeys: map<string, Bytes>

    constructor ()
      ensures serverPublicKeys == map[]
    {
      serverPublicKeys := map[];
    }

    /** `getServerPublicKey(url)`: the cached key with no request, or the key
        from `reply`, which is then stored under `url`. */
    method GetServerPublicKey(url: string, reply: KeyReply) returns (r: Result<Bytes, AuthFailure>, requested: bool)
      modifies this
      ensures requested == (url !in old(serverPublicKeys))
      ensures !requested ==> r == Success(old(serverPublicKeys)[url]) && serverPublicKeys == old(serverPublicKeys)
      ensures requested ==> r == PublicKeyFromReply(reply)
      ensures requested && r.Success? ==> serverPublicKeys == old(serverPublicKeys)[url := r.value]
      ensures requested && r.Failure? ==> serverPublicKeys == old(serverPublicKeys)
    {
      if url in serverPublicKeys {
        return Success(serverPublicKeys[url]), false;
      }
      requested := true;
      r := PublicKeyFromReply(reply);
      if r.Success? {
        serverPublicKeys := serverPublicKeys[url := r.value];
      }
    }

    /** `authenticate(url, apiKey, headers)`; the headers are only forwarded to
        the server and are not modelled. */
    method Authenticate(url: string, apiKey: JsOpt<string>, keys: seq<KeyReply>, validations: seq<ValidateReply>)
      returns (r: Result<Bytes, AuthFailure>)
      modifies this
      ensures var run := AuthenticateSpec(old(serverPublicKeys), url, apiKey, keys, validations);
        r == run.result && serverPublicKeys == run.cache
    {
      if !TruthyString(apiKey) {
        return Failure(AuthenticationException(ApiKeyEmptyMessage));
      }
      var secret := SplitApiKey(apiKey.v).secret;
      ghost var goal := TryAuthenticate(serverPublicKeys, url, secret, keys, validations);
      var ki, vi := 0, 0;
      while true
        invariant ki <= |keys| && vi <= |validations|
        invariant var run := TryAuthenticate(serverPublicKeys, url, secret, keys[ki..], validations[vi..]);
          run.result == goal.result && run.cache == goal.cache
        decreases |validations| - vi
      {
        var key, requested := GetServerPublicKey(url, if ki < |keys| then keys[ki] else KeyRequestFailed);
        if requested && ki < |keys| {
          ki := ki + 1;
        }
        if key.Failure? {
          return Failure(key.error);
        }
        var padding := SecretPadding(secret);
        if padding.Failure? {
          return Failure(padding.error);
        }
        if vi == |validations| {
          return Failure(AuthenticationException(BadResponseMessage));
        }
        var reply := validations[vi];
        vi := vi + 1;
        match reply
        case ValidateRequestFailed =>
          return Failure(AuthenticationException(BadResponseMessage));
        case ValidateResponse(status, body) =>
          if status == ExpectationFailed {
            serverPublicKeys := serverPublicKeys - {url};
          } else if status !in AcceptedStatuses {
            return Failure(AuthenticationException(BadResponseMessage));
          } else {
            return FinishAuthentication(body);
          }
      }
    }
  }
}
