/** The one Redis keyspace, flat and expiring, behind sessions and rate limiting
    (session_repo.go, ratelimit_middleware.go). */
module Keyspace {
  import opened Domain

  datatype Kind = Refresh | Mfa | EmailVerify | PwdReset | OAuthState | RateLimit

  datatype Key = Key(kind: Kind, token: Token)

  /** A stored string: the text of a user id, a provider name, or a decimal counter. */
  datatype Value = OfUser(id: Id) | OfProvider(name: string) | Count(n: int)

  datatype Entry = Entry(value: Value, expiry: Time)

  type Store = map<Key, Entry>

  datatype GetResult = Found(value: Value) | Nil | Broken

  function Prefix(kind: Kind): string {
    match kind
    case Refresh => "refresh_token:"
    case Mfa => "mfa_challenge:"
    case EmailVerify => "email_verify:"
    case PwdReset => "pwd_reset:"
    case OAuthState => "oauth_state:"
    case RateLimit => "ratelimit:"
  }

  function Flatten(key: Key): string {
    Prefix(key.kind) + key.token
  }

  /** The keys as Redis sees them. */
  lemma KeyFormats(token: Token)
    ensures Flatten(Key(Refresh, token)) == "refresh_token:" + token
    ensures Flatten(Key(Mfa, token)) == "mfa_challenge:" + token
    ensures Flatten(Key(EmailVerify, token)) == "email_verify:" + token
    ensures Flatten(Key(PwdReset, token)) == "pwd_reset:" + token
    ensures Flatten(Key(OAuthState, token)) == "oauth_state:" + token
    ensures Flatten(Key(RateLimit, token)) == "ratelimit:" + token
  {
  }

  ghost predicate Live(kv: Store, now: Time, key: Key) {
    key in kv && now < kv[key].expiry
  }

  ghost function Get(kv: Store, now: Time, key: Key, out: Outcome): GetResult {
    if !out.Acked? then Broken
    else if Live(kv, now, key) then Found(kv[key].value)
    else Nil
  }

  ghost function Set(kv: Store, now: Time, key: Key, value: Value, ttl: Time, out: Outcome): Store {
    if out.Refused? then kv else kv[key := Entry(value, now + ttl)]
  }

  ghost function Del(kv: Store, key: Key, out: Outcome): Store {
    if out.Refused? then kv else kv - {key}
  }

  // ---------- the flat map as six independent maps ----------

  /** Reading a flat key back: the reverse of Flatten. */
  ghost function Parse(s: string): Option<Key> {
    if exists k: Key :: Flatten(k) == s then Some(var k: Key :| Flatten(k) == s; k) else None
  }

  lemma PrefixHeads(a: Kind, b: Kind, s: string, t: string)
    requires Prefix(a) + s == Prefix(b) + t
    ensures a == b
  {
    assert Prefix(a)[0] == (Prefix(a) + s)[0] == Prefix(b)[0];
    assert Prefix(a)[1] == (Prefix(a) + s)[1] == Prefix(b)[1];
  }

  /** For arbitrary token and IP text, no two (kind, token) pairs share a flat key. */
  lemma FlattenInjective(a: Key, b: Key)
    requires Flatten(a) == Flatten(b)
    ensures a == b
  {
    PrefixHeads(a.kind, b.kind, a.token, b.token);
    assert a.token == Flatten(a)[|Prefix(a.kind)|..];
    assert b.token == Flatten(b)[|Prefix(b.kind)|..];
  }

  lemma ParseFlatten(key: Key)
    ensures Parse(Flatten(key)) == Some(key)
  {
    var k := Parse(Flatten(key)).value;
    FlattenInjective(k, key);
  }

  /** The typed store a flat map stands for. */
  ghost function View(flat: map<string, Entry>): (kv: Store)
    ensures forall key :: key in kv <==> Flatten(key) in flat
    ensures forall key :: key in kv ==> kv[key] == flat[Flatten(key)]
  {
    var keys := set s | s in flat && Parse(s).Some? :: Parse(s).value;
    assert forall key :: Flatten(key) in flat ==> key in keys by {
      forall key | Flatten(key) in flat ensures key in keys {
        ParseFlatten(key);
      }
    }
    map key | key in keys :: flat[Flatten(key)]
  }

  lemma ViewUpdate(flat: map<string, Entry>, key: Key, e: Entry)
    ensures View(flat[Flatten(key) := e]) == View(flat)[key := e]
  {
    forall k: Key | Flatten(k) == Flatten(key) ensures k == key {
      FlattenInjective(k, key);
    }
  }

  lemma ViewRemove(flat: map<string, Entry>, key: Key)
    ensures View(flat - {Flatten(key)}) == View(flat) - {key}
  {
    forall k: Key | Flatten(k) == Flatten(key) ensures k == key {
      FlattenInjective(k, key);
    }
  }

  /** One of the six maps: the entries of a kind, by token. */
  ghost function Submap(kv: Store, kind: Kind): (m: map<Token, Entry>)
    ensures forall t :: t in m <==> Key(kind, t) in kv
    ensures forall t :: t in m ==> m[t] == kv[Key(kind, t)]
  {
    var tokens := set k | k in kv && k.kind == kind :: k.token;
    assert forall t :: Key(kind, t) in kv ==> t in tokens by {
      forall t | Key(kind, t) in kv ensures t in tokens {
        assert Key(kind, t).token == t;
      }
    }
    map t | t in tokens :: kv[Key(kind, t)]
  }

  /** A flat SET acts on the map of its own kind and leaves the other five alone. */
  lemma SetRefinesSubmaps(flat: map<string, Entry>, key: Key, e: Entry, kind: Kind)
    ensures Submap(View(flat[Flatten(key) := e]), kind) ==
            if kind == key.kind then Submap(View(flat), kind)[key.token := e] else Submap(View(flat), kind)
  {
    ViewUpdate(flat, key, e);
  }

  lemma SubmapRemove(kv: Store, key: Key, kind: Kind)
    ensures Submap(kv - {key}, kind) ==
            if kind == key.kind then Submap(kv, kind) - {key.token} else Submap(kv, kind)
  {
    var after := Submap(kv - {key}, kind);
    var before := if kind == key.kind then Submap(kv, kind) - {key.token} else Submap(kv, kind);
    forall t ensures t in after <==> t in before {
      assert Key(kind, t) == key <==> kind == key.kind && t == key.token;
    }
  }

  /** A flat DEL acts on the map of its own kind and leaves the other five alone. */
  lemma DelRefinesSubmaps(flat: map<string, Entry>, key: Key, kind: Kind)
    ensures Submap(View(flat - {Flatten(key)}), kind) ==
            if kind == key.kind then Submap(View(flat), kind) - {key.token} else Submap(View(flat), kind)
  {
    ViewRemove(flat, key);
    SubmapRemove(View(flat), key, kind);
  }

  // ---------- the server and the session repository ----------

  class Redis {
    var flat: map<string, Entry>
    var now: Time

    constructor ()
      ensures flat == map[] && now == 0
    {
      flat, now := map[], 0;
    }

    method Elapse(d: nat)
      modifies `now
      ensures now == old(now) + d
    {
      now := now + d;
    }
  }

  class SessionRepository {
    const redis: Redis

    constructor (redis: Redis)
      ensures this.redis == redis
    {
      this.redis := redis;
    }

    ghost function Contents(): Store
      reads redis
    {
      View(redis.flat)
    }

    method Store(kind: Kind, token: Token, value: Value, ttl: Time, out: Outcome) returns (ok: bool)
      modifies redis`flat
      ensures Contents() == Set(old(Contents()), redis.now, Key(kind, token), value, ttl, out)
      ensures ok == out.Acked?
    {
      if !out.Refused? {
        ViewUpdate(redis.flat, Key(kind, token), Entry(value, redis.now + ttl));
        redis.flat := redis.flat[Prefix(kind) + token := Entry(value, redis.now + ttl)];
      }
      return out.Acked?;
    }

    method Read(kind: Kind, token: Token, out: Outcome) returns (r: GetResult)
      ensures r == Get(Contents(), redis.now, Key(kind, token), out)
    {
      var key := Prefix(kind) + token;
      assert key == Flatten(Key(kind, token));
      if !out.Acked? {
        return Broken;
      }
      if key in redis.flat && redis.now < redis.flat[key].expiry {
        return Found(redis.flat[key].value);
      }
      return Nil;
    }

    method Revoke(kind: Kind, token: Token, out: Outcome) returns (ok: bool)
      modifies redis`flat
      ensures Contents() == Del(old(Contents()), Key(kind, token), out)
      ensures ok == out.Acked?
    {
      if !out.Refused? {
        ViewRemove(redis.flat, Key(kind, token));
        redis.flat := redis.flat - {Prefix(kind) + token};
      }
      return out.Acked?;
    }

    /** GET, compare, DEL: a state is spent only by the provider it was stored for. */
    method ValidateAndConsumeOAuthState(state: Token, provider: string, get: Outcome, wait: nat, del: Outcome)
      returns (valid: bool)
      modifies redis
      ensures valid <==>
              Get(old(Contents()), old(redis.now), Key(OAuthState, state), get) == Found(OfProvider(provider))
      ensures Contents() == if valid then Del(old(Contents()), Key(OAuthState, state), del) else old(Contents())
      ensures redis.now == if valid then old(redis.now) + wait else old(redis.now)
    {
      var val := Read(OAuthState, state, get);
      if val != Found(OfProvider(provider)) {
        return false;
      }
      redis.Elapse(wait);
      var _ := Revoke(OAuthState, state, del);
      return true;
    }
  }
}
