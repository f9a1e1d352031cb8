/**
 * Naming of cache entries: the value key a provider derives from a request,
 * the freshness marker that guards it, and the two key helpers of the cache
 * manager (of which the request path uses neither).
 */
module Keys {
  import opened Wrappers
  import opened Json

  /** `TTL:${key}`, the marker whose presence means "the value under key is fresh". */
  function TtlKey(key: string): (r: string)
    ensures r != key
  {
    "TTL:" + key
  }

  /** Distinct keys have distinct markers, so one marker never guards two values. */
  lemma TtlKeyInjective(a: string, b: string)
    requires TtlKey(a) == TtlKey(b)
    ensures a == b
  {
    assert a == TtlKey(a)[4..];
    assert b == TtlKey(b)[4..];
  }

  /** `generateCacheKey(prefix, args)`: `${prefix}:${JSON.stringify(args)}`. */
  function GenerateCacheKey(prefix: string, args: Value): (r: string)
    ensures prefix + ":" <= r
  {
    prefix + ":" + Interpolate(Stringify(args))
  }

  /** `generateTTLKey(prefix, args)`: `${prefix}:TTL:${JSON.stringify(args)}`. */
  function GenerateTTLKey(prefix: string, args: Value): (r: string)
    ensures prefix + ":TTL:" <= r
    ensures r == GenerateCacheKey(prefix + ":TTL", args)
  {
    prefix + ":TTL:" + Interpolate(Stringify(args))
  }

  /** The two generated keys for the same prefix and arguments never coincide. */
  lemma GeneratedKeysDiffer(prefix: string, args: Value)
    ensures GenerateCacheKey(prefix, args) != GenerateTTLKey(prefix, args)
  {
    assert |GenerateTTLKey(prefix, args)| == |GenerateCacheKey(prefix, args)| + 4;
  }

  /** Index of the first ':' in s, or |s| when there is none. */
  function FirstColon(s: string): (i: nat)
    ensures i <= |s|
    ensures forall j :: 0 <= j < i ==> s[j] != ':'
    ensures i < |s| ==> s[i] == ':'
  {
    if s == [] then 0 else if s[0] == ':' then 0 else 1 + FirstColon(s[1..])
  }

  /** The first colon of `p + ":" + t` sits right after a colon-free p. */
  lemma {:induction false} FirstColonAfter(p: string, t: string)
    requires ':' !in p
    ensures FirstColon(p + ":" + t) == |p|
  {
    if p != [] {
      assert (p + ":" + t)[1..] == p[1..] + ":" + t;
      FirstColonAfter(p[1..], t);
    }
  }

  /** A string splits at most one way into a colon-free head, a colon and a tail. */
  lemma ColonSplit(p: string, t: string, q: string, u: string)
    requires ':' !in p && ':' !in q
    ensures p + ":" + t == q + ":" + u ==> p == q && t == u
  {
    var s, s' := p + ":" + t, q + ":" + u;
    FirstColonAfter(p, t);
    FirstColonAfter(q, u);
    if |p| == |q| {
      assert s[..|p|] == p && s'[..|q|] == q;
      assert s[|p| + 1..] == t && s'[|q| + 1..] == u;
    }
  }

  /**
   * The key helper `generateTTLKey` does not produce the marker that
   * `getCachedDataIfExist` checks for the matching `generateCacheKey`:
   * one puts `TTL` after the prefix, the other in front of the whole key.
   * This holds for every prefix whose text before its first colon is not
   * `TTL`, among them the `source:method` prefix of every request key; for
   * the prefix `TTL` itself the two keys coincide.
   */
  lemma GeneratedTtlKeyIsNotTheMarker(prefix: string, args: Value)
    requires prefix[..FirstColon(prefix)] != "TTL"
    ensures GenerateTTLKey(prefix, args) != TtlKey(GenerateCacheKey(prefix, args))
  {
    var t := Interpolate(Stringify(args));
    assert GenerateTTLKey(prefix, args) == prefix + ":TTL:" + t;
    assert TtlKey(GenerateCacheKey(prefix, args)) == "TTL:" + (prefix + ":" + t);
    TtlInsideDiffersFromTtlInFront(prefix, t);
  }

  /** `prefix:TTL:t` is not `TTL:prefix:t` unless the prefix's head is `TTL`. */
  lemma TtlInsideDiffersFromTtlInFront(prefix: string, t: string)
    requires prefix[..FirstColon(prefix)] != "TTL"
    ensures prefix + ":TTL:" + t != "TTL:" + (prefix + ":" + t)
  {
    var i := FirstColon(prefix);
    var head := prefix[..i];
    SplitAtColon(prefix, i);
    if i == |prefix| {
      SplitAfterHead(head, "TTL:" + t, prefix + ":" + t);
    } else {
      var tail := prefix[i + 1..];
      HeadColonRegroup(head, tail, "TTL:" + t);
      SplitAfterHead(head, tail + ":TTL:" + t, prefix + ":" + t);
    }
  }

  /** Cutting s at a first colon i: a colon-free head, then the colon and the rest. */
  lemma SplitAtColon(s: string, i: nat)
    requires i <= |s|
    requires forall j :: 0 <= j < i ==> s[j] != ':'
    requires i < |s| ==> s[i] == ':'
    ensures ':' !in s[..i]
    ensures i == |s| ==> s[..i] == s
    ensures i < |s| ==> s == s[..i] + ":" + s[i + 1..]
  {
    forall j | 0 <= j < i ensures s[..i][j] != ':' { assert s[..i][j] == s[j]; }
    if i < |s| {
      assert s == s[..i] + [s[i]] + s[i + 1..];
    }
  }

  /** Regrouping `head:tail` followed by `:rest`. */
  lemma HeadColonRegroup(head: string, tail: string, rest: string)
    ensures head + ":" + tail + ":" + rest == head + ":" + (tail + ":" + rest)
  {
  }

  /** A string whose colon-free head is not `TTL` does not start with `TTL:`. */
  lemma SplitAfterHead(head: string, rest: string, u: string)
    requires ':' !in head && head != "TTL"
    ensures head + ":" + rest != "TTL:" + u
  {
    assert "TTL:" + u == "TTL" + ":" + u;
    ColonSplit(head, rest, "TTL", u);
  }

  /** For the prefix `TTL` the helper's key and the marker are the same string. */
  lemma TtlPrefixKeyIsTheMarker(args: Value)
    ensures GenerateTTLKey("TTL", args) == TtlKey(GenerateCacheKey("TTL", args))
  {
  }

  /** Every request key's prefix `source:method` qualifies when the source is colon-free and not `TTL`. */
  lemma RequestPrefixQualifies(source: string, rpcMethod: string)
    requires ':' !in source && source != "TTL"
    ensures (source + ":" + rpcMethod)[..FirstColon(source + ":" + rpcMethod)] != "TTL"
  {
    FirstColonAfter(source, rpcMethod);
    assert (source + ":" + rpcMethod)[..|source|] == source;
  }

  /** The cache key of one request (provider.ts line 49). */
  function RequestKey(source: string, rpcMethod: string, params: Value): (r: string)
    ensures r == GenerateCacheKey(source + ":" + rpcMethod, params)
  {
    source + ":" + rpcMethod + ":" + Interpolate(Stringify(params))
  }

  /**
   * A freshness marker never overwrites a cached value of the same provider:
   * no request key is the marker of another (a colon-free source other than `TTL`).
   */
  lemma MarkerIsNeverARequestKey(source: string, m1: string, p1: Value, m2: string, p2: Value)
    requires ':' !in source && source != "TTL"
    ensures TtlKey(RequestKey(source, m1, p1)) != RequestKey(source, m2, p2)
  {
    var k1 := RequestKey(source, m1, p1);
    var rest := m2 + ":" + Interpolate(Stringify(p2));
    assert TtlKey(k1) == "TTL" + ":" + k1;
    assert RequestKey(source, m2, p2) == source + ":" + rest;
    ColonSplit("TTL", k1, source, rest);
  }

  /** Behind a common head, a colon-free name and its tail are determined. */
  lemma SameHeadSplit(head: string, m1: string, t1: string, m2: string, t2: string)
    requires ':' !in m1 && ':' !in m2
    ensures head + m1 + ":" + t1 == head + m2 + ":" + t2 ==> m1 == m2 && t1 == t2
  {
    var k1, k2 := head + m1 + ":" + t1, head + m2 + ":" + t2;
    assert k1[|head|..] == m1 + ":" + t1;
    assert k2[|head|..] == m2 + ":" + t2;
    ColonSplit(m1, t1, m2, t2);
  }

  /**
   * Requests of one provider for colon-free method names share a cache key
   * only when they have the same method and the same parameter text.
   */
  lemma RequestKeySeparatesMethods(source: string, m1: string, p1: Value, m2: string, p2: Value)
    requires ':' !in m1 && ':' !in m2
    requires RequestKey(source, m1, p1) == RequestKey(source, m2, p2)
    ensures m1 == m2
    ensures Interpolate(Stringify(p1)) == Interpolate(Stringify(p2))
  {
    SameHeadSplit(source + ":", m1, Interpolate(Stringify(p1)), m2, Interpolate(Stringify(p2)));
  }

  /**
   * JSON.stringify keeps the insertion order of ordinary names, so the same
   * object built in two orders (both real JavaScript objects) lands under
   * two cache keys: there is no canonical ordering.
   */
  lemma MemberOrderChangesKey(source: string, rpcMethod: string)
    ensures WellFormed(Obj([Member("a", Null), Member("b", Null)]))
    ensures WellFormed(Obj([Member("b", Null), Member("a", Null)]))
    ensures RequestKey(source, rpcMethod, Obj([Member("a", Null), Member("b", Null)]))
         != RequestKey(source, rpcMethod, Obj([Member("b", Null), Member("a", Null)]))
  {
    assert !IndexName("a") && !IndexName("b");
    assert "a" != "b" by { assert "a"[0] != "b"[0]; }
    OrdinaryPairIsObject("a", "b");
    OrdinaryPairIsObject("b", "a");
    var tab, tba := SwappedMembersTexts();
    var prefix := source + ":" + rpcMethod + ":";
    assert RequestKey(source, rpcMethod, Obj([Member("a", Null), Member("b", Null)])) == prefix + tab;
    assert RequestKey(source, rpcMethod, Obj([Member("b", Null), Member("a", Null)])) == prefix + tba;
    assert (prefix + tab)[|prefix| + 2] != (prefix + tba)[|prefix| + 2];
  }

  /** The JSON texts of `{a: null, b: null}` and `{b: null, a: null}` differ at their third character. */
  lemma SwappedMembersTexts() returns (tab: string, tba: string)
    ensures tab == Text(Obj([Member("a", Null), Member("b", Null)]))
    ensures tba == Text(Obj([Member("b", Null), Member("a", Null)]))
    ensures |tab| > 2 && |tba| > 2 && tab[2] == 'a' && tba[2] == 'b'
  {
    var a, b := Member("a", Null), Member("b", Null);
    assert Quote("a") == "\"a\"" by { assert Escape("a") == "a"; }
    assert Quote("b") == "\"b\"" by { assert Escape("b") == "b"; }
    assert MemberTexts([a, b])[0] == "\"a\":null";
    assert MemberTexts([b, a])[0] == "\"b\":null";
    tab, tba := Text(Obj([a, b])), Text(Obj([b, a]));
  }

  /** An undefined member is dropped by JSON.stringify: `{a: undefined}` and `{}` share a key. */
  lemma UndefinedMemberSharesKey(source: string, rpcMethod: string)
    ensures RequestKey(source, rpcMethod, Obj([Member("a", Undefined)])) == RequestKey(source, rpcMethod, Obj([]))
  {
    assert MemberTexts([Member("a", Undefined)]) == [];
  }

  /** Without params the key ends in the text `undefined`, not in JSON. */
  lemma MissingParamsKey(source: string, rpcMethod: string)
    ensures RequestKey(source, rpcMethod, Undefined) == source + ":" + rpcMethod + ":undefined"
  {
  }
}
