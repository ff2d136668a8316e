/**
 The string keys of the session store: how a namespace and an id become a Redis key, and how
 the ids of one user's tokens are found again with a KEYS pattern.
 */
module SessionKeys {
  import opened Prelude

  /** The two session services that share one Redis storage. */
  datatype Namespace = TokenNs | SessionNs

  /** An entry of the store, named by what its key is made of. */
  datatype Slot = Slot(ns: Namespace, id: string)

  const CHANNEL := "JWT_SESSION"
  const STORAGE_NAMESPACE := "REDIS_SESSION:"

  function NamespaceName(ns: Namespace): string {
    match ns
    case TokenNs => "TOKEN"
    case SessionNs => "SESSION"
  }

  /** BaseSessionService.cacheKey, for the only session type there is. */
  function CacheKey(ns: Namespace, id: string): string {
    NamespaceName(ns) + ":" + CHANNEL + ":" + id
  }

  /** AbstractRedisService.cacheKey of the session storage. */
  function RedisKey(key: string): string {
    STORAGE_NAMESPACE + ":" + key
  }

  function Render(slot: Slot): string {
    RedisKey(CacheKey(slot.ns, slot.id))
  }

  /** sessionBoundId of a token. */
  function BoundId(key: string, id: string): string {
    key + ":" + id
  }

  // ---- String.prototype.replace with a string pattern ----

  function IndexOf(s: string, pat: string): int {
    if pat <= s then 0
    else if s == "" then -1
    else var i := IndexOf(s[1..], pat); if i < 0 then -1 else i + 1
  }

  lemma {:induction false} IndexOfIsFirst(s: string, pat: string)
    ensures -1 <= IndexOf(s, pat)
    ensures 0 <= IndexOf(s, pat) ==> IndexOf(s, pat) <= |s| && pat <= s[IndexOf(s, pat)..]
    ensures forall j :: 0 <= j <= |s| && pat <= s[j..] ==> 0 <= IndexOf(s, pat) <= j
  {
    if pat <= s {
      assert s[0..] == s;
    } else if s != "" {
      IndexOfIsFirst(s[1..], pat);
      assert forall j :: 0 < j <= |s| ==> s[1..][j - 1..] == s[j..];
      assert s[0..] == s;
    }
  }

  function ReplaceFirst(s: string, pat: string, with: string): string {
    var i := IndexOf(s, pat);
    if i < 0 || |s| < i + |pat| then s else s[..i] + with + s[i + |pat|..]
  }

  lemma StripPrefix(pre: string, rest: string)
    ensures ReplaceFirst(pre + rest, pre, "") == rest
  {
    assert pre <= pre + rest;
  }

  // ---- Injectivity ----

  /** Different entries have different Redis keys, across both namespaces. */
  lemma RenderInjective(a: Slot, b: Slot)
    requires Render(a) == Render(b)
    ensures a == b
  {
    var i := |RedisKey("")|;
    assert Render(a)[i..] == CacheKey(a.ns, a.id) && Render(b)[i..] == CacheKey(b.ns, b.id);
    assert CacheKey(a.ns, a.id)[0] == (if a.ns == TokenNs then 'T' else 'S');
    assert CacheKey(b.ns, b.id)[0] == (if b.ns == TokenNs then 'T' else 'S');
    var j := |CacheKey(a.ns, "")|;
    assert CacheKey(a.ns, a.id)[j..] == a.id && CacheKey(b.ns, b.id)[j..] == b.id;
  }

  // ---- KEYS patterns ----

  /** Redis glob matching without character classes. */
  predicate Glob(p: string, s: string)
    decreases |p| + |s|
  {
    if p == "" then s == ""
    else if p[0] == '*' then Glob(p[1..], s) || (s != "" && Glob(p, s[1..]))
    else if p[0] == '?' then s != "" && Glob(p[1..], s[1..])
    else if p[0] == '\\' && |p| > 1 then s != "" && s[0] == p[1] && Glob(p[2..], s[1..])
    else s != "" && s[0] == p[0] && Glob(p[1..], s[1..])
  }

  predicate Plain(c: char) {
    c != '*' && c != '?' && c != '[' && c != ']' && c != '\\'
  }

  ghost predicate GlobFree(s: string) {
    forall i :: 0 <= i < |s| ==> Plain(s[i])
  }

  lemma {:induction false} StarMatchesAll(s: string)
    ensures Glob("*", s)
  {
    if s != "" {
      StarMatchesAll(s[1..]);
    } else {
      assert Glob("", "");
    }
  }

  /** A literal followed by a star matches exactly the strings that start with the literal. */
  lemma {:induction false} LiteralStar(lit: string, s: string)
    requires GlobFree(lit)
    ensures Glob(lit + "*", s) <==> lit <= s
  {
    var p := lit + "*";
    if lit == "" {
      assert p == "*";
      StarMatchesAll(s);
    } else {
      assert p[0] == lit[0] && p[1..] == lit[1..] + "*";
      if s != "" {
        LiteralStar(lit[1..], s[1..]);
        assert lit == [lit[0]] + lit[1..] && s == [s[0]] + s[1..];
      }
    }
  }

  // ---- Looking up a user's tokens ----

  /** The id pattern createToken asks for. */
  function LookupPattern(key: string, id: string): string {
    ReplaceFirst(BoundId(key, id), id, "*")
  }

  /** Where `id` first occurs in the bound id; right after the colon unless the key contains it. */
  function IdPosition(key: string, id: string): int {
    IndexOf(BoundId(key, id), id)
  }

  /** The pattern is `key:*` exactly if the id does not occur earlier in `key:id`. */
  lemma PatternExact(key: string, id: string)
    requires '*' !in key
    ensures LookupPattern(key, id) == key + ":*" <==> IdPosition(key, id) == |key| + 1
  {
    var s := BoundId(key, id);
    var n := |key| + 1;
    IndexOfIsFirst(s, id);
    assert s[n..] == id;
    var i := IdPosition(key, id);
    var p := LookupPattern(key, id);
    assert 0 <= i <= n && i + |id| <= |s|;
    assert p == s[..i] + "*" + s[i + |id|..];
    if i == n {
      assert s[..n] == key + ":";
      assert s[n + |id|..] == "";
      assert key + ":" + "*" == key + ":*";
    } else {
      assert p[i] == '*';
      assert (key + ":*")[i] == s[i] != '*';
    }
  }

  /** What getKeys of the two services makes of one Redis key. */
  function StripKey(k: string): string {
    ReplaceFirst(ReplaceFirst(k, RedisKey(""), ""), CacheKey(TokenNs, ""), "")
  }

  predicate Matches(pattern: string, k: string) {
    Glob(RedisKey(CacheKey(TokenNs, pattern)), k)
  }

  /** The ids getKeys returns for a pattern over the given live Redis keys. */
  function LookupKeys(keys: set<string>, pattern: string): set<string> {
    set k | k in keys && Matches(pattern, k) :: StripKey(k)
  }

  function RenderAll(live: set<Slot>): set<string> {
    set slot | slot in live :: Render(slot)
  }

  lemma StripInvertsRender(id: string)
    ensures StripKey(Render(Slot(TokenNs, id))) == id
  {
    var inner := CacheKey(TokenNs, id);
    assert Render(Slot(TokenNs, id)) == RedisKey("") + inner;
    StripPrefix(RedisKey(""), inner);
    assert inner == CacheKey(TokenNs, "") + id;
    StripPrefix(CacheKey(TokenNs, ""), id);
  }

  const TOKEN_PREFIX := RedisKey(CacheKey(TokenNs, ""))

  lemma PrefixIsPlain()
    ensures GlobFree(TOKEN_PREFIX)
  {
    assert GlobFree("REDIS_SESSION:") && GlobFree(":") && GlobFree("TOKEN") && GlobFree("JWT_SESSION");
  }

  lemma PrefixOfRender(rest: string, slot: Slot)
    ensures TOKEN_PREFIX + rest <= Render(slot) <==> slot.ns == TokenNs && rest <= slot.id
  {
    var lit := TOKEN_PREFIX + rest;
    if slot.ns == TokenNs {
      assert Render(slot) == TOKEN_PREFIX + slot.id;
      assert Render(slot)[|TOKEN_PREFIX|..] == slot.id;
      assert lit[|TOKEN_PREFIX|..] == rest;
    } else {
      var i := |RedisKey("")|;
      assert Render(slot)[i] == 'S' && lit[i] == 'T';
    }
  }

  lemma MatchesExactly(key: string, slot: Slot)
    requires GlobFree(key)
    ensures Matches(key + ":*", Render(slot)) <==> slot.ns == TokenNs && key + ":" <= slot.id
  {
    var lit := TOKEN_PREFIX + (key + ":");
    assert RedisKey(CacheKey(TokenNs, key + ":*")) == lit + "*";
    PrefixIsPlain();
    LiteralStar(lit, Render(slot));
    PrefixOfRender(key + ":", slot);
  }

  /** The lookup finds the ids of the live TOKEN entries bound to the key and nothing else. */
  ghost predicate Exact(live: set<Slot>, key: string, id: string) {
    forall b :: b in LookupKeys(RenderAll(live), LookupPattern(key, id)) <==>
                  Slot(TokenNs, b) in live && key + ":" <= b
  }

  /** For a key without pattern characters whose id does not occur in it early, the lookup is exact. */
  lemma LookupExact(live: set<Slot>, key: string, id: string)
    requires GlobFree(key) && IdPosition(key, id) == |key| + 1
    ensures Exact(live, key, id)
  {
    PatternExact(key, id);
    var pattern := key + ":*";
    var found := LookupKeys(RenderAll(live), pattern);
    forall b
      ensures b in found <==> Slot(TokenNs, b) in live && key + ":" <= b
    {
      if b in found {
        var k :| k in RenderAll(live) && Matches(pattern, k) && StripKey(k) == b;
        var slot :| slot in live && Render(slot) == k;
        MatchesExactly(key, slot);
        StripInvertsRender(slot.id);
      }
      if Slot(TokenNs, b) in live && key + ":" <= b {
        MatchesExactly(key, Slot(TokenNs, b));
        StripInvertsRender(b);
        assert Render(Slot(TokenNs, b)) in RenderAll(live);
      }
    }
  }

  // ---- When the id occurs early ----

  /** An id that occurs before its place in `key:id` has no pattern character: it repeats the key. */
  lemma {:induction false} EarlyIsPlain(key: string, id: string, i: nat, j: nat)
    requires GlobFree(key) && i <= |key| && id <= BoundId(key, id)[i..] && j < |id|
    ensures Plain(id[j])
    decreases j
  {
    var s := BoundId(key, id);
    assert id[j] == s[i..][j] == s[i + j];
    if i + j > |key| {
      EarlyIsPlain(key, id, i, i + j - |key| - 1);
    }
  }

  /** A pattern that ends in a plain character matches only strings that end in it. */
  lemma {:induction false} GlobLast(p: string, s: string)
    requires p != "" && Plain(p[|p| - 1]) && Glob(p, s)
    ensures s != "" && s[|s| - 1] == p[|p| - 1]
    decreases |p| + |s|
  {
    if p[0] == '*' {
      if Glob(p[1..], s) {
        GlobLast(p[1..], s);
      } else {
        GlobLast(p, s[1..]);
      }
    } else if p[0] == '\\' && |p| > 2 {
      GlobLast(p[2..], s[1..]);
    } else if p[0] != '\\' && |p| > 1 {
      GlobLast(p[1..], s[1..]);
    }
  }

  /** With an id that occurs early the pattern ends in a plain character. */
  lemma PatternEnd(key: string, id: string)
    requires GlobFree(key) && IdPosition(key, id) != |key| + 1
    ensures LookupPattern(key, id) != "" && Plain(LookupPattern(key, id)[|LookupPattern(key, id)| - 1])
  {
    var s := BoundId(key, id);
    IndexOfIsFirst(s, id);
    assert s[|key| + 1..] == id;
    var i := IdPosition(key, id);
    assert 0 <= i <= |key| && i + |id| < |s|;
    assert LookupPattern(key, id) == s[..i] + "*" + s[i + |id|..];
    assert LookupPattern(key, id)[|LookupPattern(key, id)| - 1] == s[|s| - 1];
    if id == "" {
      assert s[|s| - 1] == ':';
    } else {
      EarlyIsPlain(key, id, i, |id| - 1);
      assert s[|s| - 1] == id[|id| - 1];
    }
  }

  /** Then a token of the user that ends otherwise is not found. */
  lemma LookupMisses(key: string, id: string) returns (b: string)
    requires GlobFree(key) && IdPosition(key, id) != |key| + 1
    ensures key + ":" <= b && LookupKeys(RenderAll({Slot(TokenNs, b)}), LookupPattern(key, id)) == {}
  {
    PatternEnd(key, id);
    var pattern := LookupPattern(key, id);
    var last := pattern[|pattern| - 1];
    b := key + ":" + (if last == 'x' then "y" else "x");
    var full, k := RedisKey(CacheKey(TokenNs, pattern)), Render(Slot(TokenNs, b));
    assert full[|full| - 1] == last && k[|k| - 1] == b[|b| - 1] != last;
    if Glob(full, k) {
      GlobLast(full, k);
    }
    assert RenderAll({Slot(TokenNs, b)}) == {k};
  }

  /** The exact condition: the lookup is exact on every store if and only if the id does not occur early. */
  lemma LookupExactIff(key: string, id: string)
    requires GlobFree(key)
    ensures (forall live: set<Slot> :: Exact(live, key, id)) <==> IdPosition(key, id) == |key| + 1
  {
    if IdPosition(key, id) == |key| + 1 {
      forall live: set<Slot>
        ensures Exact(live, key, id)
      {
        LookupExact(live, key, id);
      }
    } else {
      var b := LookupMisses(key, id);
      assert Slot(TokenNs, b) in {Slot(TokenNs, b)};
      assert !Exact({Slot(TokenNs, b)}, key, id);
    }
  }

  lemma {:induction false} LiteralPrefix(lit: string, p: string, s: string)
    requires GlobFree(lit)
    ensures Glob(lit + p, lit + s) <==> Glob(p, s)
  {
    if lit == "" {
      assert lit + p == p && lit + s == s;
    } else {
      assert (lit + p)[0] == lit[0] && (lit + p)[1..] == lit[1..] + p;
      assert (lit + s)[0] == lit[0] && (lit + s)[1..] == lit[1..] + s;
      LiteralPrefix(lit[1..], p, s);
    }
  }

  lemma EarlyPattern()
    ensures LookupPattern("ab", "b") == "a*:b"
  {
    var s := BoundId("ab", "b");
    assert s == "ab:b";
    assert !("b" <= s) by { assert s[0] == 'a'; }
    assert s[1..] == "b:b" && "b" <= s[1..];
    assert IndexOf(s[1..], "b") == 0;
    assert IndexOf(s, "b") == 1;
    assert s[..1] == "a" && s[2..] == ":b";
    assert "a" + "*" + ":b" == "a*:b";
  }

  lemma StarInTheMiddle()
    ensures Glob("a*:b", "ac:b")
  {
    assert Glob("", "");
    assert "b"[1..] == "" && Glob("b", "b");
    assert ":b"[1..] == "b" && Glob(":b", ":b");
    assert "*:b"[1..] == ":b" && Glob("*:b", ":b");
    assert "c:b"[1..] == ":b" && Glob("*:b", "c:b");
    assert "a*:b"[1..] == "*:b" && "ac:b"[1..] == "c:b";
  }

  /** Matching an id pattern against a TOKEN key is matching it against the id. */
  lemma MatchesId(prefix: string, pattern: string, b: string)
    requires prefix == TOKEN_PREFIX
    ensures Matches(pattern, Render(Slot(TokenNs, b))) <==> Glob(pattern, b)
  {
    PrefixIsPlain();
    LiteralPrefix(prefix, pattern, b);
    var full, k := RedisKey(CacheKey(TokenNs, pattern)), Render(Slot(TokenNs, b));
    assert full == prefix + pattern && k == prefix + b;
  }

  lemma FindsMatch(pattern: string, b: string)
    requires Glob(pattern, b)
    ensures b in LookupKeys(RenderAll({Slot(TokenNs, b)}), pattern)
  {
    MatchesId(TOKEN_PREFIX, pattern, b);
    StripInvertsRender(b);
    assert Render(Slot(TokenNs, b)) in RenderAll({Slot(TokenNs, b)});
  }

  /** An id that occurs in the key can also find a token of another user: "ab" with id "b" finds that of "ac". */
  lemma EarlyIdFindsOther()
    ensures BoundId("ac", "b") in LookupKeys(RenderAll({Slot(TokenNs, BoundId("ac", "b"))}), LookupPattern("ab", "b"))
  {
    EarlyPattern();
    StarInTheMiddle();
    assert BoundId("ac", "b") == "ac:b";
    FindsMatch("a*:b", "ac:b");
  }

  /** Ids found for a key belong to that user: a key has no colon. */
  lemma BoundToUser(key: string, other: string, id: string)
    requires ':' !in key && ':' !in other
    ensures key + ":" <= BoundId(other, id) <==> key == other
  {
    var s := BoundId(other, id);
    assert forall j :: 0 <= j < |other| ==> s[j] == other[j] != ':';
    assert s[|other|] == ':' && s[..|other|] == other;
    assert (key + ":")[|key|] == ':' && (key + ":")[..|key|] == key;
    if key + ":" <= s {
      assert s[..|key|] == key;
    }
    assert s[..|other| + 1] == other + ":";
  }

  /** Where an id without colon occurs in `key:id` before its place, it occurs in the key. */
  lemma EarlyIsInKey(key: string, id: string, i: nat)
    requires id != "" && ':' !in id && i <= |key| && id <= BoundId(key, id)[i..]
    ensures id <= key[i..]
  {
    var s := BoundId(key, id);
    assert forall k :: 0 <= k < |id| ==> s[i + k] == s[i..][k] == id[k] != ':';
    assert s[|key|] == ':';
    assert i + |id| <= |key|;
    assert forall k :: 0 <= k < |id| ==> key[i..][k] == key[i + k] == s[i + k];
  }

  /** A non-empty id without colon that is no part of the key is found right after the colon. */
  lemma IdNotInKey(key: string, id: string)
    requires id != "" && ':' !in id && IndexOf(key, id) < 0
    ensures IdPosition(key, id) == |key| + 1
  {
    IndexOfIsFirst(BoundId(key, id), id);
    IndexOfIsFirst(key, id);
    assert BoundId(key, id)[|key| + 1..] == id;
    if 0 <= IdPosition(key, id) <= |key| {
      EarlyIsInKey(key, id, IdPosition(key, id));
      assert false;
    }
  }
}
