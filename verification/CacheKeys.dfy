/** Cache keys: which requests share one. */
module CacheKeys {
  import opened Prelude

  /** _get_cache_key: the four parts joined by colons; payload is the canonical JSON text. */
  function CacheKey(tenant: string, moduleId: Option<string>, action: string, payload: string): string {
    tenant + ":" + (if moduleId.Some? then moduleId.value else "") + ":" + action + ":" + payload
  }

  predicate NoColon(s: string) {
    ':' !in s
  }

  /** Text before the first colon and text after it determine each other. */
  lemma SplitAtColon(a: string, x: string, b: string, y: string)
    requires a + ":" + x == b + ":" + y && NoColon(a) && NoColon(b)
    ensures a == b && x == y
  {
    var s := a + ":" + x;
    assert s[|a|] == ':' && s[|b|] == ':';
    assert forall i :: 0 <= i < |a| ==> s[i] == a[i] && s[i] != ':';
    assert forall i :: 0 <= i < |b| ==> s[i] == b[i] && s[i] != ':';
    assert |a| == |b|;
    assert a == s[..|a|] == b && x == s[|a| + 1..] == y;
  }

  /** A joined key as first part and rest. */
  lemma KeyAsRest(tenant: string, moduleId: Option<string>, action: string, payload: string)
    ensures var m := if moduleId.Some? then moduleId.value else "";
      CacheKey(tenant, moduleId, action, payload) == tenant + ":" + (m + ":" + (action + ":" + payload))
  {
  }

  // ---------- What the parts look like ----------

  predicate IsHex(c: char) {
    '0' <= c <= '9' || 'a' <= c <= 'f'
  }

  /** str() of a UUID column. */
  predicate IsUuid(t: string) {
    |t| == 36 && forall i :: 0 <= i < 36 ==> if i in {8, 13, 18, 23} then t[i] == '-' else IsHex(t[i])
  }

  /** Tenant ids are read from a UUID column, and the rate limiter raises for anything that is no UUID. */
  type TenantId = t: string | IsUuid(t) witness "00000000-0000-0000-0000-000000000000"

  /** Where a reader of JSON text stands: outside strings, in one, or in one after a backslash. */
  datatype Mode = Outside | InString | Escaped

  function Next(m: Mode, c: char): Mode {
    match m
    case Outside => if c == '"' then InString else Outside
    case InString => if c == '"' then Outside else if c == '\\' then Escaped else InString
    case Escaped => InString
  }

  function Scan(p: string): Mode {
    if p == "" then Outside else Next(Scan(p[..|p| - 1]), p[|p| - 1])
  }

  /**
   What is used of json.dumps on a dict: braces at both ends, every string closed, no
   backslash outside strings, and every colon outside strings followed by a space.
   */
  predicate IsDump(p: string) {
    && |p| >= 2 && p[0] == '{' && p[|p| - 1] == '}' && Scan(p) == Outside
    && forall i :: 0 <= i < |p| ==> DumpedAt(p, i)
  }

  predicate DumpedAt(p: string, i: nat)
    requires i < |p|
  {
    Scan(p[..i]) == Outside ==> p[i] != '\\' && (p[i] == ':' ==> i + 1 < |p| && p[i + 1] == ' ')
  }

  /** The dump of an empty dict. */
  function EmptyDump(): (p: string)
    ensures p == "{}" && IsDump(p)
  {
    assert "{}"[..0] == "" && "{}"[..1] == "{" && "{}"[..2] == "{}";
    assert Scan("{") == Outside;
    "{}"
  }

  type Payload = p: string | IsDump(p) witness EmptyDump()

  // ---------- Equal keys ----------

  /** Module id and action as the key joins them; no module id and an empty one are alike. */
  function Address(moduleId: Option<string>, action: string): string {
    (if moduleId.Some? then moduleId.value else "") + ":" + action
  }

  lemma ScanOneMore(p: string, n: nat)
    requires n < |p|
    ensures Scan(p[..n + 1]) == Next(Scan(p[..n]), p[n])
  {
    assert p[..n + 1][..n] == p[..n];
  }

  /** Of two readers, one is in a string and one is not. */
  predicate Exchanged(a: Mode, b: Mode) {
    (a == InString && b == Outside) || (a == Outside && b == InString)
  }

  /** Read from inside one of its strings, a dump has its strings and the rest exchanged. */
  lemma {:induction false} ReadFromInside(p: string, q: string, i: nat, n: nat)
    requires IsDump(p) && IsDump(q) && n <= |q| && i + |q| == |p| && Scan(p[..i]) == InString
    requires forall k :: 0 <= k < |q| ==> q[k] == p[i + k]
    ensures Exchanged(Scan(p[..i + n]), Scan(q[..n]))
  {
    if n == 0 {
      assert q[..0] == "";
    } else {
      ReadFromInside(p, q, i, n - 1);
      ScanOneMore(p, i + n - 1);
      ScanOneMore(q, n - 1);
      assert DumpedAt(p, i + n - 1) && DumpedAt(q, n - 1);
    }
  }

  /** So no dump ends in another one that follows a colon. */
  lemma NoDumpWithinADump(p: string, i: nat)
    requires IsDump(p) && 0 < i < |p| && p[i - 1] == ':'
    ensures !IsDump(p[i..])
  {
    var q := p[i..];
    ScanOneMore(p, i - 1);
    assert DumpedAt(p, i - 1);
    assert p[..|p|] == p && q[..|q|] == q;
    if IsDump(q) { ReadFromInside(p, q, i, |q|); }
  }

  /** A joined string tells the payload at its end from what precedes it. */
  lemma SplitAtPayload(x: string, p: Payload, y: string, q: Payload)
    requires x + ":" + p == y + ":" + q
    ensures x == y && p == q
  {
    var s := x + ":" + p;
    if |p| > |q| {
      var i := |p| - |q|;
      assert p[i..] == s[|s| - |q|..] == q && p[i - 1] == s[|s| - |q| - 1] == ':';
      NoDumpWithinADump(p, i);
    } else if |q| > |p| {
      var i := |q| - |p|;
      assert q[i..] == s[|s| - |p|..] == p && q[i - 1] == s[|s| - |p| - 1] == ':';
      NoDumpWithinADump(q, i);
    }
    assert x == s[..|x|] && y == s[..|y|] && p == s[|x| + 1..];
  }

  lemma KeyAsAddress(tenant: string, moduleId: Option<string>, action: string, payload: string)
    ensures CacheKey(tenant, moduleId, action, payload) == tenant + ":" + (Address(moduleId, action) + ":" + payload)
  {
  }

  /** Keys are equal exactly for the same tenant, the same payload, and module and action that join to one string. */
  lemma EqualKeysIff(t1: TenantId, m1: Option<string>, a1: string, p1: Payload,
                     t2: TenantId, m2: Option<string>, a2: string, p2: Payload)
    ensures CacheKey(t1, m1, a1, p1) == CacheKey(t2, m2, a2, p2) <==>
      t1 == t2 && p1 == p2 && Address(m1, a1) == Address(m2, a2)
  {
    KeyAsAddress(t1, m1, a1, p1);
    KeyAsAddress(t2, m2, a2, p2);
    if CacheKey(t1, m1, a1, p1) == CacheKey(t2, m2, a2, p2) {
      SplitAtColon(t1, Address(m1, a1) + ":" + p1, t2, Address(m2, a2) + ":" + p2);
      SplitAtPayload(Address(m1, a1), p1, Address(m2, a2), p2);
    }
  }

  /** m2 is m1 with more behind a colon, and a1 has that more before a2. */
  predicate Shifted(m1: string, a1: string, m2: string, a2: string) {
    m1 + ":" <= m2 && a1 == m2[|m1| + 1..] + ":" + a2
  }

  /** Different pairs join to one string exactly when one's action carries the end of the other's module id. */
  lemma EqualAddressesIff(m1: string, a1: string, m2: string, a2: string)
    ensures Address(Some(m1), a1) == Address(Some(m2), a2) <==>
      (m1 == m2 && a1 == a2) || Shifted(m1, a1, m2, a2) || Shifted(m2, a2, m1, a1)
  {
    var s, t := Address(Some(m1), a1), Address(Some(m2), a2);
    assert s[..|m1|] == m1 && s[|m1|] == ':' && s[|m1| + 1..] == a1;
    assert t[..|m2|] == m2 && t[|m2|] == ':' && t[|m2| + 1..] == a2;
    if s == t {
      if |m1| < |m2| {
        ShiftedParts(s, |m1|, |m2|);
      } else if |m2| < |m1| {
        ShiftedParts(s, |m2|, |m1|);
      }
    }
    if Shifted(m1, a1, m2, a2) { assert m2 == m1 + ":" + m2[|m1| + 1..]; }
    if Shifted(m2, a2, m1, a1) { assert m1 == m2 + ":" + m1[|m2| + 1..]; }
  }

  lemma ShiftedParts(s: string, i: nat, j: nat)
    requires i < j < |s| && s[i] == s[j] == ':'
    ensures Shifted(s[..i], s[i + 1..], s[..j], s[j + 1..])
  {
    assert s[..j][..i + 1] == s[..i] + ":";
    assert s[i + 1..] == s[..j][i + 1..] + ":" + s[j + 1..];
  }

  /** Module ids without colons are told apart, whatever the actions. */
  lemma KeyIdentifiesRequest(t1: TenantId, m1: Option<string>, a1: string, p1: Payload,
                             t2: TenantId, m2: Option<string>, a2: string, p2: Payload)
    requires (m1.Some? ==> NoColon(m1.value)) && (m2.Some? ==> NoColon(m2.value))
    ensures CacheKey(t1, m1, a1, p1) == CacheKey(t2, m2, a2, p2) <==>
      t1 == t2 && SameModule(m1, m2) && a1 == a2 && p1 == p2
  {
    EqualKeysIff(t1, m1, a1, p1, t2, m2, a2, p2);
    if Address(m1, a1) == Address(m2, a2) {
      SplitAtColon(if m1.Some? then m1.value else "", a1, if m2.Some? then m2.value else "", a2);
    }
  }

  predicate SameModule(a: Option<string>, b: Option<string>) {
    (if a.Some? then a.value else "") == (if b.Some? then b.value else "")
  }

  // ---------- Were tenant ids any text ----------

  /** The tenants' keys can coincide for some requests. */
  ghost predicate CanShareKey(t1: string, t2: string) {
    exists m1, a1, p1, m2, a2, p2 ::
      IsDump(p1) && IsDump(p2) && CacheKey(t1, m1, a1, p1) == CacheKey(t2, m2, a2, p2)
  }

  /**
   Were tenant ids any text, two of them could share a key exactly when one followed by a
   colon is a prefix of the other.
   */
  lemma SharedKeyIff(t1: string, t2: string)
    requires t1 != t2
    ensures CanShareKey(t1, t2) <==> t1 + ":" <= t2 || t2 + ":" <= t1
  {
    if CanShareKey(t1, t2) {
      var m1, a1, p1, m2, a2, p2 :| CacheKey(t1, m1, a1, p1) == CacheKey(t2, m2, a2, p2);
      SharedKeyMeansPrefix(t1, m1, a1, p1, t2, m2, a2, p2);
    }
    if t1 + ":" <= t2 { Collision(t1, t2, "text", "summarize", EmptyDump()); }
    if t2 + ":" <= t1 { Collision(t2, t1, "text", "summarize", EmptyDump()); }
  }

  lemma SharedKeyMeansPrefix(t1: string, m1: Option<string>, a1: string, p1: string,
                             t2: string, m2: Option<string>, a2: string, p2: string)
    requires t1 != t2 && CacheKey(t1, m1, a1, p1) == CacheKey(t2, m2, a2, p2)
    ensures t1 + ":" <= t2 || t2 + ":" <= t1
  {
    KeyAsRest(t1, m1, a1, p1);
    KeyAsRest(t2, m2, a2, p2);
    var s := CacheKey(t1, m1, a1, p1);
    assert t1 == s[..|t1|] && t2 == s[..|t2|] && s[|t1|] == s[|t2|] == ':';
    if |t1| < |t2| {
      assert t2[..|t1| + 1] == s[..|t1| + 1] == t1 + ":";
    } else {
      assert |t2| < |t1|;
      assert t1[..|t2| + 1] == s[..|t2| + 1] == t2 + ":";
    }
  }

  /** Every request of the longer-named tenant has a double among the shorter-named tenant's, with the same payload. */
  lemma Collision(t1: string, t2: string, m: string, a: string, p: string)
    requires t1 + ":" <= t2
    ensures CacheKey(t1, Some(t2[|t1| + 1..]), m + ":" + a, p) == CacheKey(t2, Some(m), a, p)
    ensures IsDump(p) ==> CanShareKey(t1, t2) && CanShareKey(t2, t1)
  {
  }
}
