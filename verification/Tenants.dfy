/**
 Tenant records (internal/db/db.go), the budget gate on them, and what is cached under which keys
 (internal/router/handler.go).
 */
module Tenants {
  import opened Wrappers

  /** How long a tenant record is cached. */
  const TENANT_TTL: nat := 5 * MINUTE

  datatype Tenant = Tenant(id: string, rateLimitRPM: int, budgetCents: int, spentCents: int, allowlist: seq<string>)

  /** The budget gate answers 402. */
  predicate Exhausted(t: Tenant) {
    t.budgetCents > 0 && t.spentCents >= t.budgetCents
  }

  datatype ChatResponse = ChatResponse(content: string, model: string, promptTokens: int, completionTokens: int)

  /** One cache holds both tenant records and responses, under keys with different prefixes. */
  datatype Payload<+T, +R> = TenantData(tenant: T) | ResponseData(response: R)

  function TenantKey(keyHash: string): string {
    "tenant:key:" + keyHash
  }

  /** The digest stands for the hash of the rendered messages. */
  function ResponseKey(tenantId: string, model: string, digest: string): string {
    "cache:" + tenantId + ":" + model + ":" + digest
  }

  lemma KeysDiffer(keyHash: string, tenantId: string, model: string, digest: string)
    ensures TenantKey(keyHash) != ResponseKey(tenantId, model, digest)
  {
    assert TenantKey(keyHash)[0] == 't' && ResponseKey(tenantId, model, digest)[0] == 'c';
  }

  lemma TenantKeyIsInjective(k: string, k': string)
    requires TenantKey(k) == TenantKey(k')
    ensures k == k'
  {
    assert k == TenantKey(k)[11..] && k' == TenantKey(k')[11..];
  }

  /** Responses are shared only within a tenant, for the same model and digest: ids are UUIDs and digests are
      hexadecimal, so neither contains a colon (models may). */
  lemma ResponseKeyIsInjective(i: string, m: string, d: string, i': string, m': string, d': string)
    requires ':' !in i && ':' !in i' && ':' !in d && ':' !in d'
    requires ResponseKey(i, m, d) == ResponseKey(i', m', d')
    ensures i == i' && m == m' && d == d'
  {
    var k := ResponseKey(i, m, d);
    var rest, rest' := m + ":" + d, m' + ":" + d';
    assert k[6..] == i + (":" + rest) && k[6..] == i' + (":" + rest');
    FirstColon(i, rest, i', rest');
    LastColon(m, d, m', d');
  }

  lemma FirstColon(x: string, y: string, x': string, y': string)
    requires ':' !in x && ':' !in x' && x + (":" + y) == x' + (":" + y')
    ensures x == x' && y == y'
  {
    var k := x + (":" + y);
    assert |x| == |x'| by {
      assert k[|x|] == ':' && k[|x'|] == ':';
      assert forall i :: 0 <= i < |x| ==> k[i] != ':';
      assert forall i :: 0 <= i < |x'| ==> k[i] != ':';
    }
    assert x == k[..|x|] && x' == k[..|x'|] && y == k[|x| + 1..] && y' == k[|x'| + 1..];
  }

  lemma LastColon(x: string, y: string, x': string, y': string)
    requires ':' !in y && ':' !in y' && x + ":" + y == x' + ":" + y'
    ensures x == x' && y == y'
  {
    var k := x + ":" + y;
    assert |x| == |x'| by {
      assert k[|x|] == ':' && k[|x'|] == ':';
      assert forall i :: |x| < i < |k| ==> k[i] == y[i - |x| - 1] != ':';
      assert forall i :: |x'| < i < |k| ==> k[i] == y'[i - |x'| - 1] != ':';
    }
    assert x == k[..|x|] && x' == k[..|x'|] && y == k[|x| + 1..] && y' == k[|x'| + 1..];
  }
}
