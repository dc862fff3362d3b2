/** The text of the rolling quota keys: which tenants, days and quotas share one. */
module QuotaKeys {
  /** A counter of one tenant and quota for one day; a day is the second at which it begins. */
  datatype DayKey = DayKey(tenant: string, quota: string, day: nat)

  /** How a day is written, without a colon and each its own way, as `yyyy-MM-dd` is. */
  type DayText = nat -> string

  ghost predicate Dated(text: DayText) {
    && (forall d: nat :: ':' !in text(d))
    && (forall d: nat, e: nat :: d % 86400 == e % 86400 == 0 && text(d) == text(e) ==> d == e)
  }

  /** What stands before the quota's name. */
  function Mark(tenant: string, day: string): string {
    tenant + (":" + (day + ":"))
  }

  function KeyText(text: DayText, k: DayKey): string {
    "quota:" + (Mark(k.tenant, text(k.day)) + k.quota)
  }

  /** The key of a call made now. */
  function RollingKey(tenant: string, quota: string, now: nat): (k: DayKey)
    ensures k.day <= now < k.day + 86400 && k.day % 86400 == 0
  {
    DayKey(tenant, quota, now - now % 86400)
  }

  predicate Apart(m: string, n: string) {
    !(m <= n) && !(n <= m)
  }

  lemma PrefixOfBoth(m: string, n: string, p: string, q: string)
    requires m + p == n + q && |m| <= |n|
    ensures m <= n
  {
    assert m == (m + p)[..|m|] == (n + q)[..|m|] == n[..|m|];
  }

  lemma Unprefixed(m: string, n: string, p: string, q: string)
    requires "quota:" + (m + p) == "quota:" + (n + q)
    ensures m + p == n + q
  {
    assert m + p == ("quota:" + (m + p))[6..];
    assert n + q == ("quota:" + (n + q))[6..];
  }

  /** Two tenants on two days share the keys of some quotas exactly when one's mark begins the other's. */
  lemma KeysMeet(text: DayText, t: string, d: nat, u: string, e: nat)
    ensures (exists p, q :: KeyText(text, DayKey(t, p, d)) == KeyText(text, DayKey(u, q, e))) <==>
            !Apart(Mark(t, text(d)), Mark(u, text(e)))
  {
    var m, n := Mark(t, text(d)), Mark(u, text(e));
    if p, q :| KeyText(text, DayKey(t, p, d)) == KeyText(text, DayKey(u, q, e)) {
      Unprefixed(m, n, p, q);
      if |m| <= |n| {
        PrefixOfBoth(m, n, p, q);
      } else {
        PrefixOfBoth(n, m, q, p);
      }
    }
    if m <= n {
      assert m + n[|m|..] == n + "";
      assert KeyText(text, DayKey(t, n[|m|..], d)) == KeyText(text, DayKey(u, "", e));
    } else if n <= m {
      assert n + m[|n|..] == m + "";
      assert KeyText(text, DayKey(t, "", d)) == KeyText(text, DayKey(u, m[|n|..], e));
    }
  }

  /** The shorter of two strings that are followed by a colon puts one into the longer. */
  lemma ColonWithin(a: string, b: string, x: string, y: string)
    requires a + (":" + x) <= b + (":" + y)
    ensures |a| < |b| ==> ':' in b
    ensures |b| < |a| ==> ':' in a
    ensures |a| == |b| ==> a == b && x <= y
  {
    var l, r := a + (":" + x), b + (":" + y);
    if |a| < |b| {
      assert b[|a|] == r[|a|] == l[|a|] == ':';
    } else if |b| < |a| {
      assert a[|b|] == l[|b|] == r[|b|] == ':';
    } else {
      assert a == l[..|a|] == r[..|a|] == b;
      assert x == l[|a| + 1..] && y == r[|a| + 1..];
    }
  }

  lemma MarkBegins(t: string, u: string, d: string, e: string)
    requires ':' !in t && ':' !in u && ':' !in d && ':' !in e && Mark(t, d) <= Mark(u, e)
    ensures t == u && d == e
  {
    ColonWithin(t, u, d + ":", e + ":");
    assert d + ":" == d + (":" + "") && e + ":" == e + (":" + "");
    ColonWithin(d, e, "", "");
  }

  predicate Plain(k: DayKey) {
    ':' !in k.tenant && k.day % 86400 == 0
  }

  /** Keys of tenants whose ids have no colon, as UUIDs have none, are told apart by their text. */
  lemma PlainKeysAreApart(text: DayText, a: DayKey, b: DayKey)
    requires Dated(text) && Plain(a) && Plain(b) && KeyText(text, a) == KeyText(text, b)
    ensures a == b
  {
    var m, n := Mark(a.tenant, text(a.day)), Mark(b.tenant, text(b.day));
    Unprefixed(m, n, a.quota, b.quota);
    if |m| <= |n| {
      PrefixOfBoth(m, n, a.quota, b.quota);
      MarkBegins(a.tenant, b.tenant, text(a.day), text(b.day));
    } else {
      PrefixOfBoth(n, m, b.quota, a.quota);
      MarkBegins(b.tenant, a.tenant, text(b.day), text(a.day));
    }
    assert a.quota == (m + a.quota)[|m|..] == b.quota;
  }

  /**
   On every day, a tenant id that ends in a colon and that day has its keys in common with the id before the colon.
   */
  lemma DatedIdShares(text: DayText, t: string, q: string, day: nat)
    ensures KeyText(text, DayKey(t + (":" + text(day)), q, day)) == KeyText(text, DayKey(t, text(day) + (":" + q), day))
  {
    var d := text(day);
    assert (t + (":" + d)) + (":" + (d + ":")) + q == t + (":" + (d + ":")) + (d + (":" + q));
  }
}
