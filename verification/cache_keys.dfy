/**
 * The pagination part shared by the cache keys of the tasks and the users
 * services, and the facts that make such keys unambiguous.
 */
module CacheKeys {
  import opened Decimal

  /** `:limit=${limit}:page=${page}` */
  function PageSuffix(limit: int, page: int): (s: string)
    // the limit is the colon-free text after ':limit=', and the page follows ':page='
    ensures |s| == 13 + |IntToString(limit)| + |IntToString(page)|
    ensures s[..7] == ":limit=" && s[7..7 + |IntToString(limit)|] == IntToString(limit)
    ensures s[7 + |IntToString(limit)|..13 + |IntToString(limit)|] == ":page=" && s[13 + |IntToString(limit)|..] == IntToString(page)
  {
    ":limit=" + IntToString(limit) + ":page=" + IntToString(page)
  }

  /** Nothing when `limit` is 0 (the page is then ignored), the page suffix otherwise. */
  function PageRest(limit: int, page: int): (s: string)
    ensures s == [] <==> limit == 0
    ensures s != [] ==> s[0] == ':' && s == PageSuffix(limit, page)
  {
    if limit == 0 then "" else PageSuffix(limit, page)
  }

  /** The page part is empty or starts with its separator. */
  lemma PageRestStartsWithColon(limit: int, page: int)
    ensures PageRest(limit, page) == [] || PageRest(limit, page)[0] == ':'
  {
  }

  /** Two strings with the same prefix are equal exactly when what follows it is. */
  lemma DropPrefix(prefix: string, a: string, b: string)
    requires prefix + a == prefix + b
    ensures a == b
  {
    assert a == (prefix + a)[|prefix|..];
    assert b == (prefix + b)[|prefix|..];
  }

  /** The index of the first ':' in `s`, or `|s|` when there is none. */
  function ColonIndex(s: string): (i: nat)
    ensures i <= |s|
  {
    if s == [] || s[0] == ':' then 0 else 1 + ColonIndex(s[1..])
  }

  /** A colon-free word followed by nothing or by a colon ends at the first colon. */
  lemma {:induction false} ColonIndexOfWord(a: string, r: string)
    requires ':' !in a
    requires r == [] || r[0] == ':'
    ensures ColonIndex(a + r) == |a|
  {
    if a != [] {
      assert (a + r)[0] == a[0];
      assert (a + r)[1..] == a[1..] + r;
      ColonIndexOfWord(a[1..], r);
    }
  }

  /** Such a word is therefore determined by the string it starts. */
  lemma ColonFreePrefix(a: string, r1: string, c: string, r2: string)
    requires ':' !in a && ':' !in c
    requires r1 == [] || r1[0] == ':'
    requires r2 == [] || r2[0] == ':'
    requires a + r1 == c + r2
    ensures a == c && r1 == r2
  {
    ColonIndexOfWord(a, r1);
    ColonIndexOfWord(c, r2);
    assert a == (a + r1)[..|a|];
    assert c == (c + r2)[..|c|];
    assert r1 == (a + r1)[|a|..];
    assert r2 == (c + r2)[|c|..];
  }

  /** `namespace:id` followed by a page part determines the id and the page part, for ids without ':'. */
  lemma ScopedSplit(ns: string, id1: string, r1: string, id2: string, r2: string)
    requires ':' !in id1 && ':' !in id2
    requires r1 == [] || r1[0] == ':'
    requires r2 == [] || r2[0] == ':'
    requires ns + ":" + id1 + r1 == ns + ":" + id2 + r2
    ensures id1 == id2 && r1 == r2
  {
    assert ns + ":" + id1 + r1 == (ns + ":") + (id1 + r1);
    assert ns + ":" + id2 + r2 == (ns + ":") + (id2 + r2);
    DropPrefix(ns + ":", id1 + r1, id2 + r2);
    ColonFreePrefix(id1, r1, id2, r2);
  }

  /** The page suffix determines the two numbers written in it. */
  lemma SuffixSplit(lim1: string, pg1: string, lim2: string, pg2: string)
    requires ':' !in lim1 && ':' !in lim2
    requires ":limit=" + lim1 + ":page=" + pg1 == ":limit=" + lim2 + ":page=" + pg2
    ensures lim1 == lim2 && pg1 == pg2
  {
    var s1, s2 := ":limit=" + lim1 + ":page=" + pg1, ":limit=" + lim2 + ":page=" + pg2;
    assert s1[7..] == lim1 + (":page=" + pg1);
    assert s2[7..] == lim2 + (":page=" + pg2);
    ColonFreePrefix(lim1, ":page=" + pg1, lim2, ":page=" + pg2);
    assert pg1 == (":page=" + pg1)[6..];
    assert pg2 == (":page=" + pg2)[6..];
  }

  /** Different pages never share a suffix. */
  lemma PageSuffixInjective(l1: int, p1: int, l2: int, p2: int)
    requires PageSuffix(l1, p1) == PageSuffix(l2, p2)
    ensures l1 == l2 && p1 == p2
  {
    SuffixSplit(IntToString(l1), IntToString(p1), IntToString(l2), IntToString(p2));
    IntToStringInjective(l1, l2);
    IntToStringInjective(p1, p2);
  }

  /** Two requests share a page part exactly when they ask for the same page: `page` is ignored when `limit` is 0. */
  lemma PageRestInjective(l1: int, p1: int, l2: int, p2: int)
    ensures PageRest(l1, p1) == PageRest(l2, p2) <==> l1 == l2 && (l1 == 0 || p1 == p2)
  {
    if PageRest(l1, p1) == PageRest(l2, p2) && l1 != 0 {
      assert |PageSuffix(l1, p1)| > 0;
      PageSuffixInjective(l1, p1, l2, p2);
    }
  }

}
