/**
 * Query-string composition shared by the listing endpoints: the repeated
 * `chainIds[]=` chain filter, and a reader that recovers the values of one
 * parameter from a composed query string, used to state what a URL carries.
 */
module Query {
  import opened Core
  import Text

  /** One `key=value` parameter. */
  function Pair(key: string, value: string): string {
    key + "=" + value
  }

  /** `"chainIds[]=" + "&chainIds[]=".join(str(c) for c in cs)`, as the listing URLs are written. */
  function ChainFilter(cs: seq<ChainId>): string {
    var key := "chainIds[]" + "=";
    key + Text.Join(Wires(cs), "&" + key)
  }

  /** The chain filter as separate parameters, one per chain. */
  function ChainPairs(cs: seq<ChainId>): (r: seq<string>)
    ensures |r| == |cs|
    ensures forall i :: 0 <= i < |cs| ==> r[i] == Pair("chainIds[]", Wire(cs[i]))
  {
    if cs == [] then [] else [Pair("chainIds[]", Wire(cs[0]))] + ChainPairs(cs[1..])
  }

  /** The values of parameter `key` among query segments, in order of appearance. */
  function ValuesOf(segs: seq<string>, key: string): seq<string> {
    if segs == [] then []
    else
      var p := key + "=";
      (if |p| <= |segs[0]| && segs[0][..|p|] == p then [segs[0][|p|..]] else [])
      + ValuesOf(segs[1..], key)
  }

  /** The values of parameter `key` in a query string. */
  function ParamValues(query: string, key: string): seq<string> {
    ValuesOf(Text.Split(query, '&'), key)
  }

  /** A segment that does not carry parameter `key`. */
  predicate NotKey(seg: string, key: string) {
    var p := key + "=";
    !(|p| <= |seg| && seg[..|p|] == p)
  }

  lemma {:induction false} ValuesOfAppend(a: seq<string>, b: seq<string>, key: string)
    ensures ValuesOf(a + b, key) == ValuesOf(a, key) + ValuesOf(b, key)
    decreases |a|
  {
    if a == [] {
      assert a + b == b;
    } else {
      assert (a + b)[0] == a[0];
      assert (a + b)[1..] == a[1..] + b;
      ValuesOfAppend(a[1..], b, key);
    }
  }

  lemma {:induction false} ValuesOfOthers(segs: seq<string>, key: string)
    requires forall i :: 0 <= i < |segs| ==> NotKey(segs[i], key)
    ensures ValuesOf(segs, key) == []
    decreases |segs|
  {
    if segs != [] {
      ValuesOfOthers(segs[1..], key);
    }
  }

  lemma {:induction false} ValuesOfChainPairs(cs: seq<ChainId>)
    ensures ValuesOf(ChainPairs(cs), "chainIds[]") == Wires(cs)
    decreases |cs|
  {
    if cs != [] {
      ValuesOfChainPairs(cs[1..]);
      assert ChainPairs(cs)[1..] == ChainPairs(cs[1..]);
      assert Wires(cs) == [Wire(cs[0])] + Wires(cs[1..]);
    }
  }

  /** A fixed parameter whose key does not start like `chainIds[]` and whose text has no `&`. */
  lemma PlainPair(key: string, value: string)
    requires key != [] && key[0] != 'c' && '&' !in key && '&' !in value
    ensures '&' !in Pair(key, value) && NotKey(Pair(key, value), "chainIds[]")
  {
    var p := "chainIds[]=";
    assert Pair(key, value)[0] == key[0] != p[0];
  }

  /** A segment that differs from `key` at some position before the `=` does not carry `key`. */
  lemma NotKeyAt(seg: string, key: string, i: nat)
    requires i < |seg| && i < |key| && seg[i] != key[i]
    ensures NotKey(seg, key)
  {
    var p := key + "=";
    assert p[i] == key[i];
  }

  /** A parameter whose key differs from `key` at some position is not a `key` parameter. */
  lemma PairNotKey(k: string, value: string, key: string, i: nat)
    requires i < |k| && i < |key| && k[i] != key[i]
    ensures NotKey(Pair(k, value), key)
  {
    NotKeyAt(Pair(k, value), key, i);
  }

  /** A parameter that occurs once among the segments has exactly its one value. */
  lemma ValuesOfOne(segs: seq<string>, i: nat, key: string, value: string)
    requires i < |segs| && segs[i] == Pair(key, value)
    requires forall j :: 0 <= j < |segs| && j != i ==> NotKey(segs[j], key)
    ensures ValuesOf(segs, key) == [value]
  {
    var before, after := segs[..i], segs[i + 1..];
    assert segs == before + [segs[i]] + after;
    ValuesOfAppend(before + [segs[i]], after, key);
    ValuesOfAppend(before, [segs[i]], key);
    forall j | 0 <= j < |before| ensures NotKey(before[j], key) {
      assert before[j] == segs[j];
    }
    forall j | 0 <= j < |after| ensures NotKey(after[j], key) {
      assert after[j] == segs[i + 1 + j];
    }
    ValuesOfOthers(before, key);
    ValuesOfOthers(after, key);
    var p := key + "=";
    assert segs[i][..|p|] == p;
    assert segs[i][|p|..] == value;
  }

  lemma PairHasNoAmp(key: string, value: string)
    requires '&' !in key && '&' !in value
    ensures '&' !in Pair(key, value)
  {
  }

  lemma WireHasNoAmp(c: ChainId)
    ensures '&' !in Wire(c)
  {
  }

  /** The repeated-key chain filter is the join of one parameter per chain. */
  lemma {:induction false} ChainFilterIsPairs(cs: seq<ChainId>)
    requires cs != []
    ensures ChainFilter(cs) == Text.Join(ChainPairs(cs), "&")
    decreases |cs|
  {
    if |cs| > 1 {
      ChainFilterIsPairs(cs[1..]);
      var key := "chainIds[]" + "=";
      var w0, rest := Wire(cs[0]), Text.Join(Wires(cs[1..]), "&" + key);
      assert Wires(cs)[1..] == Wires(cs[1..]);
      assert ChainPairs(cs)[1..] == ChainPairs(cs[1..]);
      assert Text.Join(Wires(cs), "&" + key) == w0 + ("&" + key) + rest;
      Text.JoinCons(Pair("chainIds[]", w0), ChainPairs(cs[1..]), "&");
      assert [ChainPairs(cs)[0]] + ChainPairs(cs)[1..] == ChainPairs(cs);
      assert Text.Join(ChainPairs(cs), "&") == Pair("chainIds[]", w0) + "&" + ChainFilter(cs[1..]);
      FilterStep(key, w0, rest);
    }
  }

  lemma FilterStep(key: string, w0: string, rest: string)
    ensures key + (w0 + ("&" + key) + rest) == (key + w0) + "&" + (key + rest)
  {
  }

  /** Fixed parameters followed by the chain filter form one `&`-joined list of parameters. */
  lemma HeadAndFilter(head: seq<string>, cs: seq<ChainId>)
    requires head != [] && cs != []
    ensures Text.Join(head, "&") + "&" + ChainFilter(cs) == Text.Join(head + ChainPairs(cs), "&")
  {
    ChainFilterIsPairs(cs);
    Text.JoinAppend(head, ChainPairs(cs), "&");
  }

  /**
   * A query laid out as fixed parameters, then one `chainIds[]` parameter per
   * chain, then more fixed parameters splits back into exactly those
   * segments, and its `chainIds[]` values are the chains' wire strings in order.
   */
  lemma QueryLayout(before: seq<string>, cs: seq<ChainId>, after: seq<string>)
    requires forall i :: 0 <= i < |before| ==> '&' !in before[i] && NotKey(before[i], "chainIds[]")
    requires forall i :: 0 <= i < |after| ==> '&' !in after[i] && NotKey(after[i], "chainIds[]")
    requires before + ChainPairs(cs) + after != []
    ensures Text.Split(Text.Join(before + ChainPairs(cs) + after, "&"), '&') == before + ChainPairs(cs) + after
    ensures ParamValues(Text.Join(before + ChainPairs(cs) + after, "&"), "chainIds[]") == Wires(cs)
  {
    var segs := before + ChainPairs(cs) + after;
    LayoutHasNoAmp(before, cs, after);
    Text.SplitJoin(segs, '&');
    LayoutValues(before, cs, after);
  }

  /** No segment of such a layout holds `&`. */
  lemma LayoutHasNoAmp(before: seq<string>, cs: seq<ChainId>, after: seq<string>)
    requires forall i :: 0 <= i < |before| ==> '&' !in before[i]
    requires forall i :: 0 <= i < |after| ==> '&' !in after[i]
    ensures forall i :: 0 <= i < |before + ChainPairs(cs) + after| ==> '&' !in (before + ChainPairs(cs) + after)[i]
  {
    var segs := before + ChainPairs(cs) + after;
    var n := |before| + |cs|;
    forall i | 0 <= i < |segs| ensures '&' !in segs[i] {
      if i < |before| {
        assert segs[i] == before[i];
      } else if i < n {
        assert segs[i] == ChainPairs(cs)[i - |before|];
        WireHasNoAmp(cs[i - |before|]);
      } else {
        assert segs[i] == after[i - n];
      }
    }
  }

  /** The `chainIds[]` values of such a layout are the chains' wire strings. */
  lemma LayoutValues(before: seq<string>, cs: seq<ChainId>, after: seq<string>)
    requires forall i :: 0 <= i < |before| ==> NotKey(before[i], "chainIds[]")
    requires forall i :: 0 <= i < |after| ==> NotKey(after[i], "chainIds[]")
    ensures ValuesOf(before + ChainPairs(cs) + after, "chainIds[]") == Wires(cs)
  {
    var key, mid := "chainIds[]", ChainPairs(cs);
    ValuesOfAppend(before + mid, after, key);
    ValuesOfAppend(before, mid, key);
    ValuesOfOthers(before, key);
    ValuesOfOthers(after, key);
    ValuesOfChainPairs(cs);
    calc {
      ValuesOf(before + mid + after, key);
      ValuesOf(before, key) + ValuesOf(mid, key) + ValuesOf(after, key);
      [] + Wires(cs) + [];
      Wires(cs);
    }
  }

  /** QueryLayout for a query that ends with its chain filter. */
  lemma HeadLayout(head: seq<string>, cs: seq<ChainId>)
    requires forall i :: 0 <= i < |head| ==> '&' !in head[i] && NotKey(head[i], "chainIds[]")
    requires head + ChainPairs(cs) != []
    ensures Text.Split(Text.Join(head + ChainPairs(cs), "&"), '&') == head + ChainPairs(cs)
    ensures ParamValues(Text.Join(head + ChainPairs(cs), "&"), "chainIds[]") == Wires(cs)
  {
    assert head + ChainPairs(cs) + [] == head + ChainPairs(cs);
    QueryLayout(head, cs, []);
  }

  /** The fixed parameters the dApp and collection URLs end with: rankAlgo=default&platform=extension&locale=en&appVersion=1.0.0. */
  const ListingTailPairs: seq<string> := [Pair("rankAlgo", "default"), Pair("platform", "extension"), Pair("locale", "en"), Pair("appVersion", "1.0.0")]

  /** The fixed parameters the learn URL ends with: platform=extension&locale=en&appVersion=1.0.0. */
  const LearnTailPairs: seq<string> := [Pair("platform", "extension"), Pair("locale", "en"), Pair("appVersion", "1.0.0")]

  lemma ListingTailIsPlain()
    ensures forall i :: 0 <= i < |ListingTailPairs| ==> '&' !in ListingTailPairs[i] && NotKey(ListingTailPairs[i], "chainIds[]")
  {
    PlainPair("rankAlgo", "default");
    PlainPair("platform", "extension");
    PlainPair("locale", "en");
    PlainPair("appVersion", "1.0.0");
  }

  lemma LearnTailIsPlain()
    ensures forall i :: 0 <= i < |LearnTailPairs| ==> '&' !in LearnTailPairs[i] && NotKey(LearnTailPairs[i], "chainIds[]")
  {
    PlainPair("platform", "extension");
    PlainPair("locale", "en");
    PlainPair("appVersion", "1.0.0");
  }

  /** A chain filter between fixed parameters is one `&`-joined list of parameters. */
  lemma HeadFilterTail(head: seq<string>, cs: seq<ChainId>, tail: seq<string>)
    requires head != [] && cs != [] && tail != []
    ensures Text.Join(head, "&") + "&" + ChainFilter(cs) + "&" + Text.Join(tail, "&")
         == Text.Join(head + ChainPairs(cs) + tail, "&")
  {
    HeadAndFilter(head, cs);
    Text.JoinAppend(head + ChainPairs(cs), tail, "&");
  }

  /** A chain filter followed by fixed parameters is one `&`-joined list of parameters. */
  lemma FilterTail(cs: seq<ChainId>, tail: seq<string>)
    requires cs != [] && tail != []
    ensures ChainFilter(cs) + "&" + Text.Join(tail, "&") == Text.Join(ChainPairs(cs) + tail, "&")
  {
    ChainFilterIsPairs(cs);
    Text.JoinAppend(ChainPairs(cs), tail, "&");
  }

  /** Three fixed parameters, the chain filter, then more fixed parameters form one joined list. */
  lemma ThreeFilterTail(p0: string, p1: string, p2: string, cs: seq<ChainId>, tail: seq<string>)
    requires cs != [] && tail != []
    ensures p0 + "&" + p1 + "&" + p2 + "&" + ChainFilter(cs) + "&" + Text.Join(tail, "&")
         == Text.Join([p0, p1, p2] + ChainPairs(cs) + tail, "&")
  {
    var head := [p0, p1, p2];
    Text.JoinCons(p1, [p2], "&");
    Text.JoinCons(p0, [p1, p2], "&");
    assert head == [p0] + [p1, p2];
    assert Text.Join(head, "&") == p0 + "&" + (p1 + "&" + p2);
    assert p0 + "&" + (p1 + "&" + p2) == p0 + "&" + p1 + "&" + p2;
    HeadFilterTail(head, cs, tail);
  }

  /** Four fixed parameters followed by the chain filter form one joined list. */
  lemma FourFilter(p0: string, p1: string, p2: string, p3: string, cs: seq<ChainId>)
    requires cs != []
    ensures p0 + "&" + p1 + "&" + p2 + "&" + p3 + "&" + ChainFilter(cs)
         == Text.Join([p0, p1, p2, p3] + ChainPairs(cs), "&")
  {
    var head := [p0, p1, p2, p3];
    Text.JoinCons(p2, [p3], "&");
    Text.JoinCons(p1, [p2, p3], "&");
    Text.JoinCons(p0, [p1, p2, p3], "&");
    assert head == [p0] + [p1, p2, p3];
    assert [p1, p2, p3] == [p1] + [p2, p3];
    assert [p2, p3] == [p2] + [p3];
    assert Text.Join(head, "&") == p0 + "&" + (p1 + "&" + (p2 + "&" + p3));
    assert p0 + "&" + (p1 + "&" + (p2 + "&" + p3)) == p0 + "&" + p1 + "&" + p2 + "&" + p3;
    HeadAndFilter(head, cs);
  }
}
