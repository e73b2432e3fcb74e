/** Locating the JSON text inside the language model's reply
    (SimpleDemo/app/api/llm/route.ts, lines 108-116).

    The handler tries the fenced pattern /```(?:json)?\s*(\{[\s\S]*\})\s*```/
    first, then the bare pattern /(\{[\s\S]*\})/, and otherwise parses the
    whole reply. For the fenced pattern, backtracking has fewer choices than
    it seems: the optional `json` tag is taken whenever it is present (without
    it the next character would be `j`, which neither `\s` nor `{` matches);
    each `\s*` can only stop at the first non-space character, because a
    brace or a backtick must follow; so the only real choice is where
    `[\s\S]*` ends, and greediness picks the LAST closing brace that can
    still be followed by spaces and a closing fence. The regular expression
    engine reports the match with the leftmost start. */
module Extract {
  import opened Common
  import opened Text

  const Fence := "```"
  const JsonTag := "json"

  predicate FenceOpensAt(c: string, p: int) {
    0 <= p && p + 3 <= |c| && c[p..p + 3] == Fence
  }

  /** Where `\s*` begins after the fence opened at `p`. */
  function AfterTag(c: string, p: nat): (k: nat)
    requires p + 3 <= |c|
    ensures k <= |c|
  {
    if p + 7 <= |c| && c[p + 3..p + 7] == JsonTag then p + 7 else p + 3
  }

  /** Where the captured object must start for a fence opened at `p`. */
  function BraceAt(c: string, p: nat): nat
    requires p + 3 <= |c|
  {
    SkipSpaces(c, AfterTag(c, p))
  }

  /** `\s*```` matches at `i`. */
  predicate ClosesFence(c: string, i: nat)
    requires i <= |c|
  {
    var k := SkipSpaces(c, i);
    k + 3 <= |c| && c[k..k + 3] == Fence
  }

  /** A `}` at `e` that the rest of the pattern can follow. */
  predicate ClosingBrace(c: string, e: int) {
    0 <= e < |c| && c[e] == '}' && ClosesFence(c, e + 1)
  }

  /** The fenced pattern matches from the fence at `p` with its capture
      ending at the `}` at `e`. */
  predicate FencedAt(c: string, p: int, e: int) {
    && FenceOpensAt(c, p)
    && BraceAt(c, p) < e
    && ClosingBrace(c, e)
    && c[BraceAt(c, p)] == '{'
  }

  /** The fence at `p` is followed, after its tag and spaces, by a `{`. */
  predicate OpensBlock(c: string, p: int) {
    FenceOpensAt(c, p) && BraceAt(c, p) < |c| && c[BraceAt(c, p)] == '{'
  }

  /** The match the engine reports: leftmost start, then longest capture. */
  ghost predicate FenceMatch(c: string, p: int, e: int) {
    && FencedAt(c, p, e)
    && (forall p', e' | p' < p :: !FencedAt(c, p', e'))
    && (forall e' | e < e' :: !FencedAt(c, p, e'))
  }

  ghost predicate NoFence(c: string) {
    forall p, e :: !FencedAt(c, p, e)
  }

  /** The last closing brace strictly between `b` and `hi`. */
  function LastClose(c: string, b: nat, hi: nat): (r: Option<nat>)
    requires b < hi <= |c|
    ensures r.Some? ==> b < r.value < hi && ClosingBrace(c, r.value)
    ensures r.Some? ==> forall e | r.value < e < hi :: !ClosingBrace(c, e)
    ensures r.None? ==> forall e | b < e < hi :: !ClosingBrace(c, e)
    decreases hi
  {
    if hi == b + 1 then None
    else if ClosingBrace(c, hi - 1) then Some(hi - 1)
    else LastClose(c, b, hi - 1)
  }

  /** The leftmost fence at or after `from` that matches, with its last
      possible closing brace. */
  function FirstFence(c: string, from: nat): (r: Option<(nat, nat)>)
    requires from <= |c|
    ensures r.Some? ==> from <= r.value.0 && FencedAt(c, r.value.0, r.value.1)
    ensures r.Some? ==> forall p, e | from <= p < r.value.0 :: !FencedAt(c, p, e)
    ensures r.Some? ==> forall e | r.value.1 < e :: !FencedAt(c, r.value.0, e)
    ensures r.None? ==> forall p, e | from <= p :: !FencedAt(c, p, e)
    decreases |c| - from
  {
    if from + 3 > |c| then None
    else if OpensBlock(c, from) then
      match LastClose(c, BraceAt(c, from), |c|)
      case Some(e) => Some((from, e))
      case None => FirstFence(c, from + 1)
    else
      FirstFence(c, from + 1)
  }

  /** The scan from the start of the reply finds exactly the engine's match. */
  lemma FirstFenceIsTheMatch(c: string)
    ensures FirstFence(c, 0).None? <==> NoFence(c)
    ensures forall p, e | FenceMatch(c, p, e) :: FirstFence(c, 0) == Some((p, e))
  {
    match FirstFence(c, 0)
    case None =>
    case Some((p0, e0)) =>
      forall p, e | FenceMatch(c, p, e)
        ensures p == p0 && e == e0
      {
      }
  }

  /** `content.match(fenced)[1]`, when there is a match. */
  function FencedCapture(c: string): (r: Option<string>)
    ensures r.None? <==> NoFence(c)
    ensures forall p, e | FenceMatch(c, p, e) :: r == Some(c[BraceAt(c, p)..e + 1])
  {
    FirstFenceIsTheMatch(c);
    match FirstFence(c, 0)
    case None => None
    case Some((p, e)) => Some(c[BraceAt(c, p)..e + 1])
  }

  predicate BracePair(c: string, i: int, j: int) {
    0 <= i < j < |c| && c[i] == '{' && c[j] == '}'
  }

  /** `i` is the first `{` of `c`, `j` its last `}`, and `j` comes later:
      the span the greedy bare pattern captures. */
  predicate GreedySpan(c: string, i: int, j: int) {
    && BracePair(c, i, j)
    && (forall k | 0 <= k < i :: c[k] != '{')
    && (forall k | j < k < |c| :: c[k] != '}')
  }

  /** `c.indexOf(ch)` */
  function FirstOf(c: string, ch: char, from: nat): (r: Option<nat>)
    requires from <= |c|
    ensures r.Some? ==> from <= r.value < |c| && c[r.value] == ch
    ensures r.Some? ==> forall k | from <= k < r.value :: c[k] != ch
    ensures r.None? ==> forall k | from <= k < |c| :: c[k] != ch
    decreases |c| - from
  {
    if from == |c| then None
    else if c[from] == ch then Some(from)
    else FirstOf(c, ch, from + 1)
  }

  /** `c.lastIndexOf(ch)` among the first `hi` characters. */
  function LastOf(c: string, ch: char, hi: nat): (r: Option<nat>)
    requires hi <= |c|
    ensures r.Some? ==> r.value < hi && c[r.value] == ch
    ensures r.Some? ==> forall k | r.value < k < hi :: c[k] != ch
    ensures r.None? ==> forall k | 0 <= k < hi :: c[k] != ch
  {
    if hi == 0 then None
    else if c[hi - 1] == ch then Some(hi - 1)
    else LastOf(c, ch, hi - 1)
  }

  /** `content.match(/(\{[\s\S]*\})/)[1]`, when there is a match: from the
      first `{` to the last `}`, which need not be one balanced object. */
  function BareCapture(c: string): (r: Option<string>)
    ensures r.None? <==> forall i, j :: !BracePair(c, i, j)
    ensures forall i, j | GreedySpan(c, i, j) :: r == Some(c[i..j + 1])
  {
    match (FirstOf(c, '{', 0), LastOf(c, '}', |c|))
    case (Some(i), Some(j)) =>
      if i < j then
        assert GreedySpan(c, i, j);
        Some(c[i..j + 1])
      else
        None
    case _ => None
  }

  /** The text the handler hands to `JSON.parse`. */
  function JsonText(c: string): (r: string)
    ensures forall p, e | FenceMatch(c, p, e) :: r == c[BraceAt(c, p)..e + 1]
    ensures NoFence(c) ==> forall i, j | GreedySpan(c, i, j) :: r == c[i..j + 1]
    ensures NoFence(c) && (forall i, j :: !BracePair(c, i, j)) ==> r == c
  {
    match FencedCapture(c)
    case Some(s) => s
    case None =>
      match BareCapture(c)
      case Some(s) => s
      case None => c
  }

  /** Without a backtick there is no fenced block. */
  lemma NoBacktickNoFence(c: string)
    requires '`' !in c
    ensures NoFence(c)
  {
    forall p, e
      ensures !FencedAt(c, p, e)
    {
      if FenceOpensAt(c, p) {
        FenceHasBacktick(c, p);
      }
    }
  }

  lemma FenceHasBacktick(c: string, p: int)
    requires FenceOpensAt(c, p)
    ensures '`' in c
  {
    assert c[p] == c[p..p + 3][0];
  }

  /** Two objects with other text between them come out as one span from the
      first object's `{` to the second object's `}`: the bare pattern does not
      stop where the first balanced object ends. */
  lemma GreedySpansBothObjects(first: string, between: string, second: string)
    requires |first| >= 2 && first[0] == '{' && first[|first| - 1] == '}'
    requires |second| >= 2 && second[0] == '{' && second[|second| - 1] == '}'
    requires '`' !in first + between + second
    ensures JsonText(first + between + second) == first + between + second
  {
    var c := first + between + second;
    NoBacktickNoFence(c);
    assert GreedySpan(c, 0, |c| - 1);
  }

  /** A reply made of one fenced block (optionally tagged `json`) around an
      object yields exactly that object's text, whatever the object contains,
      provided the text before the block has no backtick or no `{`, and the
      text after it has no closing brace. */
  lemma FencedBlockRoundTrip(pre: string, tag: string, ws1: string, obj: string, ws2: string, post: string)
    requires '`' !in pre || '{' !in pre
    requires tag == "" || tag == JsonTag
    requires AllSpaces(ws1) && AllSpaces(ws2)
    requires |obj| >= 2 && obj[0] == '{' && obj[|obj| - 1] == '}'
    requires '}' !in post
    ensures JsonText(pre + Fence + tag + ws1 + obj + ws2 + Fence + post) == obj
  {
    var opening := pre + Fence + tag + ws1;
    var tail := ws2 + Fence + post;
    var c := opening + obj + tail;
    assert c == pre + Fence + tag + ws1 + obj + ws2 + Fence + post;
    Split(opening, obj, tail);
    BlockExtracted(c, pre, tag, ws1, opening, obj, ws2, post, tail);
  }

  lemma Split(x: string, y: string, z: string)
    ensures (x + y + z)[..|x|] == x
    ensures (x + y + z)[|x|..|x| + |y|] == y
    ensures (x + y + z)[|x| + |y|..] == z
  {
  }

  /** `FencedBlockRoundTrip` on a reply known only through its three parts. */
  lemma BlockExtracted(c: string, pre: string, tag: string, ws1: string, opening: string,
                       obj: string, ws2: string, post: string, tail: string)
    requires '`' !in pre || '{' !in pre
    requires tag == "" || tag == JsonTag
    requires AllSpaces(ws1) && AllSpaces(ws2)
    requires |obj| >= 2 && obj[0] == '{' && obj[|obj| - 1] == '}'
    requires '}' !in post
    requires opening == pre + Fence + tag + ws1 && tail == ws2 + Fence + post
    requires |c| == |opening| + |obj| + |tail|
    requires c[..|opening|] == opening
    requires c[|opening|..|opening| + |obj|] == obj
    requires c[|opening| + |obj|..] == tail
    ensures JsonText(c) == obj
  {
    var p := |pre|;
    var b := |opening|;
    var e := b + |obj| - 1;
    OpeningFacts(c, pre, tag, ws1, opening, obj);
    ClosingFacts(c, b, obj, ws2, post, tail);
    MatchIsExtracted(c, p, e);
  }

  /** What the opening part of a fenced block fixes about the match. */
  lemma OpeningFacts(c: string, pre: string, tag: string, ws1: string, opening: string, obj: string)
    requires '`' !in pre || '{' !in pre
    requires tag == "" || tag == JsonTag
    requires AllSpaces(ws1)
    requires |obj| >= 2 && obj[0] == '{'
    requires opening == pre + Fence + tag + ws1
    requires |opening| + |obj| <= |c|
    requires c[..|opening|] == opening
    requires c[|opening|..|opening| + |obj|] == obj
    ensures c[|opening|] == '{'
    ensures FenceOpensAt(c, |pre|) && BraceAt(c, |pre|) == |opening|
    ensures forall p | 0 <= p < |pre| :: !OpensBlock(c, p)
  {
    assert c[|opening|] == c[|opening|..|opening| + |obj|][0];
    OpeningLayout(c, pre, tag, ws1, opening);
    NoEarlierFence(c, pre, tag, ws1, opening);
  }

  /** What the closing part of a fenced block fixes about the match. */
  lemma ClosingFacts(c: string, b: nat, obj: string, ws2: string, post: string, tail: string)
    requires AllSpaces(ws2)
    requires |obj| >= 2 && obj[|obj| - 1] == '}'
    requires '}' !in post
    requires tail == ws2 + Fence + post
    requires |c| == b + |obj| + |tail|
    requires c[b..b + |obj|] == obj
    requires c[b + |obj|..] == tail
    ensures c[b + |obj| - 1] == '}' && ClosesFence(c, b + |obj|)
    ensures forall e' | b + |obj| - 1 < e' :: !ClosingBrace(c, e')
  {
    assert c[b + |obj| - 1] == c[b..b + |obj|][|obj| - 1];
    NoClosingBraceAfter(ws2, post);
    SpacesThenFence(c, b + |obj|, ws2, post);
    NoLaterClose(c, b + |obj| - 1, tail);
  }

  lemma NoClosingBraceAfter(ws: string, post: string)
    requires AllSpaces(ws) && '}' !in post
    ensures '}' !in ws + Fence + post
  {
    var tail := ws + Fence + post;
    forall k | 0 <= k < |tail|
      ensures tail[k] != '}'
    {
      if k < |ws| {
        assert tail[k] == ws[k];
      } else if k < |ws| + 3 {
        assert tail[k] == Fence[k - |ws|];
      } else {
        assert tail[k] == post[k - |ws| - 3];
      }
    }
  }

  /** The engine's match is what reaches `JSON.parse`. */
  lemma MatchIsExtracted(c: string, p: int, e: int)
    requires FenceOpensAt(c, p) && BraceAt(c, p) < e < |c|
    requires c[BraceAt(c, p)] == '{' && c[e] == '}' && ClosesFence(c, e + 1)
    requires forall p' | 0 <= p' < p :: !OpensBlock(c, p')
    requires forall e' | e < e' :: !ClosingBrace(c, e')
    ensures JsonText(c) == c[BraceAt(c, p)..e + 1]
  {
    assert FencedAt(c, p, e);
    assert forall p', e' | p' < p && FencedAt(c, p', e') :: OpensBlock(c, p');
    assert FenceMatch(c, p, e);
  }

  /** In a reply opening with `pre`, a fence, a tag and spaces, the capture
      of the fence right after `pre` starts where the opening ends. */
  lemma OpeningLayout(c: string, pre: string, tag: string, ws1: string, opening: string)
    requires tag == "" || tag == JsonTag
    requires AllSpaces(ws1)
    requires opening == pre + Fence + tag + ws1
    requires |opening| < |c| && c[..|opening|] == opening && c[|opening|] == '{'
    ensures FenceOpensAt(c, |pre|) && BraceAt(c, |pre|) == |opening|
  {
    var p := |pre|;
    var t := p + 3 + |tag|;
    Split(pre, Fence, tag + ws1);
    Split(pre + Fence, tag, ws1);
    assert c[p..p + 3] == opening[p..p + 3] == Fence;
    assert c[p + 3..t] == opening[p + 3..t] == tag;
    assert c[t..|opening|] == opening[t..] == ws1;
    OpeningReachesBrace(c, tag, ws1, p, t, |opening|);
  }

  /** `\s*```` matches where spaces run up to a fence. */
  lemma SpacesThenFence(c: string, i: nat, ws: string, post: string)
    requires i <= |c| && c[i..] == ws + Fence + post
    requires AllSpaces(ws)
    ensures ClosesFence(c, i)
  {
    var k := SkipSpaces(c, i);
    var f := i + |ws|;
    assert c[f..f + 3] == Fence by {
      assert c[i..][|ws|..|ws| + 3] == Fence;
    }
    assert c[f] == '`' by {
      assert c[f] == c[f..f + 3][0];
    }
    assert k == f;
  }

  /** After the opening fence and its optional tag, `\s*` runs up to the brace. */
  lemma OpeningReachesBrace(c: string, tag: string, ws1: string, p: nat, t: nat, b: nat)
    requires tag == "" || tag == JsonTag
    requires AllSpaces(ws1)
    requires t == p + 3 + |tag| && b == t + |ws1| && b < |c|
    requires c[p + 3..t] == tag && c[t..b] == ws1 && c[b] == '{'
    ensures BraceAt(c, p) == b
  {
    assert AfterTag(c, p) == t by {
      if tag == "" && p + 7 <= |c| {
        assert c[p + 3..p + 7][0] == c[t];
        if ws1 != [] {
          assert c[t] == ws1[0];
        }
      }
    }
  }

  /** No fence inside the prefix opens a block: without backticks none opens
      at all, and without `{` none reaches a brace. */
  lemma NoEarlierFence(c: string, pre: string, tag: string, ws1: string, opening: string)
    requires opening == pre + Fence + tag + ws1
    requires |opening| <= |c| && c[..|opening|] == opening
    requires '`' !in pre || '{' !in pre
    ensures forall p | 0 <= p < |pre| :: !OpensBlock(c, p)
  {
    assert opening == pre + Fence + (tag + ws1);
    Split(pre, Fence, tag + ws1);
    assert c[..|pre|] == c[..|opening|][..|pre|] == pre;
    assert c[|pre|..|pre| + 3] == c[..|opening|][|pre|..|pre| + 3] == Fence;
    forall p | 0 <= p < |pre|
      ensures !OpensBlock(c, p)
    {
      assert c[p] == opening[p] == pre[p];
      if '`' in pre && FenceOpensAt(c, p) {
        NoBlockBeforeFence(c, pre, p);
      }
    }
  }

  /** A fence opened inside a prefix without `{` stops, at the latest, at
      the first backtick of the fence that follows the prefix. */
  lemma NoBlockBeforeFence(c: string, pre: string, p: nat)
    requires |pre| + 3 <= |c| && c[..|pre|] == pre && c[|pre|..|pre| + 3] == Fence
    requires '{' !in pre
    requires p < |pre| && FenceOpensAt(c, p)
    ensures !OpensBlock(c, p)
  {
    forall q | |pre| <= q < |pre| + 3
      ensures c[q] == '`'
    {
      assert c[q] == c[|pre|..|pre| + 3][q - |pre|];
    }
    var a := AfterTag(c, p);
    if a == p + 7 {
      TagHasNoBacktick(c, p);
      assert c[|pre|] == '`' && c[p + 3] != '`';
    }
    var k := SkipSpaces(c, a);
    if a <= |pre| {
      assert !IsSpace(c[|pre|]);
      if k < |pre| {
        assert c[k] == c[..|pre|][k] == pre[k];
        assert pre[k] in pre;
      }
    } else {
      assert c[a] == '`';
    }
  }

  lemma TagHasNoBacktick(c: string, p: nat)
    requires p + 7 <= |c| && c[p + 3..p + 7] == JsonTag
    ensures forall q | p + 3 <= q < p + 7 :: c[q] != '`'
  {
    forall q | p + 3 <= q < p + 7
      ensures c[q] != '`'
    {
      assert c[q] == c[p + 3..p + 7][q - p - 3];
    }
  }

  /** No closing brace lies in a suffix without `}`. */
  lemma NoLaterClose(c: string, e: nat, tail: string)
    requires e < |c| && c[e + 1..] == tail && '}' !in tail
    ensures forall e' | e < e' :: !ClosingBrace(c, e')
  {
    forall e' | e < e' < |c|
      ensures c[e'] != '}'
    {
      assert c[e'] == tail[e' - e - 1];
    }
  }
}
