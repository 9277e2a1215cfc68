/**
 * Extraction of the JSON text from a model reply, as each stage of the
 * self-reflection agent does it: `re.search(r'```json\s*(.*?)\s*```', text, re.DOTALL)`,
 * taking group 1 when the pattern matches and the whole reply otherwise.
 *
 * The pattern matches exactly when a "```json" occurs and some "```" follows it.
 * The search then starts at the first "```json"; the greedy `\s*` swallows the
 * whitespace after it; the lazy group stops at the first "```" after that, and
 * the second `\s*` gives back the whitespace in front of that "```".
 */
module JsonFence {
  import opened Py

  const Open: string := "```json"
  const Close: string := "```"

  predicate OccursAt(s: string, p: string, i: nat) {
    i + |p| <= |s| && s[i..i + |p|] == p
  }

  /** The first position at or after `from` where `p` occurs. */
  function Find(s: string, p: string, from: nat): (r: Option<nat>)
    decreases |s| - from
    ensures r.Some? ==> from <= r.value && OccursAt(s, p, r.value)
    ensures forall j :: from <= j && (r.None? || j < r.value) ==> !OccursAt(s, p, j)
  {
    if from + |p| > |s| then None
    else if OccursAt(s, p, from) then Some(from)
    else Find(s, p, from + 1)
  }

  /** The end of the run of whitespace that starts at `i`. */
  function SkipSpace(s: string, i: nat): (k: nat)
    requires i <= |s|
    decreases |s| - i
    ensures i <= k <= |s|
    ensures forall j :: i <= j < k ==> IsSpace(s[j])
    ensures k == |s| || !IsSpace(s[k])
  {
    if i < |s| && IsSpace(s[i]) then SkipSpace(s, i + 1) else i
  }

  /** The start of the run of whitespace that ends at `q`, not going below `lo`. */
  function TrimEnd(s: string, lo: nat, q: nat): (e: nat)
    requires lo <= q <= |s|
    decreases q - lo
    ensures lo <= e <= q
    ensures forall j :: e <= j < q ==> IsSpace(s[j])
    ensures e == lo || !IsSpace(s[e - 1])
  {
    if q > lo && IsSpace(s[q - 1]) then TrimEnd(s, lo, q - 1) else q
  }

  /**
   * Where the pattern matches: the "```json" at `open`, group 1 in
   * `[body, bodyEnd)`, and the closing "```" at `close`.
   */
  datatype FenceMatch = NoFence | Fence(open: nat, body: nat, bodyEnd: nat, close: nat)

  function Match(s: string): FenceMatch {
    match Find(s, Open, 0)
    case None => NoFence
    case Some(i) =>
      var b := SkipSpace(s, i + |Open|);
      match Find(s, Close, b)
      case None => NoFence
      case Some(q) => Fence(i, b, TrimEnd(s, b, q), q)
  }

  /** A pattern cannot occur where its first character does not. */
  lemma HeadMismatch(s: string, p: string, j: nat)
    requires |p| > 0
    requires j < |s| ==> s[j] != p[0]
    ensures !OccursAt(s, p, j)
  {
    if j + |p| <= |s| {
      assert s[j..j + |p|][0] == s[j];
    }
  }

  /** No "```" can start inside a run of whitespace. */
  lemma NoCloseInSpace(s: string, lo: nat, hi: nat)
    requires hi <= |s|
    requires forall j :: lo <= j < hi ==> IsSpace(s[j])
    ensures forall j :: lo <= j < hi ==> !OccursAt(s, Close, j)
  {
    forall j | lo <= j < hi ensures !OccursAt(s, Close, j) {
      HeadMismatch(s, Close, j);
    }
  }

  /** The pattern matches exactly when some "```" follows the first "```json". */
  lemma MatchFound(s: string)
    ensures Match(s).NoFence? <==>
              Find(s, Open, 0).None? ||
              (forall j: nat :: Find(s, Open, 0).value + |Open| <= j ==> !OccursAt(s, Close, j))
  {
    var f := Find(s, Open, 0);
    if f.Some? {
      var i := f.value;
      var b := SkipSpace(s, i + |Open|);
      NoCloseInSpace(s, i + |Open|, b);
    }
  }

  /**
   * Where it matches: at the first "```json", up to the first "```" after it,
   * with the whitespace on both sides of the group left out of the group.
   */
  lemma MatchShape(s: string)
    requires Match(s).Fence?
    ensures var m := Match(s);
              && OccursAt(s, Open, m.open)
              && (forall j: nat :: j < m.open ==> !OccursAt(s, Open, j))
              && m.open + |Open| <= m.body <= m.bodyEnd <= m.close
              && OccursAt(s, Close, m.close)
              && (forall j: nat :: m.open + |Open| <= j < m.close ==> !OccursAt(s, Close, j))
              && (forall j :: m.open + |Open| <= j < m.body ==> IsSpace(s[j]))
              && (forall j :: m.bodyEnd <= j < m.close ==> IsSpace(s[j]))
              && (m.body == m.bodyEnd || (!IsSpace(s[m.body]) && !IsSpace(s[m.bodyEnd - 1])))
  {
    var i := Find(s, Open, 0).value;
    var b := SkipSpace(s, i + |Open|);
    NoCloseInSpace(s, i + |Open|, b);
  }

  /** The text the stage hands to `json.loads`. */
  function JsonText(s: string): string {
    match Match(s)
    case NoFence => s
    case Fence(_, b, e, _) => s[b..e]
  }

  /** The extracted group never contains "```". */
  lemma BodyHasNoClose(s: string)
    requires Match(s).Fence?
    ensures forall j: nat :: !OccursAt(JsonText(s), Close, j)
  {
    MatchShape(s);
    var m := Match(s);
    forall j: nat ensures !OccursAt(s[m.body..m.bodyEnd], Close, j) {
      SliceOccurs(s, m.body, m.bodyEnd, Close, j);
    }
  }

  /** An occurrence in a slice is an occurrence in the whole string, shifted by the slice's start. */
  lemma SliceOccurs(s: string, lo: nat, hi: nat, p: string, j: nat)
    requires lo <= hi <= |s|
    ensures OccursAt(s[lo..hi], p, j) ==> OccursAt(s, p, lo + j) && lo + j + |p| <= hi
  {
    if j + |p| <= hi - lo {
      var t := s[lo..hi];
      forall k | j <= k < j + |p| ensures t[k] == s[lo + k] {
      }
      assert t[j..j + |p|] == s[lo + j..lo + j + |p|];
    }
  }

  // ---------------------------------------------------------------------------
  // A fenced reply gives back exactly its body

  lemma FindExact(s: string, p: string, from: nat, k: nat)
    requires from <= k && OccursAt(s, p, k)
    requires forall j :: from <= j < k ==> !OccursAt(s, p, j)
    ensures Find(s, p, from) == Some(k)
  {
  }

  lemma SkipSpaceExact(s: string, i: nat, k: nat)
    requires i <= k <= |s|
    requires forall j :: i <= j < k ==> IsSpace(s[j])
    requires k == |s| || !IsSpace(s[k])
    ensures SkipSpace(s, i) == k
  {
  }

  lemma TrimEndExact(s: string, lo: nat, q: nat, e: nat)
    requires lo <= e <= q <= |s|
    requires forall j :: e <= j < q ==> IsSpace(s[j])
    requires e == lo || !IsSpace(s[e - 1])
    ensures TrimEnd(s, lo, q) == e
  {
  }

  /**
   * Completeness: a "```json" with no backquote before it, whitespace, a body
   * without backquotes and without whitespace at its ends, whitespace and a "```"
   * make the pattern match and give back exactly that body.
   */
  lemma MatchAt(s: string, i: nat, bs: nat, be: nat, q: nat)
    requires i + |Open| <= bs <= be <= q
    requires OccursAt(s, Open, i) && OccursAt(s, Close, q)
    requires forall j :: 0 <= j < i ==> s[j] != '`'
    requires forall j :: i + |Open| <= j < bs ==> IsSpace(s[j])
    requires forall j :: bs <= j < be ==> s[j] != '`'
    requires forall j :: be <= j < q ==> IsSpace(s[j])
    requires bs == be || (!IsSpace(s[bs]) && !IsSpace(s[be - 1]))
    ensures JsonText(s) == s[bs..be]
  {
    forall j: nat | j < i ensures !OccursAt(s, Open, j) {
      HeadMismatch(s, Open, j);
    }
    FindExact(s, Open, 0, i);
    // the whitespace after the fence runs up to the body, or to the close if the body is empty
    var b := if bs == be then q else bs;
    assert s[q] == s[q..q + |Close|][0];
    SkipSpaceExact(s, i + |Open|, b);
    // the next "```" is the closing one
    forall j: nat | b <= j < q ensures !OccursAt(s, Close, j) {
      HeadMismatch(s, Close, j);
    }
    FindExact(s, Close, b, q);
    if bs == be {
      TrimEndExact(s, q, q, q);
    } else {
      TrimEndExact(s, bs, q, be);
    }
  }

  /** The reply the prompts ask for: text, a "```json" fence, the body, and a closing "```". */
  function Fenced(pre: string, w1: string, body: string, w2: string, post: string): string {
    pre + Open + w1 + body + w2 + Close + post
  }

  /**
   * When neither the text before the fence nor the body holds a backquote, and
   * the body has no whitespace at its ends, extraction recovers the body exactly.
   */
  lemma FencedRoundTrip(pre: string, w1: string, body: string, w2: string, post: string)
    requires '`' !in pre && '`' !in body
    requires AllSpace(w1) && AllSpace(w2)
    requires body == [] || (!IsSpace(body[0]) && !IsSpace(body[|body| - 1]))
    ensures JsonText(Fenced(pre, w1, body, w2, post)) == body
  {
    var s := Fenced(pre, w1, body, w2, post);
    var i := |pre|;
    var bs := i + |Open| + |w1|;
    var be := bs + |body|;
    var q := be + |w2|;
    assert s == pre + Open + (w1 + body + w2) + Close + post;
    assert s[i..i + |Open|] == Open;
    assert s[q..q + |Close|] == Close;
    assert forall j :: 0 <= j < i ==> s[j] == pre[j];
    assert forall j :: i + |Open| <= j < bs ==> s[j] == w1[j - i - |Open|];
    assert forall j :: bs <= j < be ==> s[j] == body[j - bs];
    assert forall j :: be <= j < q ==> s[j] == w2[j - be];
    assert s[bs..be] == body;
    MatchAt(s, i, bs, be, q);
  }

  /** Without a "```json" in it, the whole reply is decoded. */
  lemma NoFenceWholeText(s: string)
    requires forall j :: !OccursAt(s, Open, j)
    ensures JsonText(s) == s
  {
  }

  /** A first "```json" with no "```" after it also leaves the whole reply. */
  lemma UnclosedFenceWholeText(s: string, i: nat)
    requires OccursAt(s, Open, i)
    requires forall j: nat :: j < i ==> !OccursAt(s, Open, j)
    requires forall j: nat :: i + |Open| <= j ==> !OccursAt(s, Close, j)
    ensures JsonText(s) == s
  {
    FindExact(s, Open, 0, i);
    MatchFound(s);
  }
}
