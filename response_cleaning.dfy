/** How `_analyze_message` cleans the classifier's reply before handing it to
    the JSON parser: strip whitespace, drop an optional Markdown code fence and
    its `json` language tag, strip again. */
module ResponseCleaning {

  /** The characters for which Python's `str.isspace()` holds; `str.strip()`
      removes exactly these from both ends. */
  predicate IsSpace(c: char) {
    var n := c as int;
    (9 <= n <= 13) || (28 <= n <= 32) || n == 0x85 || n == 0xA0 || n == 0x1680
    || (0x2000 <= n <= 0x200A) || n == 0x2028 || n == 0x2029 || n == 0x202F
    || n == 0x205F || n == 0x3000
  }

  predicate AllSpace(s: string) {
    forall k :: 0 <= k < |s| ==> IsSpace(s[k])
  }

  /** Neither end of `s` is whitespace. */
  predicate Trimmed(s: string) {
    s == [] || (!IsSpace(s[0]) && !IsSpace(s[|s| - 1]))
  }

  predicate StartsWith(s: string, prefix: string) {
    |prefix| <= |s| && s[..|prefix|] == prefix
  }

  /** The first position at or after `i` that does not hold whitespace, or
      `|s|`. */
  function SkipSpace(s: string, i: nat): (k: nat)
    requires i <= |s|
    ensures i <= k <= |s|
    ensures forall m :: i <= m < k ==> IsSpace(s[m])
    ensures k == |s| || !IsSpace(s[k])
    decreases |s| - i
  {
    if i == |s| || !IsSpace(s[i]) then i else SkipSpace(s, i + 1)
  }

  /** Scanning back from `j`, the end of the last character before it that is
      not whitespace, or `lo` when `s[lo..j]` is all whitespace. */
  function SkipSpaceBack(s: string, lo: nat, j: nat): (k: nat)
    requires lo <= j <= |s|
    ensures lo <= k <= j
    ensures forall m :: k <= m < j ==> IsSpace(s[m])
    ensures k == lo || !IsSpace(s[k - 1])
    decreases j
  {
    if j == lo || !IsSpace(s[j - 1]) then j else SkipSpaceBack(s, lo, j - 1)
  }

  /** Python's `s.strip()`: the slice of `s` left once whitespace is removed
      from both ends. */
  function Strip(s: string): (r: string)
    ensures Trimmed(r)
    ensures var i := SkipSpace(s, 0);
      var j := SkipSpaceBack(s, i, |s|);
      r == s[i..j] && AllSpace(s[..i]) && AllSpace(s[j..])
  {
    var i := SkipSpace(s, 0);
    var j := SkipSpaceBack(s, i, |s|);
    s[i..j]
  }

  /** The scan stops at the first non-whitespace position. */
  lemma {:induction false} SkipSpaceTo(s: string, i: nat, k: nat)
    requires i <= k <= |s|
    requires forall m :: i <= m < k ==> IsSpace(s[m])
    requires k == |s| || !IsSpace(s[k])
    ensures SkipSpace(s, i) == k
    decreases k - i
  {
    if i < k {
      SkipSpaceTo(s, i + 1, k);
    }
  }

  /** The backward scan stops right after the last non-whitespace position. */
  lemma {:induction false} SkipSpaceBackTo(s: string, lo: nat, j: nat, k: nat)
    requires lo <= k <= j <= |s|
    requires forall m :: k <= m < j ==> IsSpace(s[m])
    requires k == lo || !IsSpace(s[k - 1])
    ensures SkipSpaceBack(s, lo, j) == k
    decreases j
  {
    if k < j {
      SkipSpaceBackTo(s, lo, j - 1, k);
    }
  }

  const Fence: string := "```"

  /** A code fence begins at position `k` of `s`. */
  predicate FenceAt(s: string, k: int) {
    0 <= k && k + 3 <= |s| && s[k..k + 3] == Fence
  }

  predicate NoFence(s: string) {
    forall k :: 0 <= k < |s| ==> !FenceAt(s, k)
  }

  /** The first position at or after `from` where a fence begins, or `|s|`
      when there is none (the search `str.split` makes for its next separator). */
  function NextFence(s: string, from: nat): (k: nat)
    requires from <= |s|
    ensures from <= k <= |s|
    ensures k == |s| || FenceAt(s, k)
    ensures forall j :: from <= j < k ==> !FenceAt(s, j)
    decreases |s| - from
  {
    if from == |s| || FenceAt(s, from) then from else NextFence(s, from + 1)
  }

  /** `t.split("```")[1]` for a text `t` that starts with a fence: what follows
      the opening fence, up to the next fence or to the end of `t`. */
  function FencedBody(t: string): (body: string)
    requires StartsWith(t, Fence)
    ensures 3 + |body| <= |t| && t[3..3 + |body|] == body
    ensures 3 + |body| == |t| || FenceAt(t, 3 + |body|)
    ensures forall j :: 3 <= j < 3 + |body| ==> !FenceAt(t, j)
    ensures NoFence(body)
  {
    var k := NextFence(t, 3);
    var body := t[3..k];
    forall j | 0 <= j < |body| ensures !FenceAt(body, j) {
      if FenceAt(body, j) {
        assert body[j..j + 3] == t[3 + j..3 + j + 3];
        assert FenceAt(t, 3 + j);
      }
    }
    body
  }

  /** `s[4:] if s.startswith('json') else s`: the text without a leading
      `json` tag, otherwise unchanged. */
  function DropJsonTag(s: string): (r: string)
    ensures StartsWith(s, "json") ==> s == "json" + r
    ensures !StartsWith(s, "json") ==> r == s
  {
    if StartsWith(s, "json") then s[4..] else s
  }

  /** The text the JSON parser receives for the classifier's reply `reply`. */
  function CleanResponse(reply: string): (r: string)
    ensures Trimmed(r)
    ensures !StartsWith(Strip(reply), Fence) ==> r == Strip(reply)
    ensures StartsWith(Strip(reply), Fence) ==> NoFence(r)
  {
    var t := Strip(reply);
    if StartsWith(t, Fence) then
      var body := FencedBody(t);
      var untagged := DropJsonTag(body);
      NoFenceSlice(body, |body| - |untagged|, |body|);
      assert body[|body| - |untagged|..|body|] == untagged;
      var i := SkipSpace(untagged, 0);
      NoFenceSlice(untagged, i, SkipSpaceBack(untagged, i, |untagged|));
      Strip(untagged)
    else
      t
  }

  /** Every slice of a fence-free text is fence-free. */
  lemma NoFenceSlice(s: string, a: nat, b: nat)
    requires NoFence(s) && a <= b <= |s|
    ensures NoFence(s[a..b])
  {
    forall k | 0 <= k < b - a ensures !FenceAt(s[a..b], k) {
      assert !FenceAt(s, a + k);
      if k + 3 <= b - a {
        var inner, outer := s[a..b][k..k + 3], s[a + k..a + k + 3];
        assert inner[0] == outer[0] && inner[1] == outer[1] && inner[2] == outer[2];
        assert inner == outer;
      }
    }
  }

  /** A text with no whitespace at its ends is its own strip. */
  lemma StripTrimmed(s: string)
    requires Trimmed(s)
    ensures Strip(s) == s
  {
    assert AllSpace([]);
    StripPadded([], s, []);
    assert [] + s + [] == s;
  }

  /** Stripping removes whitespace padding and nothing else: `strip` of a
      trimmed text padded with whitespace on both sides is that text. */
  lemma StripPadded(lead: string, s: string, trail: string)
    requires AllSpace(lead) && AllSpace(trail) && Trimmed(s)
    ensures Strip(lead + s + trail) == s
  {
    var x := lead + s + trail;
    var i := |lead|;
    var j := |lead| + |s|;
    assert forall m :: 0 <= m < i ==> x[m] == lead[m];
    assert forall m :: j <= m < |x| ==> x[m] == trail[m - j];
    if s == [] {
      SkipSpaceTo(x, 0, |x|);
      SkipSpaceBackTo(x, |x|, |x|, |x|);
    } else {
      assert x[i] == s[0] && x[j - 1] == s[|s| - 1];
      SkipSpaceTo(x, 0, i);
      SkipSpaceBackTo(x, i, |x|, j);
      assert x[i..j] == s;
    }
  }

  /** Cleaning is idempotent: a cleaned reply is cleaned to itself. */
  lemma CleanIdempotent(reply: string)
    ensures CleanResponse(CleanResponse(reply)) == CleanResponse(reply)
  {
    var r := CleanResponse(reply);
    assert !StartsWith(r, Fence) by {
      if StartsWith(Strip(reply), Fence) {
        assert |r| > 0 ==> !FenceAt(r, 0);
      }
    }
    CleanFixedPoint(r);
  }

  /** A trimmed text that does not open with a fence is cleaned to itself. */
  lemma CleanFixedPoint(r: string)
    requires Trimmed(r) && !StartsWith(r, Fence)
    ensures CleanResponse(r) == r
  {
    StripTrimmed(r);
  }

  /** A reply that is a trimmed payload, not opening with a fence, reaches the
      parser as that payload, whatever whitespace surrounds it. */
  lemma UnfencedRoundTrip(lead: string, payload: string, trail: string)
    requires AllSpace(lead) && AllSpace(trail)
    requires Trimmed(payload) && !StartsWith(payload, Fence)
    ensures CleanResponse(lead + payload + trail) == payload
  {
    StripPadded(lead, payload, trail);
  }

  /** A payload in a Markdown code block, with an optional language tag. */
  function Wrapped(tag: string, payload: string): string {
    Fence + tag + "\n" + payload + "\n" + Fence
  }

  /** A fenced reply — an opening fence, an optional `json` tag, a line break,
      a trimmed fence-free payload, a line break and a closing fence, with any
      whitespace around it — reaches the parser as exactly the payload. */
  lemma FencedRoundTrip(lead: string, tag: string, payload: string, trail: string)
    requires AllSpace(lead) && AllSpace(trail)
    requires tag == "" || tag == "json"
    requires Trimmed(payload) && NoFence(payload)
    ensures CleanResponse(lead + Wrapped(tag, payload) + trail) == payload
  {
    WrappedTrimmed(tag, payload);
    WrappedBody(tag, payload);
    CleanPaddedFenced(lead, Wrapped(tag, payload), trail);
    DropTagOfBody(tag, payload);
    StripPadded("\n", payload, "\n");
  }

  lemma WrappedTrimmed(tag: string, payload: string)
    ensures Trimmed(Wrapped(tag, payload))
  {
    var fenced := Wrapped(tag, payload);
    assert fenced[0] == '`' && fenced[|fenced| - 1] == '`';
  }

  /** Removing the tag leaves the payload between its two line breaks. */
  lemma DropTagOfBody(tag: string, payload: string)
    requires tag == "" || tag == "json"
    ensures DropJsonTag(tag + "\n" + payload + "\n") == "\n" + payload + "\n"
  {
    var inner := tag + "\n" + payload + "\n";
    if tag == "json" {
      assert inner[..4] == "json";
      assert inner[4..] == "\n" + payload + "\n";
    } else {
      assert inner[0] == '\n';
    }
  }

  /** A fenced reply padded with whitespace is cleaned as the fenced text. */
  lemma CleanPaddedFenced(lead: string, fenced: string, trail: string)
    requires AllSpace(lead) && AllSpace(trail)
    requires Trimmed(fenced) && StartsWith(fenced, Fence)
    ensures CleanResponse(lead + fenced + trail) == Strip(DropJsonTag(FencedBody(fenced)))
  {
    StripPadded(lead, fenced, trail);
  }

  /** The fenced body of a wrapped payload is the tag, the payload and the
      line breaks around it. */
  lemma WrappedBody(tag: string, payload: string)
    requires tag == "" || tag == "json"
    requires NoFence(payload)
    ensures StartsWith(Wrapped(tag, payload), Fence)
    ensures FencedBody(Wrapped(tag, payload)) == tag + "\n" + payload + "\n"
  {
    var fenced := Wrapped(tag, payload);
    var inner := tag + "\n" + payload + "\n";
    assert fenced == Fence + inner + Fence;
    var end := 3 + |inner|;
    assert fenced[..3] == Fence;
    assert fenced[3..end] == inner;
    assert FenceAt(fenced, end) by {
      assert fenced[end..end + 3] == Fence;
    }
    forall j | 3 <= j < end ensures !FenceAt(fenced, j) {
      NoFenceInside(fenced, tag, payload, j);
    }
    NextFenceIsFirst(fenced, 3, end);
  }

  /** No fence opens inside the tag, the payload or the line breaks around it. */
  lemma NoFenceInside(fenced: string, tag: string, payload: string, j: nat)
    requires tag == "" || tag == "json"
    requires NoFence(payload)
    requires fenced == Wrapped(tag, payload)
    requires 3 <= j < 3 + |tag| + 1 + |payload| + 1
    ensures !FenceAt(fenced, j)
  {
    var p := 3 + |tag| + 1;
    if j < p {
      assert fenced[j] != '`' by {
        if j < 3 + |tag| { assert fenced[j] == tag[j - 3]; }
        else { assert fenced[j] == '\n'; }
      }
    } else if j + 3 <= p + |payload| {
      if FenceAt(fenced, j) {
        assert fenced[j..j + 3] == payload[j - p..j - p + 3];
        assert FenceAt(payload, j - p);
      }
    } else {
      assert fenced[p + |payload|] == '\n';
    }
  }

  /** The search finds a fence at `k` when no fence opens before it. */
  lemma {:induction false} NextFenceIsFirst(s: string, from: nat, k: nat)
    requires from <= k < |s| && FenceAt(s, k)
    requires forall j :: from <= j < k ==> !FenceAt(s, j)
    ensures NextFence(s, from) == k
    decreases k - from
  {
    if from < k {
      NextFenceIsFirst(s, from + 1, k);
    }
  }
}
