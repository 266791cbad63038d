/** `extract_json_from_text`, the same in both Streamlit apps: the text of the
    first fenced `json` block of a reply, that is the match group of
    `re.search(r'```json\n(.*?)\n```', text, re.DOTALL)`. The leftmost match
    starts at the first opening fence, and the lazy group ends at the first
    closing fence after it. */
module JsonFence {
  import opened Wrappers
  import opened Strings

  /** The opening fence: three backquotes, `json`, a newline. */
  const Opener: string := "```json\n"
  /** The closing fence: a newline and three backquotes. */
  const Closer: string := "\n```"

  /** An opening fence at `p` and a closing fence at `q`, after the opener ends. */
  predicate FencedAt(text: string, p: nat, q: nat)
  {
    OccursAt(text, Opener, p) && p + |Opener| <= q && OccursAt(text, Closer, q)
  }

  /** `match.group(1)` when the pattern matches, `None` when it does not. */
  function ExtractJsonFromText(text: string): (r: Option<string>)
    ensures r.None? <==> forall p: nat, q: nat :: !FencedAt(text, p, q)
    ensures r.Some? ==> exists p: nat, q: nat ::
      FencedAt(text, p, q) && r.value == text[p + |Opener|..q] &&
      (forall k :: 0 <= k < p ==> !OccursAt(text, Opener, k)) &&
      (forall k :: p + |Opener| <= k < q ==> !OccursAt(text, Closer, k))
  {
    match FindFrom(text, Opener, 0)
    case None => None
    case Some(p) =>
      match FindFrom(text, Closer, p + |Opener|)
      case None =>
        assert forall p': nat, q: nat :: !FencedAt(text, p', q) by {
          forall p': nat, q: nat | FencedAt(text, p', q) ensures false {
          }
        }
        None
      case Some(q) =>
        assert FencedAt(text, p, q);
        Some(text[p + |Opener|..q])
  }

  /** A reply laid out as `pre` + fenced block + `post` gives back the block's
      body, when `pre` opens no fence and the body does not run into a
      closing fence before its own. */
  lemma ExtractFencedBody(pre: string, body: string, post: string)
    requires forall k :: 0 <= k < |pre| ==> !OccursAt(pre + Opener, Opener, k)
    requires forall k :: 0 <= k < |body| ==> !OccursAt(body + Closer, Closer, k)
    ensures ExtractJsonFromText(pre + Opener + body + Closer + post) == Some(body)
  {
    var text := pre + Opener + body + Closer + post;
    var p, q := |pre|, |pre| + |Opener| + |body|;
    assert FencedAt(text, p, q) && text[p + |Opener|..q] == body by {
      FenceLayout(pre, body, post);
    }
    assert forall k :: 0 <= k < p ==> !OccursAt(text, Opener, k) by {
      assert text == pre + Opener + (body + Closer + post);
      NoEarlierOpener(pre, body + Closer + post);
    }
    assert forall k :: p + |Opener| <= k < q ==> !OccursAt(text, Closer, k) by {
      assert text == (pre + Opener) + (body + Closer + post);
      NoEarlierCloser(pre + Opener, body, post);
    }
    ExtractAt(text, p, q);
  }

  /** Where the fences and the body of a laid-out reply are. */
  lemma FenceLayout(pre: string, body: string, post: string)
    ensures var text := pre + Opener + body + Closer + post;
      FencedAt(text, |pre|, |pre| + |Opener| + |body|) &&
      text[|pre| + |Opener|..|pre| + |Opener| + |body|] == body
  {
    var text := pre + Opener + body + Closer + post;
    assert pre + (Opener + body + Closer + post) == text;
    OccursInSuffix(pre, Opener + body + Closer + post, Opener, 0);
    assert (pre + Opener + body) + (Closer + post) == text;
    OccursInSuffix(pre + Opener + body, Closer + post, Closer, 0);
    assert text[|pre| + |Opener|..|pre| + |Opener| + |body|] == body;
  }

  /** No opening fence starts inside `pre`, whatever follows it. */
  lemma NoEarlierOpener(pre: string, rest: string)
    requires forall k :: 0 <= k < |pre| ==> !OccursAt(pre + Opener, Opener, k)
    ensures forall k :: 0 <= k < |pre| ==> !OccursAt(pre + Opener + rest, Opener, k)
  {
    forall k | 0 <= k < |pre|
      ensures !OccursAt(pre + Opener + rest, Opener, k)
    {
      OccursInPrefix(pre + Opener, rest, Opener, k);
    }
  }

  /** No closing fence starts inside `body`, whatever precedes and follows it. */
  lemma NoEarlierCloser(head: string, body: string, post: string)
    requires forall k :: 0 <= k < |body| ==> !OccursAt(body + Closer, Closer, k)
    ensures forall k :: |head| <= k < |head| + |body| ==> !OccursAt(head + (body + Closer + post), Closer, k)
  {
    forall k | |head| <= k < |head| + |body|
      ensures !OccursAt(head + (body + Closer + post), Closer, k)
    {
      var j := k - |head|;
      OccursInSuffix(head, body + Closer + post, Closer, j);
      OccursInPrefix(body + Closer, post, Closer, j);
    }
  }

  /** The first opening fence at `p` and the first closing fence after it at
      `q` determine the result: the text between them. */
  lemma ExtractAt(text: string, p: nat, q: nat)
    requires FencedAt(text, p, q)
    requires forall k :: 0 <= k < p ==> !OccursAt(text, Opener, k)
    requires forall k :: p + |Opener| <= k < q ==> !OccursAt(text, Closer, k)
    ensures ExtractJsonFromText(text) == Some(text[p + |Opener|..q])
  {
    var r := ExtractJsonFromText(text);
    assert r.Some?;
    var p': nat, q': nat :| FencedAt(text, p', q') && r.value == text[p' + |Opener|..q'] &&
      (forall k :: 0 <= k < p' ==> !OccursAt(text, Opener, k)) &&
      (forall k :: p' + |Opener| <= k < q' ==> !OccursAt(text, Closer, k));
    assert p' == p;
    assert q' == q;
  }

  /** A reply whose first opening fence is never closed yields `None`. */
  lemma UnclosedFenceYieldsNone(pre: string, rest: string)
    requires forall k :: 0 <= k < |pre| ==> !OccursAt(pre + Opener, Opener, k)
    requires forall k: nat :: !OccursAt(rest, Closer, k)
    ensures ExtractJsonFromText(pre + Opener + rest) == None
  {
    var head := pre + Opener;
    var text := head + rest;
    NoEarlierOpener(pre, rest);
    forall p: nat, q: nat | FencedAt(text, p, q)
      ensures false
    {
      OccursInSuffix(head, rest, Closer, q - |head|);
    }
  }
}
