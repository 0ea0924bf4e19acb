/**
 * How both API handlers pick the text they hand to `JSON.parse` out of the
 * model's reply: the first fenced block (```` ```json\n ... \n``` ````,
 * shortest body), else the span from the first `{` to the last `}`, else
 * the whole reply; a chosen block has every "```json\n" and "```" removed.
 */
module Extraction {
  import opened Wrappers
  import opened Text

  const FenceOpen: string := "```json\n"
  const FenceClose: string := "\n```"
  const Backticks: string := "```"

  /** `content || '{}'`: a missing or empty reply reads as an empty object. */
  function ReplyText(content: Option<string>): (r: string)
    ensures content.Some? && content.value != "" ==> r == content.value
    ensures content.None? || content.value == "" ==> r == "{}"
  {
    if content.None? || content.value == "" then "{}" else content.value
  }

  /**
   * /```json\n([\s\S]*?)\n```/ matches at `s` with its closing fence at `k`:
   * the opening fence at `s`, any body, the closing fence at `k`.
   */
  predicate FenceAt(text: string, s: nat, k: nat)
  {
    OccursAt(text, FenceOpen, s) && s + |FenceOpen| <= k && OccursAt(text, FenceClose, k)
  }

  /** The match `String.prototype.match` returns: the leftmost start, then the shortest (lazy) body. */
  function FenceSpan(text: string): (r: Option<(nat, nat)>)
    ensures r.Some? ==> FenceAt(text, r.value.0, r.value.1)
    ensures r.Some? ==> forall s: nat, k: nat :: FenceAt(text, s, k) ==>
      r.value.0 <= s && (r.value.0 == s ==> r.value.1 <= k)
    ensures r.None? ==> forall s, k :: !FenceAt(text, s, k)
  {
    match IndexOf(text, FenceOpen, 0)
    case None => None
    case Some(s) =>
      match IndexOf(text, FenceClose, s + |FenceOpen|)
      case None =>
        assert forall s': nat, k: nat :: FenceAt(text, s', k) ==> s <= s' && k >= s + |FenceOpen|;
        None
      case Some(k) => Some((s, k))
  }

  /** `match[0]` of the fenced pattern: the whole block, fences included. */
  function FencedMatch(text: string): (r: Option<string>)
    ensures r.Some? <==> FenceSpan(text).Some?
    ensures r.Some? ==> r.value == text[FenceSpan(text).value.0..FenceSpan(text).value.1 + |FenceClose|]
  {
    match FenceSpan(text)
    case None => None
    case Some((s, k)) => Some(text[s..k + |FenceClose|])
  }

  /** /\{[\s\S]*\}/ matches from `s` to `e`: a `{` at `s`, a `}` at `e` after it. */
  predicate BraceAt(text: string, s: nat, e: nat)
  {
    s < e < |text| && text[s] == '{' && text[e] == '}'
  }

  /** The leftmost `{` and, the star being greedy, the last `}` after it. */
  function BraceSpan(text: string): (r: Option<(nat, nat)>)
    ensures r.Some? ==> BraceAt(text, r.value.0, r.value.1)
    ensures r.Some? ==> forall s: nat, e: nat :: BraceAt(text, s, e) ==> r.value.0 <= s && e <= r.value.1
    ensures r.None? ==> forall s, e :: !BraceAt(text, s, e)
  {
    match IndexOf(text, "{", 0)
    case None =>
      assert forall s: nat, e: nat :: BraceAt(text, s, e) ==> OccursAt(text, "{", s) by {
        forall s: nat, e: nat | BraceAt(text, s, e) ensures OccursAt(text, "{", s) {
          assert text[s..s + 1] == [text[s]];
        }
      }
      None
    case Some(s) =>
      assert text[s] == '{' by { assert text[s..s + 1] == "{"; }
      assert forall s': nat, e: nat :: BraceAt(text, s', e) ==> s <= s' by {
        forall s': nat, e: nat | BraceAt(text, s', e) ensures s <= s' {
          assert text[s'..s' + 1] == [text[s']];
          assert OccursAt(text, "{", s');
        }
      }
      match LastIndexOf(text, '}')
      case None => None
      case Some(e) => if s < e then Some((s, e)) else None
  }

  /** `match[0]` of the brace pattern. */
  function BraceMatch(text: string): (r: Option<string>)
    ensures r.Some? <==> BraceSpan(text).Some?
    ensures r.Some? ==> r.value == text[BraceSpan(text).value.0..BraceSpan(text).value.1 + 1]
  {
    match BraceSpan(text)
    case None => None
    case Some((s, e)) => Some(text[s..e + 1])
  }

  /** `.replace(/```json\n|```/g, '')`: left to right, the longer alternative first. */
  function StripFences(s: string): (r: string)
    ensures |r| <= |s|
  {
    if StartsWith(s, FenceOpen) then StripFences(s[|FenceOpen|..])
    else if StartsWith(s, Backticks) then StripFences(s[|Backticks|..])
    else if s == [] then []
    else [s[0]] + StripFences(s[1..])
  }

  /** The text handed to `JSON.parse`. */
  function Candidate(text: string): string
  {
    match FencedMatch(text)
    case Some(m) => StripFences(m)
    case None =>
      match BraceMatch(text)
      case Some(m) => StripFences(m)
      case None => text
  }

  /**
   * The order of the choice: a fenced block wins over any brace span, the
   * brace span is used only when there is no fenced block, and the reply is
   * parsed as it stands only when neither pattern matches.
   */
  lemma CandidateChoice(text: string)
    ensures (exists s: nat, k: nat :: FenceAt(text, s, k)) ==>
      Candidate(text) == StripFences(text[FenceSpan(text).value.0..FenceSpan(text).value.1 + |FenceClose|])
    ensures (forall s, k :: !FenceAt(text, s, k)) && (exists s: nat, e: nat :: BraceAt(text, s, e)) ==>
      Candidate(text) == StripFences(text[BraceSpan(text).value.0..BraceSpan(text).value.1 + 1])
    ensures (forall s, k :: !FenceAt(text, s, k)) && (forall s, e :: !BraceAt(text, s, e)) ==>
      Candidate(text) == text
  {
  }

  /** A text not starting with either alternative keeps its first character. */
  lemma StripKeepsHead(s: string)
    requires s != [] && !StartsWith(s, Backticks)
    ensures StripFences(s) == [s[0]] + StripFences(s[1..])
  {
    assert !StartsWith(s, FenceOpen) by {
      if |s| >= |FenceOpen| {
        assert s[..3] == s[..8][..3];
        assert FenceOpen[..3] == Backticks;
      }
    }
  }

  /** A text whose first character is not a backtick keeps it. */
  lemma StripKeepsPlainHead(s: string)
    requires s != [] && s[0] != '`'
    ensures StripFences(s) == [s[0]] + StripFences(s[1..])
  {
    assert !StartsWith(s, Backticks) by {
      if |s| >= 3 {
        assert s[..3][0] == s[0];
      }
    }
    StripKeepsHead(s);
  }

  /** After the replacement no "```" is left, wherever the backticks were. */
  lemma {:induction false} StripRemovesBackticks(s: string)
    ensures forall k: nat :: !OccursAt(StripFences(s), Backticks, k)
    decreases |s|
  {
    if StartsWith(s, FenceOpen) {
      StripRemovesBackticks(s[|FenceOpen|..]);
    } else if StartsWith(s, Backticks) {
      StripRemovesBackticks(s[|Backticks|..]);
    } else if s != [] {
      var rest := StripFences(s[1..]);
      StripRemovesBackticks(s[1..]);
      var r := [s[0]] + rest;
      assert StripFences(s) == r;
      forall k: nat ensures !OccursAt(r, Backticks, k) {
        if k == 0 {
          NoTripleAtHead(s);
        } else if k + 3 <= |r| {
          assert r[k..k + 3] == rest[k - 1..k + 2];
          assert !OccursAt(rest, Backticks, k - 1);
        }
      }
    }
  }

  /** A kept first character never starts a "```" in the output. */
  lemma NoTripleAtHead(s: string)
    requires s != [] && !StartsWith(s, Backticks)
    ensures !OccursAt([s[0]] + StripFences(s[1..]), Backticks, 0)
  {
    var t := s[1..];
    var r := [s[0]] + StripFences(t);
    if |r| < 3 {
    } else if s[0] != '`' {
      assert r[..3][0] == r[0];
    } else if s[1] != '`' {
      StripKeepsPlainHead(t);
      assert r[..3][1] == r[1] == t[0];
    } else {
      assert s[2] != '`' by {
        assert s[..3] == [s[0], s[1], s[2]];
      }
      StripKeepsHead(t);
      var u := t[1..];
      StripKeepsPlainHead(u);
      assert r[..3][2] == r[2] == u[0] == s[2];
    }
  }

  /** Dropping the first character of `j` keeps "```" from starting before the rest of `j` ends. */
  lemma NoBackticksInTail(j: string, t: string)
    requires j != []
    requires forall p: nat :: p < |j| ==> !OccursAt(j + t, Backticks, p)
    ensures forall p: nat :: p < |j[1..]| ==> !OccursAt(j[1..] + t, Backticks, p)
  {
    var s := j + t;
    assert s[1..] == j[1..] + t;
    forall p: nat | p < |j[1..]| ensures !OccursAt(j[1..] + t, Backticks, p) {
      assert !OccursAt(s, Backticks, p + 1);
      if p + 3 <= |j[1..] + t| {
        assert s[p + 1..p + 4] == (j[1..] + t)[p..p + 3];
      }
    }
  }

  /** Putting the first character back in front of the rest. */
  lemma ConsTail(j: string, x: string)
    requires j != []
    ensures [j[0]] + (j[1..] + x) == j + x
  {
    assert j == [j[0]] + j[1..];
  }

  /** The first character of `j` is kept when no "```" starts there. */
  lemma StripKeepsFirst(j: string, t: string)
    requires j != [] && !OccursAt(j + t, Backticks, 0)
    ensures StripFences(j + t) == [j[0]] + StripFences(j[1..] + t)
  {
    var s := j + t;
    assert !StartsWith(s, Backticks);
    StripKeepsHead(s);
    assert s[1..] == j[1..] + t;
  }

  /** Text before which no "```" starts passes through the replacement unchanged. */
  lemma {:induction false} StripKeepsPlain(j: string, t: string)
    requires forall p: nat :: p < |j| ==> !OccursAt(j + t, Backticks, p)
    ensures StripFences(j + t) == j + StripFences(t)
    decreases |j|
  {
    if j != [] {
      assert !OccursAt(j + t, Backticks, 0);
      StripKeepsFirst(j, t);
      NoBackticksInTail(j, t);
      StripKeepsPlain(j[1..], t);
      ConsTail(j, StripFences(t));
    } else {
      assert j + t == t;
    }
  }

  /** In `j + "\n```"`, with no "```" in `j`, the only "```" is the closing one. */
  lemma FencedBackticks(j: string, p: nat)
    requires forall k: nat :: !OccursAt(j, Backticks, k)
    requires p != |j| + 1
    ensures !OccursAt(j + FenceClose, Backticks, p)
  {
    var w := j + FenceClose;
    if p + 3 <= |j| {
      assert j[p..p + 3] == w[p..p + 3];
      assert !OccursAt(j, Backticks, p);
    } else if p <= |j| {
      assert w[|j|] == '\n';
      assert w[p..p + 3][|j| - p] == w[|j|];
    }
  }

  /** Inside one fenced block, no closing fence starts before the real one. */
  lemma NoEarlyClose(j: string, k: nat)
    requires forall q: nat :: !OccursAt(j, Backticks, q)
    requires |FenceOpen| <= k < |FenceOpen| + |j|
    ensures !OccursAt(FenceOpen + j + FenceClose, FenceClose, k)
  {
    var text := FenceOpen + j + FenceClose;
    var n := |FenceOpen|;
    if k + |FenceClose| <= |text| {
      assert text[k + 1..k + 4] == (j + FenceClose)[k + 1 - n..k + 4 - n];
      FencedBackticks(j, k + 1 - n);
      assert text[k..k + 4][1..] == text[k + 1..k + 4];
      assert FenceClose[1..] == Backticks;
    }
  }

  /** The pattern matches the whole of a single fenced block. */
  lemma FenceSpanOfBlock(j: string)
    requires forall q: nat :: !OccursAt(j, Backticks, q)
    ensures FenceSpan(FenceOpen + j + FenceClose) == Some((0, |FenceOpen| + |j|))
  {
    var text := FenceOpen + j + FenceClose;
    var n := |FenceOpen|;
    assert OccursAt(text, FenceOpen, 0) by { assert text[..n] == FenceOpen; }
    assert OccursAt(text, FenceClose, n + |j|) by { assert text[n + |j|..] == FenceClose; }
    assert FenceAt(text, 0, n + |j|);
    var span := FenceSpan(text).value;
    if span.1 < n + |j| {
      NoEarlyClose(j, span.1);
    }
  }

  /** The replacement turns a single fenced block into its body and a line break. */
  lemma StripOfBlock(j: string)
    requires forall q: nat :: !OccursAt(j, Backticks, q)
    ensures StripFences(FenceOpen + j + FenceClose) == j + "\n"
  {
    var text := FenceOpen + j + FenceClose;
    var n := |FenceOpen|;
    assert StartsWith(text, FenceOpen) by { assert text[..n] == FenceOpen; }
    assert text[n..] == j + FenceClose;
    forall p: nat | p < |j| ensures !OccursAt(j + FenceClose, Backticks, p) {
      FencedBackticks(j, p);
    }
    StripKeepsPlain(j, FenceClose);
    assert StripFences(FenceClose) == "\n" by {
      StripKeepsPlainHead(FenceClose);
      assert FenceClose[1..] == Backticks;
      assert StripFences(Backticks) == StripFences([]);
    }
  }

  /**
   * A reply that is exactly one fenced block whose body holds no "```"
   * yields that body and the line break before the closing fence.
   */
  lemma FenceRoundTrip(j: string)
    requires forall q: nat :: !OccursAt(j, Backticks, q)
    ensures Candidate(FenceOpen + j + FenceClose) == j + "\n"
  {
    var text := FenceOpen + j + FenceClose;
    FenceSpanOfBlock(j);
    assert text[0..|FenceOpen| + |j| + |FenceClose|] == text;
    StripOfBlock(j);
  }

  /** An empty or missing reply is parsed as "{}", an object with no entries. */
  lemma EmptyReply()
    ensures ReplyText(None) == "{}" && ReplyText(Some("")) == "{}"
    ensures Candidate("{}") == "{}"
  {
    assert BraceAt("{}", 0, 1);
    assert FenceSpan("{}").None? by {
      forall s: nat, k: nat | FenceAt("{}", s, k) ensures false { }
    }
  }
}
