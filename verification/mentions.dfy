/**
 * The member list of the `split` command: a left-to-right scan of a string for
 * mention tokens `<@digits>` and `<@!digits>` (the global regular expression
 * `<@!?(\d+)>`), collecting the digit groups in order of first occurrence,
 * without duplicates and without the leader.
 */
module Mentions {
  import opened Wrappers
  import opened Seqs

  /** `\d` of a JavaScript regular expression without the `u` flag: ASCII 0-9. */
  predicate IsDigit(c: char) {
    '0' <= c <= '9'
  }

  predicate AllDigits(s: string) {
    forall k :: 0 <= k < |s| ==> IsDigit(s[k])
  }

  /** The text of one mention token, with or without the '!'. */
  function MentionText(bang: bool, id: string): string {
    "<@" + (if bang then "!" else "") + id + ">"
  }

  /** End of the run of digits that starts at `i` (greedy `\d+`). */
  function DigitRun(s: string, i: nat): (j: nat)
    requires i <= |s|
    ensures i <= j <= |s|
    ensures forall k :: i <= k < j ==> IsDigit(s[k])
    ensures j < |s| ==> !IsDigit(s[j])
    decreases |s| - i
  {
    if i < |s| && IsDigit(s[i]) then DigitRun(s, i + 1) else i
  }

  /** A match of the regular expression found at position `i`: its group and where it ends. */
  datatype Token = Token(id: string, end: nat)

  /** The regular expression anchored at `i`: a match, or `None` when none starts there. */
  function MatchAt(s: string, i: nat): (m: Option<Token>)
    requires i <= |s|
    ensures m.Some? ==> i + 3 < m.value.end <= |s| && m.value.id != [] && AllDigits(m.value.id)
  {
    if i + 2 <= |s| && s[i] == '<' && s[i + 1] == '@' then
      var d := if i + 2 < |s| && s[i + 2] == '!' then i + 3 else i + 2;
      var e := DigitRun(s, d);
      if d < e && e < |s| && s[e] == '>' then
        Some(Token(s[d..e], e + 1))
      else None
    else None
  }

  /** A match found at `i` is the text of a mention token. */
  lemma MatchAtSound(s: string, i: nat)
    requires i <= |s| && MatchAt(s, i).Some?
    ensures s[i..MatchAt(s, i).value.end] == MentionText(s[i + 2] == '!', MatchAt(s, i).value.id)
  {
    var d := if s[i + 2] == '!' then i + 3 else i + 2;
    var e := DigitRun(s, d);
    assert s[i..e + 1] == s[i..d] + s[d..e] + [s[e]];
  }

  /** The parts of a token text: its prefix, its digit group and the closing '>'. */
  lemma MentionTextParts(bang: bool, id: string)
    ensures var t, pre := MentionText(bang, id), if bang then "<@!" else "<@";
      && |t| == |pre| + |id| + 1
      && t[..|pre|] == pre
      && t[|pre|..|pre| + |id|] == id
      && t[|pre| + |id|] == '>'
  {
    var pre := if bang then "<@!" else "<@";
    assert MentionText(bang, id) == pre + id + ">";
  }

  /** A window of `s` equal to `w` agrees with `w` on every part. */
  lemma WindowPart<T>(s: seq<T>, i: nat, w: seq<T>, a: nat, b: nat)
    requires i + |w| <= |s| && s[i..i + |w|] == w
    requires a <= b <= |w|
    ensures s[i + a..i + b] == w[a..b]
  {
    forall k | 0 <= k < b - a
      ensures s[i + a..i + b][k] == w[a..b][k]
    {
      assert s[i + a..i + b][k] == s[i + a + k] == s[i..i + |w|][a + k];
    }
  }

  /** Where the parts of a token occurring at `i` lie in `s`. */
  lemma TokenLayout(s: string, i: nat, bang: bool, id: string)
    requires id != [] && AllDigits(id)
    requires i + |MentionText(bang, id)| <= |s|
    requires s[i..i + |MentionText(bang, id)|] == MentionText(bang, id)
    ensures var d := if bang then i + 3 else i + 2;
      && d + |id| < |s| && s[i] == '<' && s[i + 1] == '@'
      && (bang ==> s[i + 2] == '!') && (!bang ==> IsDigit(s[i + 2]))
      && s[d..d + |id|] == id && s[d + |id|] == '>'
      && |MentionText(bang, id)| == d + |id| + 1 - i
  {
    var pre := if bang then "<@!" else "<@";
    var t := MentionText(bang, id);
    MentionTextParts(bang, id);
    var o := |pre|;
    var d, e := i + o, i + o + |id|;
    WindowPart(s, i, t, 0, o);
    WindowPart(s, i, t, o, o + |id|);
    WindowPart(s, i, t, o + |id|, o + |id| + 1);
    assert s[e] == s[e..e + 1][0] == '>';
    assert s[i] == s[i..d][0] == '<' && s[i + 1] == s[i..d][1] == '@';
    assert bang ==> s[i + 2] == s[i..d][2] == '!';
    assert !bang ==> s[i + 2] == s[d..e][0] == id[0];
  }

  /**
   * Every occurrence of a mention token at `i` is the match found there: the
   * regular expression accepts exactly the token texts, and the digit group
   * is the whole run of digits.
   */
  lemma MatchAtComplete(s: string, i: nat, bang: bool, id: string)
    requires id != [] && AllDigits(id)
    requires i + |MentionText(bang, id)| <= |s|
    requires s[i..i + |MentionText(bang, id)|] == MentionText(bang, id)
    ensures MatchAt(s, i) == Some(Token(id, i + |MentionText(bang, id)|))
  {
    TokenLayout(s, i, bang, id);
    var d := if bang then i + 3 else i + 2;
    var e := d + |id|;
    forall k | d <= k < e
      ensures IsDigit(s[k])
    {
      assert s[k] == s[d..e][k - d];
    }
    DigitRunOver(s, d, e);
    assert d == if i + 2 < |s| && s[i + 2] == '!' then i + 3 else i + 2;
  }

  /** A run of digits followed by a non-digit is exactly what `DigitRun` finds. */
  lemma {:induction false} DigitRunOver(s: string, i: nat, j: nat)
    requires i <= j < |s|
    requires forall k :: i <= k < j ==> IsDigit(s[k])
    requires !IsDigit(s[j])
    ensures DigitRun(s, i) == j
    decreases j - i
  {
    if i < j {
      DigitRunOver(s, i + 1, j);
    }
  }

  /**
   * The groups of all matches the global regular expression finds from `i` on:
   * each search starts where the previous match ended.
   */
  function Tokens(s: string, i: nat): (ts: seq<string>)
    requires i <= |s|
    ensures forall k :: 0 <= k < |ts| ==> ts[k] != [] && AllDigits(ts[k])
    decreases |s| - i
  {
    if i == |s| then []
    else
      match MatchAt(s, i)
      case Some(t) => [t.id] + Tokens(s, t.end)
      case None => Tokens(s, i + 1)
  }

  /** A mention token for `id`, with the '!' when `bang`, occurs at position `p` of `s`. */
  predicate OccursAt(s: string, p: nat, bang: bool, id: string) {
    p + |MentionText(bang, id)| <= |s| && s[p..p + |MentionText(bang, id)|] == MentionText(bang, id)
  }

  /** `s` mentions `id`: a token `<@id>` or `<@!id>` with a digit id occurs somewhere in it. */
  ghost predicate Mentioned(s: string, id: string) {
    id != [] && AllDigits(id) && exists p: nat, bang: bool :: OccursAt(s, p, bang, id)
  }

  /** A token starts with '<'. */
  lemma OccursAtStart(s: string, p: nat, bang: bool, id: string)
    requires OccursAt(s, p, bang, id)
    ensures p < |s| && s[p] == '<'
  {
    assert s[p] == s[p..p + |MentionText(bang, id)|][0];
  }

  /** No '<' lies inside a match after its first character, so no token starts there. */
  lemma NoTokenInsideMatch(s: string, i: nat, p: nat)
    requires i <= |s| && MatchAt(s, i).Some?
    requires i < p < MatchAt(s, i).value.end
    ensures s[p] != '<'
  {
    var d := if i + 2 < |s| && s[i + 2] == '!' then i + 3 else i + 2;
    var e := DigitRun(s, d);
    if d <= p < e {
      assert IsDigit(s[p]);
    }
  }

  /** Every group the global expression yields is the id of a token in the text. */
  lemma {:induction false} TokensSound(s: string, i: nat, x: string)
    requires i <= |s| && x in Tokens(s, i)
    ensures exists p: nat, bang: bool :: i <= p && OccursAt(s, p, bang, x)
    decreases |s| - i
  {
    if i < |s| {
      match MatchAt(s, i)
      case Some(t) =>
        if x == t.id {
          MatchAtSound(s, i);
          assert OccursAt(s, i, s[i + 2] == '!', x);
        } else {
          TokensSound(s, t.end, x);
        }
      case None =>
        TokensSound(s, i + 1, x);
    }
  }

  /**
   * Every token in the text from `i` on yields its id: a match never ends
   * past the start of a later token, so resuming at `lastIndex` skips none.
   */
  lemma {:induction false} TokensComplete(s: string, i: nat, p: nat, bang: bool, id: string)
    requires i <= p && id != [] && AllDigits(id) && OccursAt(s, p, bang, id)
    ensures id in Tokens(s, i)
    decreases |s| - i
  {
    OccursAtStart(s, p, bang, id);
    if i == p {
      MatchAtComplete(s, p, bang, id);
    } else {
      match MatchAt(s, i)
      case None =>
        TokensComplete(s, i + 1, p, bang, id);
      case Some(t) =>
        if t.end <= p {
          TokensComplete(s, t.end, p, bang, id);
        } else {
          NoTokenInsideMatch(s, i, p);
          assert false;
        }
    }
  }

  /** The groups of the whole scan are exactly the ids the text mentions. */
  lemma TokensMentioned(s: string, x: string)
    ensures x in Tokens(s, 0) <==> Mentioned(s, x)
  {
    if x in Tokens(s, 0) {
      TokensSound(s, 0, x);
      var k :| 0 <= k < |Tokens(s, 0)| && Tokens(s, 0)[k] == x;
    }
    if Mentioned(s, x) {
      var p: nat, bang: bool :| OccursAt(s, p, bang, x);
      TokensComplete(s, 0, p, bang, x);
    }
  }

  /** Add `id` unless it is the leader's or already listed (`memberIds.push`, guarded). */
  function AddId(ids: seq<string>, id: string, leader: string): (r: seq<string>)
    ensures forall x :: x in r <==> x in ids || (x == id && id != leader)
  {
    if id != leader && id !in ids then ids + [id] else ids
  }

  /** Fold `AddId` over the matches, left to right. */
  function Collect(ids: seq<string>, ts: seq<string>, leader: string): (r: seq<string>)
    ensures forall x :: x in r <==> x in ids || (x in ts && x != leader)
    decreases |ts|
  {
    if ts == [] then ids
    else
      assert forall x :: x in ts <==> x == ts[0] || x in ts[1..];
      Collect(AddId(ids, ts[0], leader), ts[1..], leader)
  }

  /** The member ids the `split` command collects from `memberStr`. */
  function MentionIds(memberStr: string, leader: string): (r: seq<string>)
    ensures NoDup(r) && leader !in r
    ensures forall x :: x in r <==> x in Tokens(memberStr, 0) && x != leader
  {
    CollectContents(Tokens(memberStr, 0), leader);
    Collect([], Tokens(memberStr, 0), leader)
  }

  /** Collecting one more match is one more `AddId`. */
  lemma {:induction false} CollectSnoc(ids: seq<string>, ts: seq<string>, t: string, leader: string)
    ensures Collect(ids, ts + [t], leader) == AddId(Collect(ids, ts, leader), t, leader)
    decreases |ts|
  {
    if ts == [] {
      assert Collect(AddId(ids, t, leader), [], leader) == AddId(ids, t, leader);
      assert ([] + [t])[1..] == [];
    } else {
      assert (ts + [t])[0] == ts[0];
      assert (ts + [t])[1..] == ts[1..] + [t];
      CollectSnoc(AddId(ids, ts[0], leader), ts[1..], t, leader);
    }
  }

  /**
   * What collecting the matches `ts` yields: no duplicates, never the leader,
   * and exactly the matches other than the leader.
   */
  lemma {:induction false} CollectContents(ts: seq<string>, leader: string)
    ensures var r := Collect([], ts, leader);
      NoDup(r) && leader !in r && (forall x :: x in r <==> x in ts && x != leader)
    decreases |ts|
  {
    if ts != [] {
      var p, t := ts[..|ts| - 1], ts[|ts| - 1];
      assert ts == p + [t];
      CollectContents(p, leader);
      CollectSnoc([], p, t, leader);
    }
  }

  /** Ids ordered by their first occurrence in `ts`. */
  ghost predicate InFirstOccurrenceOrder(r: seq<string>, ts: seq<string>) {
    forall j, k :: 0 <= j < k < |r| ==> IndexOf(ts, r[j]) < IndexOf(ts, r[k])
  }

  /** The collected ids are listed in the order of their first occurrence among the matches. */
  lemma {:induction false} CollectOrder(ts: seq<string>, leader: string)
    ensures var r := Collect([], ts, leader);
      forall j, k :: 0 <= j < k < |r| ==> IndexOf(ts, r[j]) < IndexOf(ts, r[k])
    decreases |ts|
  {
    if ts != [] {
      var p, t := ts[..|ts| - 1], ts[|ts| - 1];
      assert ts == p + [t];
      CollectOrder(p, leader);
      CollectOrderStep(p, t, leader);
    }
  }

  /** Collecting one more match keeps the first-occurrence order. */
  lemma CollectOrderStep(p: seq<string>, t: string, leader: string)
    requires InFirstOccurrenceOrder(Collect([], p, leader), p)
    ensures InFirstOccurrenceOrder(Collect([], p + [t], leader), p + [t])
  {
    var ts := p + [t];
    CollectContents(p, leader);
    CollectSnoc([], p, t, leader);
    var r0 := Collect([], p, leader);
    var r := Collect([], ts, leader);
    forall x | x in r0
      ensures IndexOf(ts, x) == IndexOf(p, x)
    {
      IndexOfAppend(p, t, x);
    }
    if t != leader && t !in r0 {
      IndexOfAppendNew(p, t);
      assert r == r0 + [t];
      forall j, k | 0 <= j < k < |r|
        ensures IndexOf(ts, r[j]) < IndexOf(ts, r[k])
      {
        assert r[j] == r0[j];
        if k < |r| - 1 {
          assert r[k] == r0[k];
        }
      }
    } else {
      assert r == r0;
      forall j, k | 0 <= j < k < |r|
        ensures IndexOf(ts, r[j]) < IndexOf(ts, r[k])
      {
        assert r[j] in r0 && r[k] in r0;
      }
    }
  }

  /**
   * The regular expression's `exec` from `lastIndex = from`: the first match
   * that starts at or after `from`, or `None` when there is none.
   */
  method Exec(s: string, from: nat) returns (m: Option<Token>)
    requires from <= |s|
    ensures m.None? ==> Tokens(s, from) == []
    ensures m.Some? ==> from < m.value.end <= |s| && Tokens(s, from) == [m.value.id] + Tokens(s, m.value.end)
    ensures m.None? ==> forall q :: from <= q <= |s| ==> MatchAt(s, q).None?
    ensures m.Some? ==> exists p :: from <= p < |s| && MatchAt(s, p) == m && forall q :: from <= q < p ==> MatchAt(s, q).None?
  {
    var i := from;
    while i < |s|
      invariant from <= i <= |s|
      invariant Tokens(s, from) == Tokens(s, i)
      invariant forall q :: from <= q < i ==> MatchAt(s, q).None?
    {
      var here := MatchAt(s, i);
      if here.Some? {
        return here;
      }
      i := i + 1;
    }
    return None;
  }

  /**
   * The scan loop of the `split` command: repeat `exec` until it finds no more
   * matches, pushing each new non-leader id.
   */
  method ScanMentions(memberStr: string, leader: string) returns (memberIds: seq<string>)
    ensures memberIds == MentionIds(memberStr, leader)
    ensures NoDup(memberIds) && leader !in memberIds
    ensures forall x :: x in memberIds <==> x in Tokens(memberStr, 0) && x != leader
    ensures forall x :: x in memberIds <==> Mentioned(memberStr, x) && x != leader
    ensures forall j, k :: 0 <= j < k < |memberIds| ==>
      IndexOf(Tokens(memberStr, 0), memberIds[j]) < IndexOf(Tokens(memberStr, 0), memberIds[k])
  {
    memberIds := [];
    var pos := 0;
    var m := Exec(memberStr, pos);
    while m.Some?
      invariant pos <= |memberStr|
      invariant m.None? ==> Tokens(memberStr, pos) == []
      invariant m.Some? ==>
        pos < m.value.end <= |memberStr| && Tokens(memberStr, pos) == [m.value.id] + Tokens(memberStr, m.value.end)
      invariant Collect(memberIds, Tokens(memberStr, pos), leader) == MentionIds(memberStr, leader)
      decreases |memberStr| - pos
    {
      var id := m.value.id;
      if id != leader && id !in memberIds {
        memberIds := memberIds + [id];
      }
      pos := m.value.end;
      m := Exec(memberStr, pos);
    }
    CollectContents(Tokens(memberStr, 0), leader);
    CollectOrder(Tokens(memberStr, 0), leader);
    forall x
      ensures x in Tokens(memberStr, 0) <==> Mentioned(memberStr, x)
    {
      TokensMentioned(memberStr, x);
    }
  }

  /**
   * The guild-cache filter: keep the ids that resolve to a cached member, in
   * order. `cache` maps a user id to the member's shown nickname.
   */
  function Resolve(ids: seq<string>, cache: map<string, string>): (members: seq<string>)
    ensures |members| <= |ids|
    ensures forall x :: x in members <==> x in ids && x in cache
    ensures NoDup(ids) ==> NoDup(members)
  {
    if ids == [] then []
    else
      var rest := Resolve(ids[1..], cache);
      assert NoDup(ids) ==> ids[0] !in ids[1..];
      if ids[0] in cache then [ids[0]] + rest else rest
  }
}
