/**
 * Display names: JavaScript's `String.prototype.trim` and the bot's
 * `extractNameFromNickname`, which cuts a nickname such as
 * "Ashlynn (Healer)" down to "Ashlynn".
 */
module Names {
  import opened Wrappers
  import opened Seqs

  /** The characters `trim` strips: ECMAScript WhiteSpace and LineTerminator. */
  predicate IsWhiteSpace(c: char) {
    c == '\t' || c == '\n' || c == '\U{000B}' || c == '\U{000C}' || c == '\r' || c == ' '
    || c == '\U{00A0}' || c == '\U{1680}' || ('\U{2000}' <= c <= '\U{200A}')
    || c == '\U{2028}' || c == '\U{2029}' || c == '\U{202F}' || c == '\U{205F}'
    || c == '\U{3000}' || c == '\U{FEFF}'
  }

  /** Index of the first character at or after `i` that is not white space (or |s|). */
  function SkipWhiteSpace(s: string, i: nat): (j: nat)
    requires i <= |s|
    ensures i <= j <= |s|
    ensures forall k :: i <= k < j ==> IsWhiteSpace(s[k])
    ensures j < |s| ==> !IsWhiteSpace(s[j])
    decreases |s| - i
  {
    if i < |s| && IsWhiteSpace(s[i]) then SkipWhiteSpace(s, i + 1) else i
  }

  /** Start of the white-space run that ends `s[lo..hi]`. */
  function TrailingWhiteSpace(s: string, lo: nat, hi: nat): (e: nat)
    requires lo <= hi <= |s|
    ensures lo <= e <= hi
    ensures forall k :: e <= k < hi ==> IsWhiteSpace(s[k])
    ensures lo < e ==> !IsWhiteSpace(s[e - 1])
    decreases hi - lo
  {
    if lo < hi && IsWhiteSpace(s[hi - 1]) then TrailingWhiteSpace(s, lo, hi - 1) else hi
  }

  /**
   * `r` is `s` from position `i` on, with white space only before it and after
   * it, and no white space at either of its ends.
   */
  ghost predicate IsTrimOf(r: string, s: string, i: nat) {
    && i + |r| <= |s| && r == s[i..i + |r|]
    && (forall k :: 0 <= k < i ==> IsWhiteSpace(s[k]))
    && (forall k :: i + |r| <= k < |s| ==> IsWhiteSpace(s[k]))
    && (r != [] ==> !IsWhiteSpace(r[0]) && !IsWhiteSpace(r[|r| - 1]))
  }

  /** JavaScript's `trim`. */
  function Trim(s: string): (r: string)
    ensures IsTrimOf(r, s, SkipWhiteSpace(s, 0))
  {
    var i := SkipWhiteSpace(s, 0);
    var j := TrailingWhiteSpace(s, i, |s|);
    s[i..j]
  }

  /** The trimming of a string is unique: no other cut satisfies `IsTrimOf`. */
  lemma TrimUnique(s: string, r: string, i: nat)
    requires IsTrimOf(r, s, i)
    ensures r == Trim(s)
  {
    var t := Trim(s);
    var i' := SkipWhiteSpace(s, 0);
    if r != [] {
      assert !IsWhiteSpace(s[i]);
      assert i == i';
      assert t != [] by { assert !IsWhiteSpace(s[i']); }
      assert !IsWhiteSpace(s[i + |r| - 1]) && !IsWhiteSpace(s[i' + |t| - 1]);
      assert |r| == |t|;
    }
  }

  /** Trimming keeps a leading character that is not white space. */
  lemma TrimKeepsFirst(s: string)
    requires s != [] && !IsWhiteSpace(s[0])
    ensures Trim(s) != [] && Trim(s)[0] == s[0]
  {
    assert SkipWhiteSpace(s, 0) == 0;
  }

  /**
   * `extractNameFromNickname` (the unused fallback parameter dropped): `None`
   * for an empty nickname; the trimmed text before the first '(' when that
   * '(' is not the first character; the whole nickname trimmed otherwise.
   */
  function ExtractName(nickname: string): (r: Option<string>)
    ensures r == None <==> nickname == ""
    ensures forall k :: 0 < k < |nickname| && nickname[k] == '(' && '(' !in nickname[..k] ==>
      r == Some(Trim(nickname[..k])) && '(' !in r.value
    ensures nickname != "" && ('(' !in nickname || nickname[0] == '(') ==> r == Some(Trim(nickname))
  {
    if nickname == "" then None
    else
      var idx := IndexOf(nickname, '(');
      if idx > 0 then
        Some(Trim(nickname[..idx]))
      else Some(Trim(nickname))
  }

  /** JavaScript truthiness of a name: neither `null` nor the empty string. */
  predicate Present(name: Option<string>)
  {
    name.Some? && name.value != ""
  }

  /** A nickname that does not start with white space always yields a usable name. */
  lemma ExtractNamePresent(nickname: string)
    requires nickname != "" && !IsWhiteSpace(nickname[0])
    ensures Present(ExtractName(nickname))
  {
    var idx := IndexOf(nickname, '(');
    if idx > 0 {
      TrimKeepsFirst(nickname[..idx]);
    } else {
      TrimKeepsFirst(nickname);
    }
  }

  /**
   * The name the `balance` command draws: the extracted name, or the user name
   * when the extracted name is `null` or empty.
   */
  function DisplayName(nickname: string, username: string): (r: string)
    ensures Present(ExtractName(nickname)) ==> r == ExtractName(nickname).value
    ensures !Present(ExtractName(nickname)) ==> r == username
    ensures username != "" ==> r != ""
  {
    var name := ExtractName(nickname);
    if Present(name) then name.value else username
  }

  /** Worked example: the parenthesised title is cut off. */
  lemma ExtractNameDecorated()
    ensures ExtractName("Ashlynn (Healer)") == Some("Ashlynn")
  {
    var s := "Ashlynn (Healer)";
    assert s[..8] == "Ashlynn ";
    assert s[8] == '(' && '(' !in s[..8];
    TrimUnique("Ashlynn ", "Ashlynn", 0);
  }

  /** Worked example: a nickname without a title is kept whole. */
  lemma ExtractNamePlain()
    ensures ExtractName("Ashlynn") == Some("Ashlynn")
  {
    assert '(' !in "Ashlynn";
    TrimUnique("Ashlynn", "Ashlynn", 0);
  }

  /** Worked example: only white space before the '(' gives the empty, unusable name. */
  lemma ExtractNameBlankPrefix()
    ensures ExtractName("  (Healer)") == Some("")
  {
    var u := "  (Healer)";
    assert u[..2] == "  ";
    assert u[2] == '(' && '(' !in u[..2];
    TrimUnique("  ", "", 2);
  }
}
