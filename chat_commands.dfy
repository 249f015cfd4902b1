/** The text rules of `handleSendMessage` in ChatInterface.tsx: the send guard, the
    command classification of the lowercased input, and the prompt left after the
    command keyword is removed and the rest trimmed. */
module ChatCommands {
  import opened Results

  // ------------------------------------------------------------ characters

  /** `String.prototype.toLowerCase` on the characters that matter here: ASCII capitals
      map to small letters, everything else is left alone (Arabic has no case). */
  function LowerChar(c: char): char {
    if 'A' <= c <= 'Z' then (c as int + 32) as char else c
  }

  function Lower(s: string): (r: string)
    ensures |r| == |s|
    ensures forall i :: 0 <= i < |s| ==> r[i] == LowerChar(s[i])
  {
    seq(|s|, i requires 0 <= i < |s| => LowerChar(s[i]))
  }

  lemma LowerSlice(s: string, i: nat, j: nat)
    requires i <= j <= |s|
    ensures Lower(s[i..j]) == Lower(s)[i..j]
  {
  }

  /** The white space and line terminators that `String.prototype.trim` removes. */
  predicate IsSpace(c: char) {
    || c == '\t' || c == '\n' || c == '\U{000B}' || c == '\U{000C}' || c == '\r' || c == ' '
    || c == '\U{00A0}' || c == '\U{1680}' || ('\U{2000}' <= c <= '\U{200A}')
    || c == '\U{2028}' || c == '\U{2029}' || c == '\U{202F}' || c == '\U{205F}' || c == '\U{3000}'
    || c == '\U{FEFF}'
  }

  predicate AllSpace(s: string) {
    forall i :: 0 <= i < |s| ==> IsSpace(s[i])
  }

  // ------------------------------------------------------------ trim

  /** The input without its leading white space: a suffix of it, preceded by white space
      only, and starting with a non-space character unless empty. */
  function TrimStart(s: string): (r: string)
    ensures |r| <= |s| && r == s[|s| - |r|..]
    ensures AllSpace(s[..|s| - |r|])
    ensures r != [] ==> !IsSpace(r[0])
    decreases |s|
  {
    if |s| > 0 && IsSpace(s[0]) then
      var r := TrimStart(s[1..]);
      SpaceBefore(s, |s| - 1 - |r|);
      r
    else s
  }

  lemma SpaceBefore(s: string, k: nat)
    requires k < |s| && IsSpace(s[0]) && AllSpace(s[1..][..k])
    ensures AllSpace(s[..k + 1])
  {
    forall i | 0 < i <= k ensures IsSpace(s[i]) {
      assert s[i] == s[1..][..k][i - 1];
    }
  }

  lemma SpaceAfter(s: string, k: nat)
    requires k < |s| && IsSpace(s[|s| - 1]) && AllSpace(s[..|s| - 1][k..])
    ensures AllSpace(s[k..])
  {
    forall i | 0 <= i < |s| - k ensures IsSpace(s[k..][i]) {
      if i < |s| - 1 - k {
        assert s[k..][i] == s[..|s| - 1][k..][i];
      }
    }
  }

  /** The input without its trailing white space. */
  function TrimEnd(s: string): (r: string)
    ensures |r| <= |s| && r == s[..|r|]
    ensures AllSpace(s[|r|..])
    ensures r != [] ==> !IsSpace(r[|r| - 1])
    decreases |s|
  {
    if |s| > 0 && IsSpace(s[|s| - 1]) then
      var r := TrimEnd(s[..|s| - 1]);
      SpaceAfter(s, |r|);
      r
    else s
  }

  /** `String.prototype.trim`. */
  function Trim(s: string): string {
    TrimEnd(TrimStart(s))
  }

  /** `trim()` leaves the empty string exactly when there is nothing but white space. */
  lemma TrimEmptyIffBlank(s: string)
    ensures Trim(s) == "" <==> AllSpace(s)
  {
    var t := TrimStart(s);
    if Trim(s) == "" {
      assert t == [];
      assert s[..|s|] == s;
    }
  }

  /** The trimmed text is a slice of the input surrounded by white space only ... */
  lemma TrimIsSlice(s: string)
    ensures exists a: nat, b: nat ::
      a <= b <= |s| && Trim(s) == s[a..b] && AllSpace(s[..a]) && AllSpace(s[b..])
  {
    var t := TrimStart(s);
    var a := |s| - |t|;
    var r := TrimEnd(t);
    var b := a + |r|;
    assert t == s[a..] && r == t[..|r|];
    assert r == s[a..b];
    assert s[b..] == t[|r|..];
    assert AllSpace(s[..a]) && AllSpace(s[b..]);
  }

  /** ... that neither starts nor ends with white space. */
  lemma TrimHasNoOuterSpace(s: string)
    ensures Trim(s) != "" ==> !IsSpace(Trim(s)[0]) && !IsSpace(Trim(s)[|Trim(s)| - 1])
  {
    var t := TrimStart(s);
    var r := TrimEnd(t);
    if r != [] {
      assert r == t[..|r|];
      assert r[0] == t[0];
    }
  }

  /** Trimming twice is trimming once. */
  lemma TrimIdempotent(s: string)
    ensures Trim(Trim(s)) == Trim(s)
  {
    var r := Trim(s);
    TrimHasNoOuterSpace(s);
    if r != [] {
      assert TrimStart(r) == r;
      assert TrimEnd(r) == r;
    }
  }

  // ------------------------------------------------------------ the send guard

  /** The early return of `handleSendMessage`: nothing happens when the input trims to
      nothing and no file is pending, or while a request is loading. */
  predicate CanSend(input: string, pendingCount: nat, isLoading: bool) {
    !((Trim(input) == "" && pendingCount == 0) || isLoading)
  }

  lemma SendGuard(input: string, pendingCount: nat, isLoading: bool)
    ensures CanSend(input, pendingCount, isLoading) <==>
      !isLoading && (pendingCount > 0 || exists i :: 0 <= i < |input| && !IsSpace(input[i]))
  {
    TrimEmptyIffBlank(input);
  }

  // ------------------------------------------------------------ classification

  function StartsWith(s: string, prefix: string): bool {
    |prefix| <= |s| && s[..|prefix|] == prefix
  }

  /** The command keywords; the Arabic ones read "draw", "picture" and "video". */
  const ImageKeywords: seq<string> := ["generate image", "draw", "ارسم", "صورة"]
  const VideoKeywords: seq<string> := ["generate video", "فيديو"]

  datatype Command = ImageCommand | VideoCommand | ChatCommand

  predicate StartsWithAny(s: string, keywords: seq<string>) {
    exists k :: 0 <= k < |keywords| && StartsWith(s, keywords[k])
  }

  /** `isImgCmd` / `isVidCmd` and the branch they select: an image keyword at the start of
      the lowercased input wins, then a video keyword, else the input goes to chat. */
  function Classify(input: string): (c: Command)
    ensures c == ImageCommand <==> StartsWithAny(Lower(input), ImageKeywords)
    ensures c == VideoCommand <==>
      !StartsWithAny(Lower(input), ImageKeywords) && StartsWithAny(Lower(input), VideoKeywords)
  {
    var lower := Lower(input);
    var isImage := StartsWith(lower, "generate image") || StartsWith(lower, "draw")
      || StartsWith(lower, "ارسم") || StartsWith(lower, "صورة");
    var isVideo := StartsWith(lower, "generate video") || StartsWith(lower, "فيديو");
    assert isImage <==> StartsWithAny(lower, ImageKeywords) by {
      if StartsWithAny(lower, ImageKeywords) {
        var k :| 0 <= k < |ImageKeywords| && StartsWith(lower, ImageKeywords[k]);
        assert k == 0 || k == 1 || k == 2 || k == 3;
      }
      if isImage {
        if StartsWith(lower, ImageKeywords[0]) {
        } else if StartsWith(lower, ImageKeywords[1]) {
        } else if StartsWith(lower, ImageKeywords[2]) {
        } else {
          assert StartsWith(lower, ImageKeywords[3]);
        }
      }
    }
    assert isVideo <==> StartsWithAny(lower, VideoKeywords) by {
      if StartsWithAny(lower, VideoKeywords) {
        var k :| 0 <= k < |VideoKeywords| && StartsWith(lower, VideoKeywords[k]);
        assert k == 0 || k == 1;
      }
      if isVideo {
        if StartsWith(lower, VideoKeywords[0]) {
        } else {
          assert StartsWith(lower, VideoKeywords[1]);
        }
      }
    }
    if isImage then ImageCommand else if isVideo then VideoCommand else ChatCommand
  }

  /** Any image keyword at the start selects the image branch. */
  lemma ImageKeywordClassifies(input: string, k: nat)
    requires k < |ImageKeywords| && StartsWith(Lower(input), ImageKeywords[k])
    ensures Classify(input) == ImageCommand
  {
    assert StartsWithAny(Lower(input), ImageKeywords);
  }

  /** A video keyword at the start selects video unless an image keyword is there too. */
  lemma VideoKeywordClassifies(input: string, k: nat)
    requires k < |VideoKeywords| && StartsWith(Lower(input), VideoKeywords[k])
    requires !StartsWithAny(Lower(input), ImageKeywords)
    ensures Classify(input) == VideoCommand
  {
    assert StartsWithAny(Lower(input), VideoKeywords);
  }

  // ------------------------------------------------------------ prompt extraction

  /** The keyword matches the input at position `i`, ignoring ASCII case (the `i` flag). */
  predicate MatchesAt(s: string, i: nat, keyword: string) {
    i + |keyword| <= |s| && Lower(s[i..i + |keyword|]) == Lower(keyword)
  }

  /** The first alternative of the group that matches at `i`, in the group's order. */
  function FirstAlternative(s: string, i: nat, keywords: seq<string>): (r: Option<nat>)
    ensures r.Some? ==> r.value < |keywords| && MatchesAt(s, i, keywords[r.value])
    ensures r.Some? ==> forall k :: 0 <= k < r.value ==> !MatchesAt(s, i, keywords[k])
    ensures r.None? ==> forall k :: 0 <= k < |keywords| ==> !MatchesAt(s, i, keywords[k])
    decreases |keywords|
  {
    if keywords == [] then None
    else if MatchesAt(s, i, keywords[0]) then Some(0)
    else
      match FirstAlternative(s, i, keywords[1..])
      case None => None
      case Some(k) => Some(k + 1)
  }

  /** The leftmost position from `i` on where some alternative matches. */
  function FindFrom(s: string, i: nat, keywords: seq<string>): (r: Option<nat>)
    requires i <= |s|
    ensures r.Some? ==> i <= r.value <= |s| && FirstAlternative(s, r.value, keywords).Some?
    ensures r.Some? ==> forall j :: i <= j < r.value ==> FirstAlternative(s, j, keywords).None?
    ensures r.None? ==> forall j :: i <= j <= |s| ==> FirstAlternative(s, j, keywords).None?
    decreases |s| - i
  {
    if FirstAlternative(s, i, keywords).Some? then Some(i)
    else if i == |s| then None
    else FindFrom(s, i + 1, keywords)
  }

  /** `input.replace(/(k1|k2|...)/i, '')`: the first match, and only it, is removed. */
  function RemoveFirst(s: string, keywords: seq<string>): string {
    match FindFrom(s, 0, keywords)
    case None => s
    case Some(i) =>
      var k := FirstAlternative(s, i, keywords).value;
      s[..i] + s[i + |keywords[k]|..]
  }

  function ImagePrompt(input: string): string {
    Trim(RemoveFirst(input, ImageKeywords))
  }

  function VideoPrompt(input: string): string {
    Trim(RemoveFirst(input, VideoKeywords))
  }

  /** A group of alternatives as the two command groups are: non-empty, lower case, and
      starting with pairwise different characters. */
  predicate DistinctLowerKeywords(keywords: seq<string>) {
    && (forall x :: 0 <= x < |keywords| ==> |keywords[x]| > 0 && Lower(keywords[x]) == keywords[x])
    && (forall x, y :: 0 <= x < y < |keywords| ==> keywords[x][0] != keywords[y][0])
  }

  lemma CommandKeywordsDistinct()
    ensures DistinctLowerKeywords(ImageKeywords) && DistinctLowerKeywords(VideoKeywords)
  {
    assert Lower(ImageKeywords[0]) == ImageKeywords[0];
    assert Lower(ImageKeywords[1]) == ImageKeywords[1];
    assert Lower(ImageKeywords[2]) == ImageKeywords[2];
    assert Lower(ImageKeywords[3]) == ImageKeywords[3];
    assert Lower(VideoKeywords[0]) == VideoKeywords[0];
    assert Lower(VideoKeywords[1]) == VideoKeywords[1];
  }

  /** A keyword the lowercased input starts with matches at position 0, and no other
      alternative of its group does. */
  lemma OnlyPrefixMatches(input: string, keywords: seq<string>, k: nat, m: nat)
    requires DistinctLowerKeywords(keywords) && k < |keywords| && m < |keywords|
    requires StartsWith(Lower(input), keywords[k])
    ensures MatchesAt(input, 0, keywords[k])
    ensures m != k ==> !MatchesAt(input, 0, keywords[m])
  {
    var kw := keywords[k];
    LowerSlice(input, 0, |kw|);
    if m != k && MatchesAt(input, 0, keywords[m]) {
      assert false;
    }
  }

  /** An input classified by the keyword it starts with loses exactly that keyword: the
      prompt is the rest of the input, trimmed. */
  lemma {:induction false} PromptDropsKeyword(input: string, keywords: seq<string>, k: nat)
    requires DistinctLowerKeywords(keywords) && k < |keywords|
    requires StartsWith(Lower(input), keywords[k])
    ensures RemoveFirst(input, keywords) == input[|keywords[k]|..]
  {
    OnlyPrefixMatches(input, keywords, k, k);
    var r := FirstAlternative(input, 0, keywords);
    assert r.Some?;
    OnlyPrefixMatches(input, keywords, k, r.value);
    assert r.value == k;
  }

  lemma ImagePromptDropsKeyword(input: string, k: nat)
    requires k < |ImageKeywords| && StartsWith(Lower(input), ImageKeywords[k])
    ensures ImagePrompt(input) == Trim(input[|ImageKeywords[k]|..])
  {
    CommandKeywordsDistinct();
    PromptDropsKeyword(input, ImageKeywords, k);
  }

  lemma VideoPromptDropsKeyword(input: string, k: nat)
    requires k < |VideoKeywords| && StartsWith(Lower(input), VideoKeywords[k])
    ensures VideoPrompt(input) == Trim(input[|VideoKeywords[k]|..])
  {
    CommandKeywordsDistinct();
    PromptDropsKeyword(input, VideoKeywords, k);
  }
}
