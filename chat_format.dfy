/** `FormattedText` of ChatInterface.tsx: the message text is split into lines at '\n',
    each line is split around the lazy bold spans `**...**` (the captured separators
    of `line.split(/(\*\*.*?\*\*)/g)` stay in the result), and each part is rendered
    as bold, inline code or plain text. */
module ChatFormat {
  import opened Results

  // ------------------------------------------------------------ splitting on a character

  /** The first position of `c` in `s`. */
  function IndexOf(s: string, c: char): (r: Option<nat>)
    ensures r.Some? ==> r.value < |s| && s[r.value] == c && c !in s[..r.value]
    ensures r.None? ==> c !in s
  {
    if |s| == 0 then None
    else if s[0] == c then Some(0)
    else match IndexOf(s[1..], c)
      case None => None
      case Some(i) => Some(i + 1)
  }

  /** `s.split(sep)` for a one-character separator: at least one part, none of which
      contains the separator. */
  function Split(s: string, sep: char): (parts: seq<string>)
    ensures |parts| >= 1
    ensures forall i :: 0 <= i < |parts| ==> sep !in parts[i]
    decreases |s|
  {
    match IndexOf(s, sep)
    case None => [s]
    case Some(i) => [s[..i]] + Split(s[i + 1..], sep)
  }

  /** `parts.join(sep)`. */
  function Join(parts: seq<string>, sep: char): string
    requires |parts| >= 1
  {
    if |parts| == 1 then parts[0] else parts[0] + [sep] + Join(parts[1..], sep)
  }

  function Count(s: string, c: char): nat {
    if |s| == 0 then 0 else (if s[0] == c then 1 else 0) + Count(s[1..], c)
  }

  /** Joining the parts with the separator gives the text back. */
  lemma {:induction false} JoinSplit(s: string, sep: char)
    ensures Join(Split(s, sep), sep) == s
    decreases |s|
  {
    match IndexOf(s, sep)
    case None =>
    case Some(i) =>
      var rest := Split(s[i + 1..], sep);
      var parts := [s[..i]] + rest;
      assert Split(s, sep) == parts;
      assert parts[1..] == rest && |parts| >= 2;
      assert Join(parts, sep) == s[..i] + [sep] + Join(rest, sep);
      JoinSplit(s[i + 1..], sep);
      assert s == s[..i] + [sep] + s[i + 1..];
  }

  lemma {:induction false} CountAppend(a: string, b: string, c: char)
    ensures Count(a + b, c) == Count(a, c) + Count(b, c)
  {
    if |a| == 0 {
      assert a + b == b;
    } else {
      assert (a + b)[0] == a[0];
      assert (a + b)[1..] == a[1..] + b;
      CountAppend(a[1..], b, c);
    }
  }

  lemma CountAbsent(s: string, c: char)
    requires c !in s
    ensures Count(s, c) == 0
  {
  }

  /** Splitting text made of separator-free parts gives those parts back. */
  lemma {:induction false} SplitJoin(parts: seq<string>, sep: char)
    requires |parts| >= 1 && forall i :: 0 <= i < |parts| ==> sep !in parts[i]
    ensures Split(Join(parts, sep), sep) == parts
    decreases |parts|
  {
    var s := Join(parts, sep);
    if |parts| == 1 {
      assert IndexOf(s, sep).None?;
    } else {
      var n := |parts[0]|;
      assert s == parts[0] + [sep] + Join(parts[1..], sep);
      assert s[n] == sep && sep !in s[..n];
      assert IndexOf(s, sep) == Some(n);
      assert s[..n] == parts[0];
      assert s[n + 1..] == Join(parts[1..], sep);
      SplitJoin(parts[1..], sep);
    }
  }

  /** One part more than there are separators. */
  lemma {:induction false} SplitCount(s: string, sep: char)
    ensures |Split(s, sep)| == Count(s, sep) + 1
    decreases |s|
  {
    match IndexOf(s, sep)
    case None =>
      CountAbsent(s, sep);
    case Some(i) =>
      SplitCount(s[i + 1..], sep);
      assert s == s[..i] + ([sep] + s[i + 1..]);
      CountAppend(s[..i], [sep] + s[i + 1..], sep);
      CountAbsent(s[..i], sep);
      assert ([sep] + s[i + 1..])[1..] == s[i + 1..];
  }

  // ------------------------------------------------------------ the bold pattern

  /** The characters `.` does not match. */
  predicate IsTerminator(c: char) {
    c == '\n' || c == '\r' || c == '\U{2028}' || c == '\U{2029}'
  }

  predicate StarsAt(s: string, j: nat) {
    j + 2 <= |s| && s[j] == '*' && s[j + 1] == '*'
  }

  /** Where the lazy `.*?` stops: the first `**` at or after `j`, provided no line
      terminator comes before it. */
  function CloseFrom(s: string, j: nat): (r: Option<nat>)
    ensures r.Some? ==> j <= r.value && StarsAt(s, r.value)
    ensures r.Some? ==> forall x :: j <= x < r.value ==> !StarsAt(s, x) && !IsTerminator(s[x])
    decreases |s| - j
  {
    if j + 2 > |s| then None
    else if StarsAt(s, j) then Some(j)
    else if IsTerminator(s[j]) then None
    else CloseFrom(s, j + 1)
  }

  /** The end of the match of `\*\*.*?\*\*` starting at `q`, if it matches there. */
  function MatchAt(s: string, q: nat): (r: Option<nat>)
    ensures r.Some? ==> q + 4 <= r.value <= |s|
  {
    if !StarsAt(s, q) then None
    else match CloseFrom(s, q + 2)
      case None => None
      case Some(k) => Some(k + 2)
  }

  /** A whole bold span: the pattern matches the entire string from its start. */
  predicate IsBoldSpan(m: string) {
    MatchAt(m, 0) == Some(|m|)
  }

  /** No position of the string starts a match. */
  predicate NoBoldSpan(t: string) {
    forall j :: 0 <= j < |t| ==> MatchAt(t, j).None?
  }

  /** The scan of the lazy body sees the same characters in a slice as in the whole
      string, so a close found in the slice is a close in the whole string. */
  lemma {:induction false} CloseFromSlice(s: string, a: nat, b: nat, j: nat)
    requires a <= b <= |s| && j <= b - a
    requires CloseFrom(s[a..b], j).Some?
    ensures CloseFrom(s, a + j) == Some(a + CloseFrom(s[a..b], j).value)
    decreases b - a - j
  {
    var t := s[a..b];
    if StarsAt(t, j) {
      assert StarsAt(s, a + j);
    } else {
      assert !StarsAt(s, a + j);
      assert s[a + j] == t[j];
      CloseFromSlice(s, a, b, j + 1);
    }
  }

  /** And a close in the whole string that lies inside the slice is found in the slice. */
  lemma {:induction false} CloseFromInSlice(s: string, a: nat, b: nat, j: nat)
    requires a <= a + j <= b <= |s|
    requires CloseFrom(s, a + j).Some? && CloseFrom(s, a + j).value + 2 <= b
    ensures CloseFrom(s[a..b], j) == Some(CloseFrom(s, a + j).value - a)
    decreases b - a - j
  {
    var t := s[a..b];
    if StarsAt(s, a + j) {
      assert StarsAt(t, j);
    } else {
      assert !StarsAt(t, j);
      assert s[a + j] == t[j];
      CloseFromInSlice(s, a, b, j + 1);
    }
  }

  lemma MatchInSlice(s: string, a: nat, b: nat, j: nat)
    requires a <= b <= |s| && j < b - a
    requires MatchAt(s[a..b], j).Some?
    ensures MatchAt(s, a + j) == Some(a + MatchAt(s[a..b], j).value)
  {
    var t := s[a..b];
    assert StarsAt(s, a + j);
    CloseFromSlice(s, a, b, j + 2);
  }

  /** The slice of a match is a bold span on its own. */
  lemma MatchIsSpan(s: string, q: nat)
    requires q <= |s| && MatchAt(s, q).Some?
    ensures IsBoldSpan(s[q..MatchAt(s, q).value])
  {
    var e := MatchAt(s, q).value;
    var m := s[q..e];
    assert StarsAt(m, 0);
    CloseFromInSlice(s, q, e, 2);
  }

  /** No match starts in `s[p..q]` when none starts at any of its positions in `s`. */
  lemma NoSpanInSlice(s: string, p: nat, q: nat)
    requires p <= q <= |s|
    requires forall j :: p <= j < q ==> MatchAt(s, j).None?
    ensures NoBoldSpan(s[p..q])
  {
    forall j | 0 <= j < q - p
      ensures MatchAt(s[p..q], j).None?
    {
      if MatchAt(s[p..q], j).Some? {
        MatchInSlice(s, p, q, j);
      }
    }
  }

  function Concat(parts: seq<string>): string {
    if parts == [] then [] else parts[0] + Concat(parts[1..])
  }

  /** Text without a bold span and bold spans, alternating, starting and ending with
      text. */
  predicate Alternates(parts: seq<string>) {
    && |parts| % 2 == 1
    && (forall i :: 0 <= i < |parts| && i % 2 == 0 ==> NoBoldSpan(parts[i]))
    && (forall i :: 0 <= i < |parts| && i % 2 == 1 ==> IsBoldSpan(parts[i]))
  }

  lemma PrependSpan(text: string, span: string, rest: seq<string>)
    requires NoBoldSpan(text) && IsBoldSpan(span) && Alternates(rest)
    ensures Alternates([text, span] + rest)
    ensures Concat([text, span] + rest) == text + (span + Concat(rest))
  {
    var parts := [text, span] + rest;
    assert forall i :: 2 <= i < |parts| ==> parts[i] == rest[i - 2];
    assert parts[1..] == [span] + rest && parts[2..] == rest;
  }

  /** `s.slice(p).split(/(\*\*.*?\*\*)/g)` from scan position `q`, every position in
      `[p, q)` having failed to match: the text between matches alternates with the
      matches themselves, which the capturing group keeps. */
  function SplitBoldFrom(s: string, p: nat, q: nat): (parts: seq<string>)
    requires p <= q <= |s|
    requires forall j :: p <= j < q ==> MatchAt(s, j).None?
    ensures Alternates(parts)
    ensures Concat(parts) == s[p..]
    decreases |s| - q
  {
    if q == |s| then
      LastPart(s, p);
      [s[p..]]
    else match MatchAt(s, q)
      case None => SplitBoldFrom(s, p, q + 1)
      case Some(e) =>
        var rest := SplitBoldFrom(s, e, e);
        SpanPart(s, p, q, e, rest);
        [s[p..q], s[q..e]] + rest
  }

  /** The scan reached the end: what is left is one text part. */
  lemma LastPart(s: string, p: nat)
    requires p <= |s|
    requires forall j :: p <= j < |s| ==> MatchAt(s, j).None?
    ensures Alternates([s[p..]]) && Concat([s[p..]]) == s[p..]
  {
    NoSpanInSlice(s, p, |s|);
    assert s[p..|s|] == s[p..];
    assert [s[p..]][1..] == [];
  }

  /** A match at `q`: the text before it and the span itself come before the rest. */
  lemma SpanPart(s: string, p: nat, q: nat, e: nat, rest: seq<string>)
    requires p <= q < |s| && MatchAt(s, q) == Some(e)
    requires forall j :: p <= j < q ==> MatchAt(s, j).None?
    requires Alternates(rest) && Concat(rest) == s[e..]
    ensures Alternates([s[p..q], s[q..e]] + rest)
    ensures Concat([s[p..q], s[q..e]] + rest) == s[p..]
  {
    NoSpanInSlice(s, p, q);
    MatchIsSpan(s, q);
    PrependSpan(s[p..q], s[q..e], rest);
    assert s[p..] == s[p..q] + (s[q..e] + s[e..]);
  }

  function SplitBold(line: string): seq<string> {
    SplitBoldFrom(line, 0, 0)
  }

  // ------------------------------------------------------------ rendering

  datatype Segment = Plain(text: string) | Bold(text: string) | Code(text: string)

  /** `part.slice(from, part.length - fromEnd)` for `from`, `fromEnd` >= 0: empty when the
      bounds cross, as for "**" and "`". */
  function SliceInside(part: string, from: nat, fromEnd: nat): (r: string)
    ensures from + fromEnd <= |part| ==> r == part[from..|part| - fromEnd]
    ensures from + fromEnd >= |part| ==> r == ""
  {
    if from + fromEnd >= |part| then "" else part[from..|part| - fromEnd]
  }

  function StartsWith(s: string, prefix: string): bool {
    |prefix| <= |s| && s[..|prefix|] == prefix
  }

  function EndsWith(s: string, suffix: string): bool {
    |suffix| <= |s| && s[|s| - |suffix|..] == suffix
  }

  /** One part: the bold test comes before the code test. */
  function RenderPart(part: string): Segment {
    if StartsWith(part, "**") && EndsWith(part, "**") then Bold(SliceInside(part, 2, 2))
    else if StartsWith(part, "`") && EndsWith(part, "`") then Code(SliceInside(part, 1, 1))
    else Plain(part)
  }

  function RenderLine(line: string): seq<Segment> {
    var parts := SplitBold(line);
    seq(|parts|, j requires 0 <= j < |parts| => RenderPart(parts[j]))
  }

  /** The paragraphs of a message. */
  function Render(text: string): seq<seq<Segment>> {
    var lines := Split(text, '\n');
    seq(|lines|, i requires 0 <= i < |lines| => RenderLine(lines[i]))
  }

  /** One paragraph per line: one more than there are '\n' characters. */
  lemma ParagraphPerLine(text: string)
    ensures |Render(text)| == Count(text, '\n') + 1
  {
    SplitCount(text, '\n');
  }

  /** A bold span renders bold with its two asterisks stripped on each side. */
  lemma BoldSpanRendersBold(m: string)
    requires IsBoldSpan(m)
    ensures RenderPart(m) == Bold(m[2..|m| - 2])
  {
    assert StarsAt(m, 0);
    var k := CloseFrom(m, 2).value;
    assert |m| == k + 2;
    assert m[..2] == "**" && m[|m| - 2..] == "**";
  }

  /** A line's odd parts are its bold spans, and they render bold; the text between
      them reassembles the line. */
  lemma RenderLineBold(line: string, j: nat)
    requires j < |SplitBold(line)| && j % 2 == 1
    ensures RenderLine(line)[j] == Bold(SplitBold(line)[j][2..|SplitBold(line)[j]| - 2])
  {
    BoldSpanRendersBold(SplitBold(line)[j]);
  }

  /** A line with no asterisk and no backtick is one plain segment. */
  lemma PlainLine(line: string)
    requires '*' !in line && '`' !in line
    ensures RenderLine(line) == [Plain(line)]
  {
    var parts := SplitBold(line);
    if |parts| > 1 {
      assert false;
    }
    assert Concat(parts) == parts[0] + Concat(parts[1..]);
    assert parts[0] == line;
    if |line| > 0 {
      assert line[0] != '*' && line[0] != '`';
    }
  }

  /** A line without an asterisk is never split: it is rendered as one part. */
  lemma StarFreeLine(line: string)
    requires '*' !in line
    ensures RenderLine(line) == [RenderPart(line)]
  {
    var parts := SplitBold(line);
    if |parts| > 1 {
      assert false;
    }
    assert Concat(parts) == parts[0] + Concat(parts[1..]);
    assert parts[0] == line;
  }

  /** Backticks are only looked at on a whole part, so a star-free line that opens and
      closes with a backtick is one code segment, even when it holds several code
      spans: "`a` and `b`" shows "a` and `b" as code. */
  lemma CodeLine(line: string)
    requires '*' !in line && |line| >= 2 && line[0] == '`' && line[|line| - 1] == '`'
    ensures RenderLine(line) == [Code(line[1..|line| - 1])]
  {
    StarFreeLine(line);
    assert line[0] != '*';
    assert line[..1] == "`" && line[|line| - 1..] == "`";
  }

  /** A star-free line that does not both open and close with a backtick is plain text,
      backticks inside it included: "use `x` here" shows its backticks. */
  lemma NoCodeLine(line: string)
    requires '*' !in line && !(|line| >= 1 && line[0] == '`' && line[|line| - 1] == '`')
    ensures RenderLine(line) == [Plain(line)]
  {
    StarFreeLine(line);
    if |line| >= 1 {
      assert line[0] != '*';
    }
  }

  /** Two code spans on one line merge into one code segment. */
  lemma CodeSpansMerge()
    ensures RenderLine("`a` and `b`") == [Code("a` and `b")]
  {
    var line := "`a` and `b`";
    var inside := "a` and `b";
    assert |line| == 11 && |inside| == 9;
    assert '*' !in line;
    CodeLine(line);
    assert line[1..10] == inside by {
      forall i | 0 <= i < 9 ensures line[1..10][i] == inside[i] {
        assert line[i + 1] == inside[i];
      }
    }
  }

  /** Inline code inside a sentence is not rendered as code. */
  lemma InlineCodeStaysPlain()
    ensures RenderLine("use `x` here") == [Plain("use `x` here")]
  {
    NoCodeLine("use `x` here");
  }

  /** The lazy body runs over characters that are neither asterisks nor terminators. */
  lemma {:induction false} CloseAfterPlain(s: string, j: nat, k: nat)
    requires j <= k && StarsAt(s, k)
    requires forall x :: j <= x < k ==> s[x] != '*' && !IsTerminator(s[x])
    ensures CloseFrom(s, j) == Some(k)
    decreases k - j
  {
    if j < k {
      CloseAfterPlain(s, j + 1, k);
    }
  }

  lemma BoldWordSpan(w: string)
    requires '*' !in w && forall x :: 0 <= x < |w| ==> !IsTerminator(w[x])
    ensures MatchAt("**" + w + "**", 0) == Some(|w| + 4)
  {
    var line := "**" + w + "**";
    CloseAfterPlain(line, 2, |w| + 2);
  }

  /** A word between double asterisks splits into the span with an empty part on each
      side ... */
  lemma BoldWordParts(w: string)
    requires '*' !in w && forall x :: 0 <= x < |w| ==> !IsTerminator(w[x])
    ensures SplitBold("**" + w + "**") == ["", "**" + w + "**", ""]
  {
    var line := "**" + w + "**";
    var e := |line|;
    BoldWordSpan(w);
    assert SplitBoldFrom(line, 0, 0) == [line[0..0], line[0..e]] + SplitBoldFrom(line, e, e);
    assert line[0..0] == "" && line[0..e] == line && line[e..] == "";
  }

  /** ... and renders as one bold segment between two empty plain ones. */
  lemma BoldWord(w: string)
    requires '*' !in w && forall x :: 0 <= x < |w| ==> !IsTerminator(w[x])
    ensures RenderLine("**" + w + "**") == [Plain(""), Bold(w), Plain("")]
  {
    var line := "**" + w + "**";
    BoldWordParts(w);
    BoldWordSpan(w);
    BoldSpanRendersBold(line);
    assert line[2..|line| - 2] == w;
  }

  /** Two asterisks alone are not a match, but the part still starts and ends with them:
      it renders as an empty bold segment, so the line shows nothing. */
  lemma LoneStarsVanish()
    ensures RenderLine("**") == [Bold("")]
  {
    assert MatchAt("**", 0).None?;
    assert MatchAt("**", 1).None?;
    assert SplitBold("**") == ["**"];
  }
}
