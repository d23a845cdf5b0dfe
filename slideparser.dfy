/**
 * `parseSlides` of the tool page (pages/ToolPage.tsx): the reply of the
 * model is split on `--- SLIDE <digits> ---` (case-insensitive), blocks whose
 * trimmed length is 10 or less are dropped, and each remaining block yields
 * a title (after the first `TÍTULO:`, to the end of that line) and a content
 * (after the first `CONTEÚDO:`, to the end of the block).
 *
 * The three regular expressions are written out by hand. With the `i` flag
 * and no `u` flag, JavaScript compares characters after upper-casing them
 * and never lets a non-ASCII character turn into an ASCII one, so a text
 * character matches an upper-case pattern letter exactly when it is that
 * letter or its lower-case form; for the letters used here (A-Z, Í, Ú) the
 * lower-case form is 32 code points further.
 */
module SlideParser {
  import opened Wrappers
  import Lists
  import JsText

  /** One slide of the outline. */
  datatype Slide = Slide(title: string, content: string)

  const DefaultTitle: string := "Slide sem título"
  const TitleMarker: string := "TÍTULO:"
  const ContentMarker: string := "CONTEÚDO:"
  const DelimiterHead: string := "--- SLIDE "
  const DelimiterTail: string := " ---"

  /** The blocks shorter than this (trimmed, in UTF-16 code units) are split artefacts. */
  const MinBlockLength: nat := 10

  predicate HasLowerCase(p: char) {
    ('A' <= p <= 'Z') || p == 'Í' || p == 'Ú'
  }

  /** Text character `c` matches pattern character `p` under the `i` flag. */
  predicate FoldEq(c: char, p: char) {
    c == p || (HasLowerCase(p) && c as int == p as int + 32)
  }

  /** The literal `pat` matches `s` at position `i`, ignoring case. */
  predicate MatchesAt(s: string, i: nat, pat: string) {
    i + |pat| <= |s| && forall k :: 0 <= k < |pat| ==> FoldEq(s[i + k], pat[k])
  }

  /** The leftmost position at or after `from` where `pat` matches: what `String.prototype.match` finds first. */
  function FindFrom(s: string, pat: string, from: nat): (r: Option<nat>)
    requires from <= |s|
    ensures r.Some? ==> from <= r.value <= |s| && MatchesAt(s, r.value, pat)
    ensures r.Some? ==> forall j :: from <= j < r.value ==> !MatchesAt(s, j, pat)
    ensures r.None? ==> forall j :: from <= j <= |s| ==> !MatchesAt(s, j, pat)
    decreases |s| - from
  {
    if MatchesAt(s, from, pat) then Some(from)
    else if from == |s| then None
    else FindFrom(s, pat, from + 1)
  }

  predicate IsDigit(c: char) {
    '0' <= c <= '9'
  }

  /**
   * Where a match of `--- SLIDE \d+ ---` stands: at character `i` of the
   * head `--- SLIDE `, in the digits with `count` of them read, or at
   * character `i` of the tail ` ---`.
   */
  datatype Phase = InHead(i: nat) | InDigits(count: nat) | InTail(i: nat)

  /** The fewest characters a match still has to read from phase `ph`. */
  function Pending(ph: Phase): nat {
    match ph
    case InHead(i) => (if i < |DelimiterHead| then |DelimiterHead| - i else 0) + 1 + |DelimiterTail|
    case InDigits(count) => (if count == 0 then 1 else 0) + |DelimiterTail|
    case InTail(i) => if i < |DelimiterTail| then |DelimiterTail| - i else 0
  }

  /** A match moves from the head to the digits to the tail. */
  function Stage(ph: Phase): nat {
    match ph
    case InHead(_) => 2
    case InDigits(_) => 1
    case InTail(_) => 0
  }

  /**
   * Where the match that is in phase `ph` at position `p` ends, if it
   * succeeds. The greedy `\d+` never has to give back a digit, since the
   * tail starts with a space, so reading every digit and then the tail
   * finds the match whenever there is one.
   */
  function Scan(s: string, p: nat, ph: Phase): (e: Option<nat>)
    requires p <= |s|
    ensures e.Some? ==> p + Pending(ph) <= e.value <= |s|
    decreases |s| - p, Stage(ph)
  {
    match ph
    case InHead(i) =>
      if i >= |DelimiterHead| then Scan(s, p, InDigits(0))
      else if p < |s| && FoldEq(s[p], DelimiterHead[i]) then Scan(s, p + 1, InHead(i + 1))
      else None
    case InDigits(count) =>
      if p < |s| && IsDigit(s[p]) then Scan(s, p + 1, InDigits(count + 1))
      else if count > 0 then Scan(s, p, InTail(0))
      else None
    case InTail(i) =>
      if i >= |DelimiterTail| then Some(p)
      else if p < |s| && FoldEq(s[p], DelimiterTail[i]) then Scan(s, p + 1, InTail(i + 1))
      else None
  }

  /** The length of the match of `--- SLIDE \d+ ---` at position `q`, if any. */
  function DelimiterAt(s: string, q: nat): (r: Option<nat>)
    ensures r.Some? ==> q + r.value <= |s| && r.value >= |DelimiterHead| + 1 + |DelimiterTail|
  {
    if q > |s| then None
    else match Scan(s, q, InHead(0))
      case None => None
      case Some(e) => Some(e - q)
  }

  /** The leftmost delimiter at or after `from`. */
  function FirstDelimiter(s: string, from: nat): (r: Option<nat>)
    requires from <= |s|
    ensures r.Some? ==> from <= r.value < |s| && DelimiterAt(s, r.value).Some?
    ensures r.Some? ==> forall j :: from <= j < r.value ==> DelimiterAt(s, j).None?
    ensures r.None? ==> forall j :: from <= j < |s| ==> DelimiterAt(s, j).None?
    decreases |s| - from
  {
    if from == |s| then None
    else if DelimiterAt(s, from).Some? then Some(from)
    else FirstDelimiter(s, from + 1)
  }

  predicate NoDelimiter(s: string) {
    forall j :: 0 <= j < |s| ==> DelimiterAt(s, j).None?
  }

  /** `text.split(/--- SLIDE \d+ ---/i)`: the text between delimiters, in order. */
  function SplitBlocks(s: string): (blocks: seq<string>)
    ensures |blocks| >= 1
    decreases |s|
  {
    match FirstDelimiter(s, 0)
    case None => [s]
    case Some(q) => [s[..q]] + SplitBlocks(s[q + DelimiterAt(s, q).value..])
  }

  /** The delimiters `SplitBlocks` cut out, in order. */
  function Delimiters(s: string): (ds: seq<string>)
    ensures |ds| + 1 == |SplitBlocks(s)|
    decreases |s|
  {
    match FirstDelimiter(s, 0)
    case None => []
    case Some(q) =>
      var n := DelimiterAt(s, q).value;
      assert SplitBlocks(s) == [s[..q]] + SplitBlocks(s[q + n..]);
      [s[q..q + n]] + Delimiters(s[q + n..])
  }

  /** Blocks and delimiters put back together in turn. */
  function Interleave(blocks: seq<string>, delims: seq<string>): string
    requires |blocks| == |delims| + 1
  {
    if delims == [] then blocks[0]
    else blocks[0] + delims[0] + Interleave(blocks[1..], delims[1..])
  }

  /** Whether a block survives `filter(b => b.trim().length > 10)`. */
  predicate IsContentBlock(block: string) {
    JsText.Utf16Length(JsText.Trim(block)) > MinBlockLength
  }

  /** The blocks `parseSlides` keeps. */
  function ContentBlocks(s: string): (blocks: seq<string>)
    ensures |blocks| <= |SplitBlocks(s)|
    ensures forall b :: b in blocks ==> b in SplitBlocks(s) && JsText.Utf16Length(JsText.Trim(b)) > MinBlockLength
  {
    Lists.Filter(IsContentBlock, SplitBlocks(s))
  }

  /** The first line terminator at or after `k`: how far `.*` reaches. */
  function LineEnd(s: string, k: nat): (e: nat)
    requires k <= |s|
    ensures k <= e <= |s|
    ensures forall i :: k <= i < e ==> !JsText.IsLineTerminator(s[i])
    ensures e == |s| || JsText.IsLineTerminator(s[e])
    decreases |s| - k
  {
    if k < |s| && !JsText.IsLineTerminator(s[k]) then LineEnd(s, k + 1) else k
  }

  predicate SingleLine(s: string) {
    forall i :: 0 <= i < |s| ==> !JsText.IsLineTerminator(s[i])
  }

  lemma {:induction false} TrimKeepsSingleLine(line: string)
    requires SingleLine(line)
    ensures SingleLine(JsText.Trim(line))
  {
    var t := JsText.Trim(line);
    var o := JsText.TrimOffset(line);
    forall k | 0 <= k < |t| ensures !JsText.IsLineTerminator(t[k]) {
      assert t[k] == line[o + k];
    }
  }

  /**
   * The title of a block: `block.match(/TÍTULO:\s*(.*)/i)`, trimmed, or the
   * default title when the block has no `TÍTULO:`. A marker with nothing
   * after it gives the empty title, not the default one.
   */
  function TitleOf(block: string): (title: string)
    ensures FindFrom(block, TitleMarker, 0).None? ==> title == DefaultTitle
    ensures FindFrom(block, TitleMarker, 0).Some? ==> JsText.IsTrimmed(title) && SingleLine(title)
  {
    match FindFrom(block, TitleMarker, 0)
    case None => DefaultTitle
    case Some(i) =>
      var start := JsText.SkipWhitespace(block, i + |TitleMarker|);
      var line := block[start..LineEnd(block, start)];
      TrimKeepsSingleLine(line);
      JsText.Trim(line)
  }

  /**
   * The content of a block: `block.match(/CONTEÚDO:\s*([\s\S]*)/i)`, trimmed,
   * or the whole trimmed block when it has no `CONTEÚDO:`.
   */
  function ContentOf(block: string): (content: string)
    ensures FindFrom(block, ContentMarker, 0).None? ==> content == JsText.Trim(block)
    ensures JsText.IsTrimmed(content)
  {
    match FindFrom(block, ContentMarker, 0)
    case None =>
      JsText.Trim(block)
    case Some(i) =>
      var rest := block[JsText.SkipWhitespace(block, i + |ContentMarker|)..];
      JsText.Trim(rest)
  }

  /**
   * The title in general. After the first `TÍTULO:` (at `i`), `\s*` takes the
   * whitespace run up to `a`, line breaks included, and `.*` takes the rest of
   * that line up to `e`; the title is `b[a..e]` trimmed.
   */
  lemma {:induction false} TitleIs(b: string, i: nat, a: nat, e: nat)
    requires FindFrom(b, TitleMarker, 0) == Some(i)
    requires i + |TitleMarker| <= a <= e <= |b|
    requires forall k :: i + |TitleMarker| <= k < a ==> JsText.IsWhitespace(b[k])
    requires a == |b| || !JsText.IsWhitespace(b[a])
    requires forall k :: a <= k < e ==> !JsText.IsLineTerminator(b[k])
    requires e == |b| || JsText.IsLineTerminator(b[e])
    ensures TitleOf(b) == JsText.Trim(b[a..e])
  {
    JsText.SkipWhitespaceIs(b, i + |TitleMarker|, a);
    LineEndIs(b, a, e);
  }

  /**
   * The content in general. After the first `CONTEÚDO:` (at `i`), `\s*` takes
   * the whitespace run up to `a`; the content is the rest of the block trimmed.
   */
  lemma {:induction false} ContentIs(b: string, i: nat, a: nat)
    requires FindFrom(b, ContentMarker, 0) == Some(i)
    requires i + |ContentMarker| <= a <= |b|
    requires forall k :: i + |ContentMarker| <= k < a ==> JsText.IsWhitespace(b[k])
    requires a == |b| || !JsText.IsWhitespace(b[a])
    ensures ContentOf(b) == JsText.Trim(b[a..])
  {
    JsText.SkipWhitespaceIs(b, i + |ContentMarker|, a);
  }

  /**
   * `\s*` crosses line breaks: a `TÍTULO:` with nothing after it on its line
   * takes the next line as the title, whatever that line says (even when it
   * is the `CONTEÚDO:` line).
   */
  lemma {:induction false} TitleCrossesLine(next: string)
    requires next != [] && JsText.IsTrimmed(next) && SingleLine(next)
    ensures TitleOf(TitleMarker + "\n" + next) == next
  {
    var b := TitleMarker + "\n" + next;
    var m := |TitleMarker| + 1;
    assert MatchesAt(b, 0, TitleMarker) by {
      forall k | 0 <= k < |TitleMarker| ensures FoldEq(b[k], TitleMarker[k]) {
        assert b[k] == TitleMarker[k];
      }
    }
    FindFromIs(b, TitleMarker, 0, 0);
    assert b[m - 1] == '\n' && b[m] == next[0];
    forall k | m <= k < |b| ensures !JsText.IsLineTerminator(b[k]) {
      assert b[k] == next[k - m];
    }
    TitleIs(b, 0, m, |b|);
    assert b[m..|b|] == next;
    JsText.TrimOfTrimmed(next);
  }

  function ParseBlock(block: string): (slide: Slide)
    ensures FindFrom(block, TitleMarker, 0).None? ==> slide.title == DefaultTitle
    ensures FindFrom(block, TitleMarker, 0).Some? ==> JsText.IsTrimmed(slide.title) && SingleLine(slide.title)
    ensures FindFrom(block, ContentMarker, 0).None? ==> slide.content == JsText.Trim(block)
    ensures JsText.IsTrimmed(slide.content)
  {
    Slide(TitleOf(block), ContentOf(block))
  }

  /** `parseSlides(text)`. */
  function ParseSlides(text: string): (slides: seq<Slide>)
    ensures |slides| == |ContentBlocks(text)| <= |Delimiters(text)| + 1
    ensures forall i :: 0 <= i < |slides| ==> slides[i] == ParseBlock(ContentBlocks(text)[i])
  {
    Lists.Map(ParseBlock, ContentBlocks(text))
  }

  /** A literal matches inside a window exactly when it matches at the same place of the whole string. */
  lemma {:induction false} MatchesInWindow(s: string, j: nat, w: string, i: nat, pat: string)
    requires j + |w| <= |s| && w == s[j..j + |w|]
    requires i + |pat| <= |w|
    ensures MatchesAt(w, i, pat) <==> MatchesAt(s, j + i, pat)
  {
    assert forall m :: i <= m < i + |pat| ==> w[m] == s[j + m];
  }

  /**
   * A match is recognised by the characters it reads: a text holding the
   * same ones matches the same way. `Agree` says that `w` from `i` holds
   * what `s` holds from `p` up to `e`.
   */
  predicate Agree(s: string, p: nat, e: nat, w: string, i: nat) {
    p <= e <= |s| && i + (e - p) <= |w| && forall m :: p <= m < e ==> s[m] == w[i + m - p]
  }

  lemma {:induction false} AgreeStep(s: string, p: nat, e: nat, w: string, i: nat)
    requires Agree(s, p, e, w, i) && p < e
    ensures s[p] == w[i] && Agree(s, p + 1, e, w, i + 1)
  {
    assert s[p] == w[i + p - p];
  }

  lemma {:induction false} TailTransfer(s: string, p: nat, w: string, i: nat, k: nat, e: nat)
    requires p <= |s| && i <= |w|
    requires Scan(s, p, InTail(k)) == Some(e) && Agree(s, p, e, w, i)
    ensures Scan(w, i, InTail(k)) == Some(i + (e - p))
    decreases |s| - p
  {
    if k < |DelimiterTail| {
      AgreeStep(s, p, e, w, i);
      TailTransfer(s, p + 1, w, i + 1, k + 1, e);
    }
  }

  lemma {:induction false} DigitsTransfer(s: string, p: nat, w: string, i: nat, count: nat, e: nat)
    requires p <= |s| && i <= |w|
    requires Scan(s, p, InDigits(count)) == Some(e) && Agree(s, p, e, w, i)
    ensures Scan(w, i, InDigits(count)) == Some(i + (e - p))
    decreases |s| - p
  {
    AgreeStep(s, p, e, w, i);
    if IsDigit(s[p]) {
      DigitsTransfer(s, p + 1, w, i + 1, count + 1, e);
    } else {
      TailTransfer(s, p, w, i, 0, e);
    }
  }

  lemma {:induction false} HeadTransfer(s: string, p: nat, w: string, i: nat, k: nat, e: nat)
    requires p <= |s| && i <= |w|
    requires Scan(s, p, InHead(k)) == Some(e) && Agree(s, p, e, w, i)
    ensures Scan(w, i, InHead(k)) == Some(i + (e - p))
    decreases |s| - p
  {
    if k >= |DelimiterHead| {
      DigitsTransfer(s, p, w, i, 0, e);
    } else {
      AgreeStep(s, p, e, w, i);
      HeadTransfer(s, p + 1, w, i + 1, k + 1, e);
    }
  }

  /** A delimiter is recognised by its own characters: any text holding the same ones has it too. */
  lemma {:induction false} DelimiterTransfer(s: string, j: nat, w: string, i: nat, n: nat)
    requires DelimiterAt(s, j) == Some(n) && i + n <= |w|
    requires forall m :: j <= m < j + n ==> s[m] == w[i + m - j]
    ensures DelimiterAt(w, i) == Some(n)
  {
    HeadTransfer(s, j, w, i, 0, j + n);
  }

  /** A delimiter is recognised by its own characters: it matches at `j` exactly when the window there is one. */
  lemma {:induction false} DelimiterWindow(s: string, j: nat, n: nat)
    requires j + n <= |s|
    ensures DelimiterAt(s, j) == Some(n) <==> DelimiterAt(s[j..j + n], 0) == Some(n)
  {
    var w := s[j..j + n];
    if DelimiterAt(s, j) == Some(n) {
      DelimiterTransfer(s, j, w, 0, n);
    }
    if DelimiterAt(w, 0) == Some(n) {
      DelimiterTransfer(w, 0, s, j, n);
    }
  }

  /** A match reads no line terminator. */
  lemma {:induction false} ScanIsSingleLine(s: string, p: nat, ph: Phase, e: nat)
    requires p <= |s| && Scan(s, p, ph) == Some(e)
    ensures forall m :: p <= m < e ==> !JsText.IsLineTerminator(s[m])
    decreases |s| - p, Stage(ph)
  {
    match ph
    case InHead(k) =>
      if k >= |DelimiterHead| {
        ScanIsSingleLine(s, p, InDigits(0), e);
      } else {
        ScanIsSingleLine(s, p + 1, InHead(k + 1), e);
      }
    case InDigits(count) =>
      if IsDigit(s[p]) {
        ScanIsSingleLine(s, p + 1, InDigits(count + 1), e);
      } else {
        ScanIsSingleLine(s, p, InTail(0), e);
      }
    case InTail(k) =>
      if k < |DelimiterTail| {
        ScanIsSingleLine(s, p + 1, InTail(k + 1), e);
      }
  }

  /** A delimiter never contains a line terminator. */
  lemma {:induction false} DelimiterIsSingleLine(s: string, j: nat)
    requires DelimiterAt(s, j).Some?
    ensures forall i :: j <= i < j + DelimiterAt(s, j).value ==> !JsText.IsLineTerminator(s[i])
  {
    ScanIsSingleLine(s, j, InHead(0), j + DelimiterAt(s, j).value);
  }

  /** Every delimiter starts with a dash. */
  lemma {:induction false} DelimiterStartsWithDash(s: string, j: nat)
    requires DelimiterAt(s, j).Some?
    ensures j < |s| && s[j] == '-'
  {
    assert Scan(s, j, InHead(0)).Some?;
  }

  /** Putting the blocks and the delimiters back together in turn gives the reply back. */
  lemma {:induction false} SplitReassembles(s: string)
    ensures Interleave(SplitBlocks(s), Delimiters(s)) == s
    decreases |s|
  {
    match FirstDelimiter(s, 0)
    case None =>
    case Some(q) =>
      var n := DelimiterAt(s, q).value;
      SplitReassembles(s[q + n..]);
      assert s == s[..q] + s[q..q + n] + s[q + n..];
  }

  /** The window is exactly one delimiter. */
  predicate IsDelimiter(d: string) {
    DelimiterAt(d, 0) == Some(|d|)
  }

  /** Every piece the split cuts out is a delimiter. */
  lemma {:induction false} DelimitersAreDelimiters(s: string)
    ensures forall i :: 0 <= i < |Delimiters(s)| ==> IsDelimiter(Delimiters(s)[i])
    decreases |s|
  {
    match FirstDelimiter(s, 0)
    case None =>
    case Some(q) =>
      var n := DelimiterAt(s, q).value;
      var d := s[q..q + n];
      DelimitersAreDelimiters(s[q + n..]);
      DelimiterWindow(s, q, n);
      assert IsDelimiter(d);
      var rest := Delimiters(s[q + n..]);
      assert Delimiters(s) == [d] + rest;
      forall i | 0 < i < |Delimiters(s)| ensures IsDelimiter(Delimiters(s)[i]) {
        assert Delimiters(s)[i] == rest[i - 1];
      }
  }

  /** The text before the first delimiter contains none. */
  lemma {:induction false} PrefixBeforeFirstDelimiter(s: string, q: nat)
    requires q <= |s|
    requires forall j :: 0 <= j < q ==> DelimiterAt(s, j).None?
    ensures NoDelimiter(s[..q])
  {
    var b := s[..q];
    forall j | 0 <= j < |b| ensures DelimiterAt(b, j).None? {
      if DelimiterAt(b, j).Some? {
        var m := DelimiterAt(b, j).value;
        DelimiterWindow(b, j, m);
        assert b[j..j + m] == s[j..j + m];
        DelimiterWindow(s, j, m);
        assert false;
      }
    }
  }

  /** No block of the split contains a delimiter. */
  lemma {:induction false} BlocksHaveNoDelimiter(s: string)
    ensures forall b :: b in SplitBlocks(s) ==> NoDelimiter(b)
    decreases |s|
  {
    match FirstDelimiter(s, 0)
    case None =>
    case Some(q) =>
      var n := DelimiterAt(s, q).value;
      BlocksHaveNoDelimiter(s[q + n..]);
      PrefixBeforeFirstDelimiter(s, q);
  }

  /** A reply without any delimiter gives at most one slide, parsed from the whole reply. */
  lemma {:induction false} NoDelimiterReply(text: string)
    requires NoDelimiter(text)
    ensures ParseSlides(text) == if IsContentBlock(text) then [ParseBlock(text)] else []
  {
    assert SplitBlocks(text) == [text];
    assert Lists.Filter(IsContentBlock, [text][1..]) == [];
  }

  /** Trimming never lengthens a string, in UTF-16 code units. */
  lemma {:induction false} TrimShortens(s: string)
    ensures JsText.Utf16Length(JsText.Trim(s)) <= JsText.Utf16Length(s)
  {
    var r := JsText.Trim(s);
    var o := JsText.TrimOffset(s);
    var front, back := s[..o], s[o + |r|..];
    assert s == (front + r) + back;
    JsText.Utf16LengthConcat(front + r, back);
    JsText.Utf16LengthConcat(front, r);
  }

  /** A reply of at most ten UTF-16 code units gives no slide. */
  lemma {:induction false} ShortReply(text: string)
    requires JsText.Utf16Length(text) <= MinBlockLength
    ensures ParseSlides(text) == []
  {
    assert NoDelimiter(text);
    TrimShortens(text);
    NoDelimiterReply(text);
  }

  // The reply format the outline prompt asks for, and parseSlides read back on it.

  /** `--- SLIDE <n> ---`. */
  function DelimiterText(n: nat): string {
    DelimiterHead + JsText.NatToString(n) + DelimiterTail
  }

  /** The text between two delimiters: a `TÍTULO:` line and a `CONTEÚDO:` section. */
  function BlockText(slide: Slide): string {
    "\n" + TitleMarker + " " + slide.title + "\n" + ContentMarker + " " + slide.content + "\n"
  }

  /** The slides numbered from `n`, each but the first preceded by its delimiter. */
  function RenderFrom(slides: seq<Slide>, n: nat): string
    requires |slides| >= 1
  {
    if |slides| == 1 then BlockText(slides[0])
    else BlockText(slides[0]) + DelimiterText(n + 1) + RenderFrom(slides[1..], n + 1)
  }

  /** A whole outline in the requested format: `--- SLIDE 1 ---`, the first slide, `--- SLIDE 2 ---`, ... */
  function Render(slides: seq<Slide>): string {
    if slides == [] then "" else DelimiterText(1) + RenderFrom(slides, 1)
  }

  /**
   * A slide that survives the round trip: a non-empty one-line title with no
   * surrounding whitespace and no `CONTEÚDO:` in it, a content with no
   * surrounding whitespace, and no delimiter in either.
   */
  predicate WellFormed(slide: Slide) {
    && slide.title != [] && JsText.IsTrimmed(slide.title) && SingleLine(slide.title)
    && (forall j :: 0 <= j <= |slide.title| ==> !MatchesAt(slide.title, j, ContentMarker))
    && NoDelimiter(slide.title)
    && JsText.IsTrimmed(slide.content) && NoDelimiter(slide.content)
  }

  /** Text spelling out the rest of the head is read through to the digits. */
  lemma {:induction false} ScanHead(s: string, p: nat, k: nat)
    requires k <= |DelimiterHead| && p + (|DelimiterHead| - k) <= |s|
    requires forall m :: k <= m < |DelimiterHead| ==> s[p + m - k] == DelimiterHead[m]
    ensures Scan(s, p, InHead(k)) == Scan(s, p + (|DelimiterHead| - k), InDigits(0))
    decreases |DelimiterHead| - k
  {
    if k < |DelimiterHead| {
      assert s[p + k - k] == DelimiterHead[k];
      ScanHead(s, p + 1, k + 1);
    }
  }

  /** A run of `k` digits is read through, counted. */
  lemma {:induction false} ScanDigits(s: string, p: nat, count: nat, k: nat)
    requires p + k <= |s|
    requires forall m :: p <= m < p + k ==> IsDigit(s[m])
    ensures Scan(s, p, InDigits(count)) == Scan(s, p + k, InDigits(count + k))
    decreases k
  {
    if k > 0 {
      ScanDigits(s, p + 1, count + 1, k - 1);
    }
  }

  /** Text spelling out the rest of the tail completes the match. */
  lemma {:induction false} ScanTail(s: string, p: nat, k: nat)
    requires k <= |DelimiterTail| && p + (|DelimiterTail| - k) <= |s|
    requires s[p..p + (|DelimiterTail| - k)] == DelimiterTail[k..]
    ensures Scan(s, p, InTail(k)) == Some(p + (|DelimiterTail| - k))
    decreases |DelimiterTail| - k
  {
    if k < |DelimiterTail| {
      var n := |DelimiterTail| - k;
      assert s[p] == DelimiterTail[k] by {
        assert s[p..p + n][0] == DelimiterTail[k..][0];
      }
      assert s[p + 1..p + n] == DelimiterTail[k + 1..] by {
        assert s[p + 1..p + n] == s[p..p + n][1..];
        assert DelimiterTail[k + 1..] == DelimiterTail[k..][1..];
      }
      ScanTail(s, p + 1, k + 1);
    }
  }

  /** Text that opens with the head is read through to the digits. */
  lemma {:induction false} ScanOpeningHead(d: string, rest: string)
    requires d == DelimiterHead + rest
    ensures Scan(d, 0, InHead(0)) == Scan(d, |DelimiterHead|, InDigits(0))
  {
    forall m | 0 <= m < |DelimiterHead| ensures d[0 + m - 0] == DelimiterHead[m] {
      assert d[m] == (DelimiterHead + rest)[m];
    }
    ScanHead(d, 0, 0);
  }

  /** Digits followed by the tail at the very end complete the match. */
  lemma {:induction false} ScanClosingTail(d: string, t: nat, count: nat)
    requires count > 0 && t + |DelimiterTail| == |d| && d[t..] == DelimiterTail
    ensures Scan(d, t, InDigits(count)) == Some(|d|)
  {
    assert d[t] == d[t..][0];
    ScanTail(d, t, 0);
  }

  /** The delimiter the model writes before slide `n` is one the split recognises. */
  lemma {:induction false} DelimiterTextIsDelimiter(n: nat)
    ensures IsDelimiter(DelimiterText(n))
  {
    var digits := JsText.NatToString(n);
    var d := DelimiterHead + digits + DelimiterTail;
    var h := |DelimiterHead|;
    var t := h + |digits|;
    ScanOpeningHead(d, digits + DelimiterTail);
    assert forall m :: h <= m < t ==> d[m] == digits[m - h];
    ScanDigits(d, h, 0, |digits|);
    assert d[t..] == DelimiterTail;
    ScanClosingTail(d, t, |digits|);
  }

  /** Text that starts with a delimiter splits into an empty block and the split of the rest. */
  lemma {:induction false} SplitAfterDelimiter(d: string, x: string)
    requires IsDelimiter(d)
    ensures SplitBlocks(d + x) == [""] + SplitBlocks(x)
  {
    var s := d + x;
    assert s[0..|d|] == d;
    DelimiterWindow(s, 0, |d|);
    assert FirstDelimiter(s, 0) == Some(0);
    assert s[|d|..] == x;
  }

  /** A delimiter ends before the next line terminator. */
  lemma {:induction false} DelimiterEndsBefore(s: string, j: nat, hi: nat)
    requires j <= hi < |s| && JsText.IsLineTerminator(s[hi])
    requires DelimiterAt(s, j).Some?
    ensures j + DelimiterAt(s, j).value <= hi
  {
    DelimiterIsSingleLine(s, j);
  }

  /** A delimiter lying before a line terminator lies inside the line. */
  lemma {:induction false} DelimiterInLine(s: string, lo: nat, hi: nat, j: nat)
    requires lo <= j < hi < |s| && JsText.IsLineTerminator(s[hi])
    requires DelimiterAt(s, j).Some?
    ensures DelimiterAt(s[lo..hi], j - lo).Some?
  {
    var m := DelimiterAt(s, j).value;
    DelimiterEndsBefore(s, j, hi);
    DelimiterTransfer(s, j, s[lo..hi], j - lo, m);
  }

  /** A line with no delimiter in it has none starting inside it in the whole text either. */
  lemma {:induction false} NoDelimiterInLine(s: string, lo: nat, hi: nat, j: nat)
    requires lo <= j < hi < |s| && JsText.IsLineTerminator(s[hi])
    requires NoDelimiter(s[lo..hi])
    ensures DelimiterAt(s, j).None?
  {
    if DelimiterAt(s, j).Some? {
      DelimiterInLine(s, lo, hi, j);
    }
  }

  const TitleLead: string := "\n" + TitleMarker + " "
  const ContentLead: string := "\n" + ContentMarker + " "

  /** The parts of a slide's text, as they sit at the start of `s`. */
  predicate Layout(s: string, t: string, c: string) {
    && 21 + |t| + |c| <= |s|
    && (forall k :: 0 <= k < 9 ==> s[k] == TitleLead[k])
    && s[9..9 + |t|] == t
    && (forall k :: 0 <= k < 11 ==> s[9 + |t| + k] == ContentLead[k])
    && s[20 + |t|..20 + |t| + |c|] == c
    && s[20 + |t| + |c|] == '\n'
  }

  lemma {:induction false} BlockLayout(slide: Slide, x: string)
    ensures |BlockText(slide)| == 21 + |slide.title| + |slide.content|
    ensures Layout(BlockText(slide) + x, slide.title, slide.content)
  {
    var s, t, c := BlockText(slide) + x, slide.title, slide.content;
    assert s == TitleLead + t + ContentLead + c + "\n" + x;
  }

  /** No delimiter starts inside the text of a well-formed slide, whatever follows it. */
  lemma {:induction false} NoDelimiterInLayout(s: string, t: string, c: string, j: nat)
    requires Layout(s, t, c) && NoDelimiter(t) && NoDelimiter(c)
    requires j < 21 + |t| + |c|
    ensures DelimiterAt(s, j).None?
  {
    if j < 9 {
      if DelimiterAt(s, j).Some? { DelimiterStartsWithDash(s, j); }
    } else if j < 9 + |t| {
      assert s[9 + |t| + 0] == ContentLead[0];
      NoDelimiterInLine(s, 9, 9 + |t|, j);
    } else if j < 20 + |t| {
      assert s[9 + |t| + (j - 9 - |t|)] == ContentLead[j - 9 - |t|];
      if DelimiterAt(s, j).Some? { DelimiterStartsWithDash(s, j); }
    } else if j < 20 + |t| + |c| {
      NoDelimiterInLine(s, 20 + |t|, 20 + |t| + |c|, j);
    } else {
      if DelimiterAt(s, j).Some? { DelimiterStartsWithDash(s, j); }
    }
  }

  lemma {:induction false} BlockHasNoDelimiter(slide: Slide, x: string, j: nat)
    requires WellFormed(slide)
    requires j < |BlockText(slide)|
    ensures DelimiterAt(BlockText(slide) + x, j).None?
  {
    BlockLayout(slide, x);
    NoDelimiterInLayout(BlockText(slide) + x, slide.title, slide.content, j);
  }

  /** The first delimiter at or after `from` is the one at `q` when none starts between them. */
  lemma {:induction false} FirstDelimiterIs(s: string, from: nat, q: nat)
    requires from <= q < |s| && DelimiterAt(s, q).Some?
    requires forall j :: from <= j < q ==> DelimiterAt(s, j).None?
    ensures FirstDelimiter(s, from) == Some(q)
  {
  }

  /** The three parts of `b + (d + y)`, cut back out. */
  lemma {:induction false} ThreeParts(b: string, d: string, y: string)
    ensures (b + (d + y))[..|b|] == b
    ensures (b + (d + y))[|b|..|b| + |d|] == d
    ensures (b + (d + y))[|b| + |d|..] == y
  {
  }

  /** The split cuts at the first delimiter. */
  lemma {:induction false} SplitAtFirst(s: string, q: nat, n: nat)
    requires FirstDelimiter(s, 0) == Some(q) && DelimiterAt(s, q) == Some(n)
    ensures q + n <= |s|
    ensures SplitBlocks(s) == [s[..q]] + SplitBlocks(s[q + n..])
  {
  }

  /** Text with no delimiter starting before a delimiter `d` splits there first. */
  lemma {:induction false} SplitBeforeDelimiter(b: string, d: string, y: string)
    requires IsDelimiter(d)
    requires forall j :: 0 <= j < |b| ==> DelimiterAt(b + (d + y), j).None?
    ensures SplitBlocks(b + (d + y)) == [b] + SplitBlocks(y)
  {
    var s := b + (d + y);
    ThreeParts(b, d, y);
    DelimiterWindow(s, |b|, |d|);
    FirstDelimiterIs(s, 0, |b|);
    SplitAtFirst(s, |b|, |d|);
  }

  /** A slide's text followed by a delimiter splits into that text and the split of what follows. */
  lemma {:induction false} SplitBlockThenDelimiter(slide: Slide, d: string, y: string)
    requires WellFormed(slide) && IsDelimiter(d)
    ensures SplitBlocks(BlockText(slide) + d + y) == [BlockText(slide)] + SplitBlocks(y)
  {
    var b := BlockText(slide);
    forall j | 0 <= j < |b| ensures DelimiterAt(b + (d + y), j).None? {
      BlockHasNoDelimiter(slide, d + y, j);
    }
    SplitBeforeDelimiter(b, d, y);
    assert b + d + y == b + (d + y);
  }

  /** A slide's text alone is one block. */
  lemma {:induction false} SplitLastBlock(slide: Slide)
    requires WellFormed(slide)
    ensures SplitBlocks(BlockText(slide)) == [BlockText(slide)]
  {
    var b := BlockText(slide);
    assert b + "" == b;
    forall j | 0 <= j < |b| ensures DelimiterAt(b, j).None? {
      BlockHasNoDelimiter(slide, "", j);
    }
  }

  lemma {:induction false} SplitRenderFrom(slides: seq<Slide>, n: nat)
    requires |slides| >= 1
    requires forall i :: 0 <= i < |slides| ==> WellFormed(slides[i])
    ensures SplitBlocks(RenderFrom(slides, n)) == Lists.Map(BlockText, slides)
    decreases |slides|
  {
    if |slides| == 1 {
      SplitLastBlock(slides[0]);
    } else {
      DelimiterTextIsDelimiter(n + 1);
      SplitBlockThenDelimiter(slides[0], DelimiterText(n + 1), RenderFrom(slides[1..], n + 1));
      SplitRenderFrom(slides[1..], n + 1);
      assert BlockText(slides[0]) + DelimiterText(n + 1) + RenderFrom(slides[1..], n + 1) == RenderFrom(slides, n);
    }
  }

  /** The reply for a non-empty outline splits into an empty lead and one block per slide. */
  lemma {:induction false} SplitRender(slides: seq<Slide>)
    requires |slides| >= 1
    requires forall i :: 0 <= i < |slides| ==> WellFormed(slides[i])
    ensures SplitBlocks(Render(slides)) == [""] + Lists.Map(BlockText, slides)
  {
    DelimiterTextIsDelimiter(1);
    SplitAfterDelimiter(DelimiterText(1), RenderFrom(slides, 1));
    SplitRenderFrom(slides, 1);
  }

  /** `FindFrom` reports the first match when nothing matches before it. */
  lemma {:induction false} FindFromIs(s: string, pat: string, from: nat, q: nat)
    requires from <= q <= |s| && MatchesAt(s, q, pat)
    requires forall j :: from <= j < q ==> !MatchesAt(s, j, pat)
    ensures FindFrom(s, pat, from) == Some(q)
    decreases q - from
  {
    if from < q {
      FindFromIs(s, pat, from + 1, q);
    }
  }

  lemma {:induction false} LineEndIs(s: string, k: nat, e: nat)
    requires k <= e <= |s|
    requires forall i :: k <= i < e ==> !JsText.IsLineTerminator(s[i])
    requires e == |s| || JsText.IsLineTerminator(s[e])
    ensures LineEnd(s, k) == e
    decreases e - k
  {
    if k < e {
      LineEndIs(s, k + 1, e);
    }
  }

  /** A marker cannot match across a line feed, since no marker holds one. */
  lemma {:induction false} NoMatchAcrossLineFeed(s: string, j: nat, pat: string, p: nat)
    requires j <= p < j + |pat| && p < |s| && s[p] == '\n'
    requires forall k :: 0 <= k < |pat| ==> pat[k] != '\n' && pat[k] as int != '\n' as int + 32
    ensures !MatchesAt(s, j, pat)
  {
    assert !FoldEq(s[j + (p - j)], pat[p - j]);
  }

  /** A title marker followed by one space and a trimmed line gives that line as the title. */
  lemma {:induction false} TitleAfterMarker(b: string, i: nat, t: string)
    requires FindFrom(b, TitleMarker, 0) == Some(i)
    requires i + 8 + |t| < |b| && b[i + 7] == ' ' && b[i + 8..i + 8 + |t|] == t && b[i + 8 + |t|] == '\n'
    requires t != [] && JsText.IsTrimmed(t) && SingleLine(t)
    ensures TitleOf(b) == t
  {
    var start := i + 8;
    assert b[start] == t[0];
    JsText.SkipWhitespaceIs(b, i + 7, start);
    LineEndOfLine(b, start, t);
    JsText.TrimOfTrimmed(t);
  }

  /** A single line followed by a line feed ends at that line feed. */
  lemma {:induction false} LineEndOfLine(b: string, start: nat, t: string)
    requires start + |t| < |b| && b[start..start + |t|] == t && b[start + |t|] == '\n' && SingleLine(t)
    ensures LineEnd(b, start) == start + |t|
  {
    forall k | start <= k < start + |t| ensures !JsText.IsLineTerminator(b[k]) {
      assert b[k] == t[k - start];
    }
    LineEndIs(b, start, start + |t|);
  }

  /** The `TÍTULO:` line of a slide's text gives its title back. */
  lemma {:induction false} TitleOfLayout(b: string, t: string, c: string)
    requires Layout(b, t, c)
    requires t != [] && JsText.IsTrimmed(t) && SingleLine(t)
    ensures TitleOf(b) == t
  {
    assert forall k :: 0 <= k < |TitleMarker| ==> b[1 + k] == TitleLead[1 + k] == TitleMarker[k];
    assert b[0 + 0] == TitleLead[0];
    assert !FoldEq(b[0 + 0], TitleMarker[0]);
    FindFromIs(b, TitleMarker, 0, 1);
    assert b[8] == TitleLead[8];
    assert b[9 + |t|] == ContentLead[0];
    TitleAfterMarker(b, 1, t);
  }

  lemma {:induction false} TitleOfBlock(slide: Slide)
    requires WellFormed(slide)
    ensures TitleOf(BlockText(slide)) == slide.title
  {
    var b := BlockText(slide);
    BlockLayout(slide, "");
    assert b + "" == b;
    TitleOfLayout(b, slide.title, slide.content);
  }

  /** `CONTEÚDO:` first matches where a slide's text puts it. */
  lemma {:induction false} ContentMarkerFirst(b: string, t: string, c: string)
    requires Layout(b, t, c)
    requires forall j :: 0 <= j <= |t| ==> !MatchesAt(t, j, ContentMarker)
    ensures FindFrom(b, ContentMarker, 0) == Some(10 + |t|)
  {
    var q := 10 + |t|;
    assert forall k :: 0 <= k < |ContentMarker| ==> b[q + k] == ContentLead[1 + k] == ContentMarker[k];
    forall j | 0 <= j < q ensures !MatchesAt(b, j, ContentMarker) {
      if j < 9 {
        assert b[j + 0] == TitleLead[j];
        assert !FoldEq(b[j + 0], ContentMarker[0]);
      } else if j + |ContentMarker| <= 9 + |t| {
        MatchesInWindow(b, 9, t, j - 9, ContentMarker);
      } else {
        assert b[9 + |t| + 0] == ContentLead[0];
        NoMatchAcrossLineFeed(b, j, ContentMarker, 9 + |t|);
      }
    }
    FindFromIs(b, ContentMarker, 0, q);
  }

  /** A content marker followed by one space and a trimmed text ending the block in a line feed gives that text. */
  lemma {:induction false} ContentAfterMarker(b: string, i: nat, c: string)
    requires FindFrom(b, ContentMarker, 0) == Some(i)
    requires i + 10 <= |b| && b[i + 9] == ' ' && b[i + 10..] == c + "\n" && JsText.IsTrimmed(c)
    ensures ContentOf(b) == c
  {
    var after := i + 9;
    if c == [] {
      assert b[after + 1] == '\n';
      JsText.SkipWhitespaceIs(b, after, |b|);
      assert b[|b|..] == [];
    } else {
      assert b[after + 1] == c[0];
      JsText.SkipWhitespaceIs(b, after, after + 1);
      JsText.TrimPadded([], c, "\n");
      assert [] + c + "\n" == c + "\n";
    }
  }

  /** The `CONTEÚDO:` section of a slide's text gives its content back. */
  lemma {:induction false} ContentOfLayout(b: string, t: string, c: string)
    requires Layout(b, t, c) && |b| == 21 + |t| + |c| && JsText.IsTrimmed(c)
    requires FindFrom(b, ContentMarker, 0) == Some(10 + |t|)
    ensures ContentOf(b) == c
  {
    assert b[9 + |t| + 10] == ContentLead[10];
    assert b[20 + |t|..] == c + "\n";
    ContentAfterMarker(b, 10 + |t|, c);
  }

  lemma {:induction false} ContentOfBlock(slide: Slide)
    requires WellFormed(slide)
    ensures ContentOf(BlockText(slide)) == slide.content
  {
    var b := BlockText(slide);
    BlockLayout(slide, "");
    assert b + "" == b;
    ContentMarkerFirst(b, slide.title, slide.content);
    ContentOfLayout(b, slide.title, slide.content);
  }

  /** Reading a slide's text back gives the slide. */
  lemma {:induction false} ParseBlockText(slide: Slide)
    requires WellFormed(slide)
    ensures ParseBlock(BlockText(slide)) == slide
  {
    TitleOfBlock(slide);
    ContentOfBlock(slide);
  }

  /** A slide's text is long enough to be kept: its trimmed form runs from `TÍTULO:` to `CONTEÚDO:`. */
  lemma {:induction false} LayoutIsContent(b: string, t: string, c: string)
    requires Layout(b, t, c)
    ensures IsContentBlock(b)
  {
    assert b[1] == TitleLead[1];
    JsText.TrimKeeps(b, 1);
    assert b[9 + |t| + 9] == ContentLead[9];
    JsText.TrimKeeps(b, 18 + |t|);
  }

  lemma {:induction false} BlockIsContent(slide: Slide)
    ensures IsContentBlock(BlockText(slide))
  {
    var b := BlockText(slide);
    BlockLayout(slide, "");
    assert b + "" == b;
    LayoutIsContent(b, slide.title, slide.content);
  }

  /**
   * The round trip: an outline in the requested format is read back as
   * exactly the slides it was written from.
   */
  lemma {:induction false} ParseRendered(slides: seq<Slide>)
    requires forall i :: 0 <= i < |slides| ==> WellFormed(slides[i])
    ensures ParseSlides(Render(slides)) == slides
  {
    if slides == [] {
      assert SplitBlocks("") == [""];
      assert !IsContentBlock("");
    } else {
      RenderedBlocks(slides);
      forall i | 0 <= i < |slides| ensures ParseSlides(Render(slides))[i] == slides[i] {
        ParseBlockText(slides[i]);
      }
    }
  }

  /** The blocks kept from a non-empty outline are the slides' texts. */
  lemma {:induction false} RenderedBlocks(slides: seq<Slide>)
    requires |slides| >= 1
    requires forall i :: 0 <= i < |slides| ==> WellFormed(slides[i])
    ensures ContentBlocks(Render(slides)) == Lists.Map(BlockText, slides)
  {
    var blocks := Lists.Map(BlockText, slides);
    SplitRender(slides);
    Lists.FilterConcat(IsContentBlock, [""], blocks);
    assert !IsContentBlock("");
    forall i | 0 <= i < |blocks| ensures IsContentBlock(blocks[i]) {
      BlockIsContent(slides[i]);
    }
    Lists.FilterAll(IsContentBlock, blocks);
  }
}
