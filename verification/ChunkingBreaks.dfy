/**
 * Where a text is cut (domain/knowledge/chunking.py): at paragraph breaks, within a long paragraph at sentence ends, and
 * within a sentence only when it is longer than a passage.
 */
module ChunkingBreaks {
  import opened Text
  import opened Chunking

  /** The parts with the separators between them. */
  function Woven(parts: seq<string>, separators: seq<string>): string
    requires |parts| == |separators| + 1
  {
    if separators == [] then parts[0] else parts[0] + separators[0] + Woven(parts[1..], separators[1..])
  }

  /** A full stop, an exclamation mark or a question mark. */
  predicate ClosesSentence(s: string) {
    s != "" && s[|s| - 1] in {'.', '!', '?'}
  }

  /** Whitespace after the end of a sentence. */
  predicate IsSentenceBreak(before: string, separator: string) {
    ClosesSentence(before) && separator != "" && Blank(separator)
  }

  /** Two line breaks with nothing but whitespace between them, from the first to the last. */
  predicate IsParagraphBreak(separator: string) {
    |separator| >= 2 && separator[0] == '\n' && separator[|separator| - 1] == '\n' && Blank(separator)
  }

  predicate IsBreak(before: string, separator: string, sentences: bool) {
    if sentences then IsSentenceBreak(before, separator) else IsParagraphBreak(separator)
  }

  /** No such break lies within. */
  ghost predicate IsUnbroken(s: string, sentences: bool) {
    if sentences then forall k :: 0 < k < |s| && IsSpace(s[k]) ==> !ClosesSentence(s[..k])
    else forall j, k :: 0 <= j < k < |s| && s[j] == '\n' && s[k] == '\n' ==> !Blank(s[j..k])
  }

  /** Nothing of the break before it is left. */
  ghost predicate BeginsAnew(s: string, sentences: bool) {
    if sentences then s == "" || !IsSpace(s[0])
    else forall k :: 0 <= k < |s| && s[k] == '\n' ==> !Blank(s[..k])
  }

  /** The parts, with whole breaks between them and none inside. */
  ghost predicate IsSplit(text: string, parts: seq<string>, separators: seq<string>, sentences: bool) {
    && |parts| == |separators| + 1 && text == Woven(parts, separators)
    && (forall k :: 0 <= k < |separators| ==> IsBreak(parts[k], separators[k], sentences))
    && (forall k :: 0 <= k < |parts| ==> IsUnbroken(parts[k], sentences))
    && (forall k :: 0 < k < |parts| ==> BeginsAnew(parts[k], sentences))
  }

  lemma RunEndsAtOnce(text: string, i: nat)
    requires i <= |text|
    ensures RunEnd(text, i) == i <==> i == |text| || !IsSpace(text[i])
  {
  }

  lemma BlankWithin(s: string, i: nat, a: nat, b: nat, j: nat)
    requires i <= a <= b <= j <= |s| && Blank(s[i..j])
    ensures Blank(s[a..b])
  {
    forall k | 0 <= k < b - a ensures IsSpace(s[a..b][k]) {
      assert s[a..b][k] == s[i..j][a - i + k];
    }
  }

  /** The run of whitespace is the longest one. */
  lemma {:induction false} RunIsLongest(text: string, i: nat, j: nat)
    requires i <= j <= |text| && Blank(text[i..j])
    ensures j <= RunEnd(text, i)
    decreases |text| - i
  {
    if i < j {
      assert IsSpace(text[i..j][0]);
      BlankWithin(text, i, i + 1, j, j);
      RunIsLongest(text, i + 1, j);
    }
  }

  lemma SentenceMatchIs(text: string, i: nat)
    requires i < |text|
    ensures SentenceMatch(text, i) > i <==> i > 0 && IsSpace(text[i]) && ClosesSentence(text[..i])
    ensures SentenceMatch(text, i) > i ==> IsSentenceBreak(text[..i], text[i..SentenceMatch(text, i)])
  {
    hide RunEnd;
    RunEndsAtOnce(text, i);
  }

  lemma ParagraphMatchIs(text: string, i: nat, k: nat)
    requires i < |text|
    ensures ParagraphMatch(text, i) > i ==> IsParagraphBreak(text[i..ParagraphMatch(text, i)])
    ensures i < k < |text| && text[i] == '\n' && text[k] == '\n' && Blank(text[i..k]) ==> ParagraphMatch(text, i) > i
  {
    hide RunEnd, LastBreak;
    var end := ParagraphMatch(text, i);
    if end > i {
      assert text[i..end][0] == '\n' && text[i..end][end - i - 1] == text[end - 1];
    }
    if i < k < |text| && text[i] == '\n' && text[k] == '\n' && Blank(text[i..k]) {
      var run := RunEnd(text, i + 1);
      BlankToo(text, i, k);
      RunIsLongest(text, i + 1, k + 1);
      assert k < run;
    }
  }

  lemma BlankToo(text: string, i: nat, k: nat)
    requires i < k < |text| && text[k] == '\n' && Blank(text[i..k])
    ensures Blank(text[i + 1..k + 1])
  {
    var later := text[i + 1..k + 1];
    forall m | 0 <= m < |later| ensures IsSpace(later[m]) {
      if m < k - i - 1 {
        assert later[m] == text[i..k][m + 1];
      }
    }
  }

  /** The scan has met no break before `i`. */
  ghost predicate NothingBefore(text: string, i: nat, sentences: bool) {
    && i <= |text|
    && forall j: nat :: j < i ==> (if sentences then SentenceMatch(text, j) else ParagraphMatch(text, j)) == j
  }

  lemma NothingBeforeIsUnbroken(text: string, i: nat, sentences: bool)
    requires NothingBefore(text, i, sentences)
    ensures IsUnbroken(text[..i], sentences)
  {
    hide SentenceMatch, ParagraphMatch, ClosesSentence;
    if sentences {
      forall k | 0 < k < i && IsSpace(text[..i][k]) ensures !ClosesSentence(text[..i][..k]) {
        SentenceMatchIs(text, k);
        assert text[..i][..k] == text[..k];
      }
    } else {
      forall j, k | 0 <= j < k < i && text[..i][j] == '\n' && text[..i][k] == '\n' ensures !Blank(text[..i][j..k]) {
        ParagraphMatchIs(text, j, k);
        assert text[..i][j..k] == text[j..k];
      }
    }
  }

  lemma {:induction false} SplitFromIs(text: string, i: nat, sentences: bool) returns (separators: seq<string>)
    requires NothingBefore(text, i, sentences)
    ensures IsSplit(text, SplitFrom(text, i, sentences), separators, sentences)
    decreases |text|, |text| - i
  {
    hide SentenceMatch, ParagraphMatch, IsUnbroken, IsBreak, BeginsAnew;
    if i == |text| {
      NothingBeforeIsUnbroken(text, i, sentences);
      assert text[..i] == text;
      return [];
    }
    var end := if sentences then SentenceMatch(text, i) else ParagraphMatch(text, i);
    if end == i {
      separators := SplitFromIs(text, i + 1, sentences);
    } else {
      var rest := SplitFromIs(text[end..], 0, sentences);
      separators := [text[i..end]] + rest;
      NothingBeforeIsUnbroken(text, i, sentences);
      BreakHere(text, i, end, sentences);
      AnewAfter(text, i, end, sentences);
      SplitThen(text, i, end, SplitFrom(text[end..], 0, sentences), rest, sentences);
    }
  }

  lemma BreakHere(text: string, i: nat, end: nat, sentences: bool)
    requires i < end <= |text|
    requires end == if sentences then SentenceMatch(text, i) else ParagraphMatch(text, i)
    ensures IsBreak(text[..i], text[i..end], sentences)
  {
    hide SentenceMatch, ParagraphMatch;
    if sentences {
      SentenceMatchIs(text, i);
    } else {
      ParagraphMatchIs(text, i, i);
    }
  }

  lemma AnewAfter(text: string, i: nat, end: nat, sentences: bool)
    requires i < end <= |text|
    requires end == if sentences then SentenceMatch(text, i) else ParagraphMatch(text, i)
    ensures BeginsAnew(text[end..], sentences)
  {
    hide RunEnd, LastBreak;
    if !sentences {
      var run, rest := RunEnd(text, i + 1), text[end..];
      forall k | 0 <= k < |rest| && rest[k] == '\n' ensures !Blank(rest[..k]) {
        assert run < end + k;
        assert rest[..k][run - end] == text[run];
      }
    }
  }

  lemma AnewInPart(s: string, part: string, sentences: bool)
    requires BeginsAnew(s, sentences) && part <= s
    ensures BeginsAnew(part, sentences)
  {
    if !sentences {
      forall k | 0 <= k < |part| && part[k] == '\n' ensures !Blank(part[..k]) {
        assert part[..k] == s[..k] && s[k] == '\n';
      }
    }
  }

  lemma SplitThen(text: string, i: nat, end: nat, parts: seq<string>, separators: seq<string>, sentences: bool)
    requires i <= end <= |text| && IsSplit(text[end..], parts, separators, sentences)
    requires IsBreak(text[..i], text[i..end], sentences) && IsUnbroken(text[..i], sentences)
    requires BeginsAnew(text[end..], sentences)
    ensures IsSplit(text, [text[..i]] + parts, [text[i..end]] + separators, sentences)
  {
    hide IsBreak, IsUnbroken, BeginsAnew;
    AnewInPart(text[end..], parts[0], sentences);
    var ps, ss := [text[..i]] + parts, [text[i..end]] + separators;
    assert ps[1..] == parts && ss[1..] == separators;
    assert text == text[..i] + text[i..end] + text[end..];
    forall k | 0 <= k < |ss| ensures IsBreak(ps[k], ss[k], sentences) {
      if k > 0 {
        assert ps[k] == parts[k - 1] && ss[k] == separators[k - 1];
      }
    }
    forall k | 0 <= k < |ps| ensures IsUnbroken(ps[k], sentences) && (k > 0 ==> BeginsAnew(ps[k], sentences)) {
      if k > 0 {
        assert ps[k] == parts[k - 1];
      }
    }
  }

  /** A text is the paragraphs and the breaks between them: two line breaks or more, as many as there are, with whitespace
      between them at most; and no paragraph has such a break inside. */
  lemma ParagraphsAre(text: string) returns (separators: seq<string>)
    ensures IsSplit(text, Paragraphs(text), separators, false)
  {
    separators := SplitFromIs(text, 0, false);
  }

  /** A paragraph is its sentences and the whitespace between them: each but the last closes with a full stop, an
      exclamation mark or a question mark, and in none does whitespace follow one of these. */
  lemma SentencesAre(paragraph: string) returns (separators: seq<string>)
    ensures IsSplit(paragraph, SentenceSplit(paragraph), separators, true)
  {
    separators := SplitFromIs(paragraph, 0, true);
  }

  // ----- Pieces -----

  /** The piece is this sentence, or, when the sentence is too long for a passage, a full stretch of it or its rest. */
  ghost predicate IsCutFrom(piece: string, sentence: string, size: nat) {
    if |sentence| <= size then piece == sentence
    else exists n: nat :: n * size < |sentence| && piece == StretchOf(sentence, n * size, size)
  }

  function StretchOf(s: string, from: nat, size: nat): string
    requires from <= |s|
  {
    if from + size <= |s| then s[from..from + size] else s[from..]
  }

  lemma {:induction false} HardCutsAre(sentence: string, from: nat, n: nat, size: nat, piece: string)
    requires size > 0 && from == n * size < |sentence| && piece in HardCuts(sentence[from..], size)
    ensures exists m: nat :: m * size < |sentence| && piece == StretchOf(sentence, m * size, size)
    decreases |sentence| - from
  {
    var rest := sentence[from..];
    if |rest| <= size {
      assert piece == rest == StretchOf(sentence, n * size, size);
    } else if piece == rest[..size] {
      assert piece == StretchOf(sentence, n * size, size);
    } else {
      assert rest[size..] == sentence[from + size..];
      assert (n + 1) * size == from + size;
      HardCutsAre(sentence, from + size, n + 1, size, piece);
    }
  }

  lemma SentenceIsCut(sentence: string, size: nat, piece: string)
    requires size > 0 && piece in HardCuts(sentence, size)
    ensures IsCutFrom(piece, sentence, size)
  {
    if |sentence| > size {
      assert sentence[0..] == sentence;
      HardCutsAre(sentence, 0, 0, size, piece);
    }
  }

  lemma {:induction false} SentencePartsAre(sentences: seq<string>, size: nat, piece: string) returns (k: nat)
    requires size > 0 && piece in SentenceParts(sentences, size)
    ensures k < |sentences| && IsCutFrom(piece, sentences[k], size)
  {
    hide HardCuts, IsCutFrom;
    if piece in HardCuts(sentences[0], size) {
      SentenceIsCut(sentences[0], size, piece);
      k := 0;
    } else {
      k := SentencePartsAre(sentences[1..], size, piece);
      k := k + 1;
    }
  }

  lemma {:induction false} NotBlankAre(parts: seq<string>, piece: string)
    requires piece in NotBlank(parts)
    ensures piece in parts
  {
    if !Blank(parts[0]) && piece == parts[0] {
    } else {
      NotBlankAre(parts[1..], piece);
      assert parts == [parts[0]] + parts[1..];
    }
  }

  lemma {:induction false} PiecesOfAre(paragraphs: seq<string>, size: nat, piece: string) returns (k: nat)
    requires size > 0 && piece in PiecesOf(paragraphs, size)
    ensures k < |paragraphs| && piece in PiecesOfOne(paragraphs[k], size)
  {
    hide PiecesOfOne;
    if piece in PiecesOfOne(paragraphs[0], size) {
      k := 0;
    } else {
      k := PiecesOfAre(paragraphs[1..], size, piece);
      k := k + 1;
    }
  }

  /** Every piece is a whole paragraph of the text when that fits a passage, and otherwise one of its sentences, or a
      stretch of one that does not fit either: nothing is cut anywhere else. */
  lemma PiecesEndAtBreaks(text: string, size: nat, piece: string) returns (paragraph: string, sentence: string)
    requires size > 0 && piece in Pieces(text, size)
    ensures paragraph in Paragraphs(Strip(text))
    ensures if |Strip(paragraph)| <= size then piece == Strip(paragraph)
            else sentence in SentenceSplit(Strip(paragraph)) && IsCutFrom(piece, sentence, size)
  {
    hide SentenceParts, NotBlank, IsCutFrom, SplitFrom, Strip;
    var k := PiecesOfAre(Paragraphs(Strip(text)), size, piece);
    paragraph, sentence := Paragraphs(Strip(text))[k], "";
    var cleaned := Strip(paragraph);
    if |cleaned| > size {
      NotBlankAre(SentenceParts(SentenceSplit(cleaned), size), piece);
      var j := SentencePartsAre(SentenceSplit(cleaned), size, piece);
      sentence := SentenceSplit(cleaned)[j];
    }
  }

  // ----- Passages -----

  /** The last `overlap` characters, or all there are. */
  function LastPart(current: string, overlap: nat): string {
    if |current| <= overlap then current else current[|current| - overlap..]
  }

  /** All of the last `overlap` characters but the whitespace they begin with. */
  ghost predicate CarriesAll(carried: string, current: string, overlap: nat) {
    var window := LastPart(current, overlap);
    && |carried| <= |window| && window[|window| - |carried|..] == carried
    && Blank(window[..|window| - |carried|]) && (carried == "" || !IsSpace(carried[0]))
  }

  /** The next passage was begun because a piece did not fit this one any more; it begins with that much of this one, and
      the piece is in it. */
  ghost predicate GoesOver(pieces: seq<string>, size: nat, overlap: nat, cut: Cut, next: Cut) {
    exists current, piece :: OverflowsInto(pieces, size, overlap, cut, next, current, piece)
  }

  ghost predicate OverflowsInto(
      pieces: seq<string>, size: nat, overlap: nat, cut: Cut, next: Cut, current: string, piece: string)
  {
    && Strip(current) == cut.passage && CarriesAll(next.carried, current, overlap)
    && piece in pieces && |current + "\n\n" + piece| > size && Infix(Strip(piece), next.passage)
  }

  lemma TailCarriesAll(current: string, overlap: nat)
    ensures CarriesAll(Tail(current, overlap), current, overlap)
  {
    hide SkipSpaces;
    var window := LastPart(current, overlap);
    if overlap == 0 {
      assert window == "";
    } else {
      var i := SkipSpaces(window, 0);
      assert Tail(current, overlap) == window[i..];
      assert window[..|window| - |window[i..]|] == window[..i];
      assert window[|window| - |window[i..]|..] == window[i..];
    }
  }

  /** What is in the passage under construction is in the next one written. */
  lemma {:induction false} FirstCutHolds(
      pieces: seq<string>, size: nat, overlap: nat, current: string, carried: string, w: string)
    requires Trimmed(w) && Infix(w, current)
    ensures var cuts := CutsFrom(pieces, size, overlap, current, carried);
            cuts != [] && Infix(w, cuts[0].passage) && cuts[0].carried == carried
    decreases |pieces|
  {
    hide CutsFrom, Infix, Strip, Candidate, Tail, Restart, Trimmed;
    CutsEnd(size, overlap, current, carried);
    WholeInStrip(current, w);
    if pieces == [] {
    } else {
      CutsStep(pieces, size, overlap, current, carried);
      var candidate := Candidate(current, pieces[0]);
      if |candidate| <= size || current == "" {
        NotEmpty(w);
        WholeInCandidate(current, pieces[0], w);
        FirstCutHolds(pieces[1..], size, overlap, candidate, carried, w);
      }
    }
  }

  lemma NotEmpty(w: string)
    requires Trimmed(w)
    ensures w != ""
  {
  }

  lemma {:induction false} CutsGoOver(
      pieces: seq<string>, size: nat, overlap: nat, current: string, carried: string, all: seq<string>, k: nat)
    requires GoodPieces(pieces, size) && forall piece :: piece in pieces ==> piece in all
    ensures var cuts := CutsFrom(pieces, size, overlap, current, carried);
            k + 1 < |cuts| ==> GoesOver(all, size, overlap, cuts[k], cuts[k + 1])
    decreases |pieces|
  {
    hide CutsFrom, Infix, Strip, Tail, Restart, GoesOver, Blank;
    CutsEnd(size, overlap, current, carried);
    if pieces == [] {
    } else {
      var piece, more := pieces[0], pieces[1..];
      assert forall x :: x in more ==> x in pieces;
      CutsStep(pieces, size, overlap, current, carried);
      var candidate, tail := Candidate(current, piece), Tail(current, overlap);
      if |candidate| <= size || current == "" {
        CutsGoOver(more, size, overlap, candidate, carried, all, k);
      } else if k > 0 {
        CutsGoOver(more, size, overlap, Restart(tail, piece), tail, all, k - 1);
      } else {
        StripIsTrimmed(piece);
        WholeInRestart(tail, piece, Strip(piece));
        FirstCutHolds(more, size, overlap, Restart(tail, piece), tail, Strip(piece));
        TailCarriesAll(current, overlap);
        var next := CutsFrom(more, size, overlap, Restart(tail, piece), tail)[0];
        GoesOverHere(all, size, overlap, Cut(Strip(current), carried), next, current, piece);
      }
    }
  }

  lemma GoesOverHere(all: seq<string>, size: nat, overlap: nat, cut: Cut, next: Cut, current: string, piece: string)
    requires Strip(current) == cut.passage && CarriesAll(next.carried, current, overlap)
    requires piece in all && |current + "\n\n" + piece| > size && Infix(Strip(piece), next.passage)
    ensures GoesOver(all, size, overlap, cut, next)
  {
    assert OverflowsInto(all, size, overlap, cut, next, current, piece);
  }

  /** Passages are as long as the pieces allow, and overlap as much as they are told to: a new one is begun only for a piece
      that does not fit the one before, with the whole of the overlap. */
  lemma PassagesAreFull(text: string, size: nat, overlap: int, k: nat)
    requires size > 0 && k + 1 < |Cuts(text, size, overlap)|
    ensures var cuts := Cuts(text, size, overlap);
            GoesOver(Pieces(text, size), size, if overlap < 0 then 0 else if overlap < size / 2 then overlap else size / 2,
                     cuts[k], cuts[k + 1])
  {
    hide CutsFrom, Pieces, GoesOver, Solid, Concat;
    PiecesHoldTheText(text, size);
    CutsGoOver(Pieces(text, size), size, Clamp(overlap, size), "", "", Pieces(text, size), k);
  }
}
