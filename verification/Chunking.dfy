/**
 * Cutting a document into passages (domain/knowledge/chunking.py).
 *
 * `Chunk` is the loop; `Cuts` is the same accumulation as a function that also keeps, for every passage, the overlap
 * it was started with. What is proved: no text is lost or reordered, no piece is broken, and how long a passage gets.
 */
module Chunking {
  import opened Wrappers
  import opened Text

  const DEFAULT_CHUNK_CHARS: int := 1200
  const DEFAULT_OVERLAP_CHARS: int := 160

  // ----- The two separators -----

  /** Where the run of whitespace starting at `i` ends. */
  function RunEnd(text: string, i: nat): (r: nat)
    requires i <= |text|
    ensures i <= r <= |text| && Blank(text[i..r]) && (r < |text| ==> !IsSpace(text[r]))
    decreases |text| - i
  {
    if i < |text| && IsSpace(text[i]) then
      var r := RunEnd(text, i + 1);
      assert forall k :: i + 1 <= k < r ==> text[k] == text[i + 1..r][k - i - 1];
      r
    else i
  }

  /** The end of the last line break in `text[i..j]`, or `i` when there is none. */
  function LastBreak(text: string, i: nat, j: nat): (r: nat)
    requires i <= j <= |text|
    ensures i <= r <= j
    ensures r > i ==> text[r - 1] == '\n'
    ensures forall k :: r <= k < j ==> text[k] != '\n'
  {
    if i < j && text[j - 1] != '\n' then LastBreak(text, i, j - 1) else j
  }

  /** The pattern `\n\s*\n` at position `i`: the end of its longest match, or `i` when it does not match there. */
  function ParagraphMatch(text: string, i: nat): (r: nat)
    requires i <= |text|
    ensures i <= r <= |text| && Blank(text[i..r])
  {
    if i < |text| && text[i] == '\n' then
      var run := RunEnd(text, i + 1);
      var r := LastBreak(text, i + 1, run);
      assert forall k :: i + 1 <= k < r ==> text[k] == text[i + 1..run][k - i - 1];
      if r == i + 1 then i else r
    else i
  }

  predicate EndsSentence(c: char) {
    c == '.' || c == '!' || c == '?'
  }

  /** The pattern `(?<=[.!?])\s+` at position `i`, read the same way. */
  function SentenceMatch(text: string, i: nat): (r: nat)
    requires i <= |text|
    ensures i <= r <= |text| && Blank(text[i..r])
  {
    if 0 < i < |text| && EndsSentence(text[i - 1]) then RunEnd(text, i) else i
  }

  /** `re.split`: the text between the leftmost matches. `i` is where the scan stands. */
  function SplitFrom(text: string, i: nat, sentences: bool): (parts: seq<string>)
    requires i <= |text|
    ensures |parts| > 0 && Solid(Concat(parts)) == Solid(text)
    decreases |text|, |text| - i
  {
    if i == |text| then
      assert Concat([text]) == text;
      [text]
    else
      var end := if sentences then SentenceMatch(text, i) else ParagraphMatch(text, i);
      if end == i then SplitFrom(text, i + 1, sentences)
      else
        var rest := SplitFrom(text[end..], 0, sentences);
        assert Solid(Concat([text[..i]] + rest)) == Solid(text) by {
          CutAtBlank(text, i, end, rest);
        }
        [text[..i]] + rest
  }

  lemma CutAtBlank(text: string, i: nat, end: nat, rest: seq<string>)
    requires i <= end <= |text| && Blank(text[i..end]) && Solid(Concat(rest)) == Solid(text[end..])
    ensures Solid(Concat([text[..i]] + rest)) == Solid(text)
  {
    assert text == text[..i] + text[i..end] + text[end..];
    SolidConcat(text[..i] + text[i..end], text[end..]);
    SolidConcat(text[..i], text[i..end]);
    SolidBlank(text[i..end]);
    SolidConcat(text[..i], Concat(rest));
    assert ([text[..i]] + rest)[1..] == rest;
  }

  function Paragraphs(text: string): seq<string> {
    SplitFrom(text, 0, false)
  }

  function SentenceSplit(paragraph: string): seq<string> {
    SplitFrom(paragraph, 0, true)
  }

  // ----- Pieces -----

  /** A sentence as it is, or cut at a fixed length when it is too long for one passage. */
  function HardCuts(sentence: string, limit: nat): seq<string>
    requires limit > 0
  {
    if |sentence| <= limit then [sentence]
    else [sentence[..limit]] + HardCuts(sentence[limit..], limit)
  }

  function SentenceParts(sentences: seq<string>, limit: nat): seq<string>
    requires limit > 0
  {
    if sentences == [] then [] else HardCuts(sentences[0], limit) + SentenceParts(sentences[1..], limit)
  }

  /** The parts that hold more than whitespace. */
  function NotBlank(parts: seq<string>): seq<string> {
    if parts == [] then []
    else (if Blank(parts[0]) then [] else [parts[0]]) + NotBlank(parts[1..])
  }

  function Sentences(paragraph: string, limit: nat): seq<string>
    requires limit > 0
  {
    NotBlank(SentenceParts(SentenceSplit(paragraph), limit))
  }

  function PiecesOfOne(paragraph: string, size: nat): seq<string>
    requires size > 0
  {
    var cleaned := Strip(paragraph);
    if cleaned == "" then [] else if |cleaned| > size then Sentences(cleaned, size) else [cleaned]
  }

  function PiecesOf(paragraphs: seq<string>, size: nat): seq<string>
    requires size > 0
  {
    if paragraphs == [] then [] else PiecesOfOne(paragraphs[0], size) + PiecesOf(paragraphs[1..], size)
  }

  function Pieces(text: string, size: nat): seq<string>
    requires size > 0
  {
    PiecesOf(Paragraphs(Strip(text)), size)
  }

  /** What every piece is: some text, not longer than a passage. */
  ghost predicate GoodPieces(pieces: seq<string>, size: nat) {
    forall k :: 0 <= k < |pieces| ==> |pieces[k]| <= size && !Blank(pieces[k])
  }

  // ----- Passages -----

  /** A passage, and the overlap it begins with: what was carried over from the passage before. */
  datatype Cut = Cut(passage: string, carried: string)

  /** `current[-overlap:].lstrip()`, or nothing when there is no overlap. */
  function Tail(current: string, overlap: nat): string {
    if overlap == 0 then ""
    else LStrip(if |current| <= overlap then current else current[|current| - overlap..])
  }

  function Candidate(current: string, piece: string): string {
    if current != "" then current + "\n\n" + piece else piece
  }

  /** What the next passage starts from: the carried tail and the piece that did not fit. */
  function Restart(tail: string, piece: string): string {
    if tail != "" then Strip(tail + "\n\n" + piece) else piece
  }

  /** The passages still to be written, with `current` under construction and `carried` the overlap it began with. */
  function CutsFrom(pieces: seq<string>, size: nat, overlap: nat, current: string, carried: string): seq<Cut> {
    if pieces == [] then
      if Strip(current) != "" then [Cut(Strip(current), carried)] else []
    else
      var candidate := Candidate(current, pieces[0]);
      if |candidate| <= size || current == "" then CutsFrom(pieces[1..], size, overlap, candidate, carried)
      else
        var tail := Tail(current, overlap);
        [Cut(Strip(current), carried)] +
        CutsFrom(pieces[1..], size, overlap, Restart(tail, pieces[0]), tail)
  }

  /** The overlap actually used: never negative, never more than half a passage. */
  function Clamp(overlap: int, size: nat): nat {
    if overlap <= 0 then 0 else if overlap <= size / 2 then overlap else size / 2
  }

  function Cuts(text: string, size: nat, overlap: int): seq<Cut>
    requires size > 0
  {
    CutsFrom(Pieces(text, size), size, Clamp(overlap, size), "", "")
  }

  function Passages(cuts: seq<Cut>): (r: seq<string>)
    ensures |r| == |cuts| && forall k :: 0 <= k < |r| ==> r[k] == cuts[k].passage
  {
    seq(|cuts|, k requires 0 <= k < |cuts| => cuts[k].passage)
  }

  // ----- The loops -----

  method HardCut(sentence: string, limit: nat) returns (cuts: seq<string>)
    requires limit > 0
    ensures cuts == HardCuts(sentence, limit)
  {
    if |sentence| <= limit {
      return [sentence];
    }
    cuts := [];
    var index := 0;
    while index < |sentence|
      invariant 0 <= index <= |sentence| ==> cuts + Rest(sentence, index, limit) == HardCuts(sentence, limit)
      invariant index > |sentence| ==> cuts == HardCuts(sentence, limit)
      invariant 0 <= index
    {
      var end := if index + limit <= |sentence| then index + limit else |sentence|;
      RestStep(sentence, index, limit);
      if index + limit < |sentence| {
        Regroup(cuts, [sentence[index..end]], Rest(sentence, index + limit, limit));
      } else {
        assert sentence[index..end] == sentence[index..];
      }
      cuts := cuts + [sentence[index..end]];
      assert cuts + [] == cuts;
      index := index + limit;
    }
  }

  /** The cuts from `index` on; nothing is left at the end of the sentence. */
  ghost function Rest(sentence: string, index: nat, limit: nat): seq<string>
    requires index <= |sentence| && limit > 0
  {
    if index == |sentence| then [] else HardCuts(sentence[index..], limit)
  }

  lemma RestStep(sentence: string, index: nat, limit: nat)
    requires index < |sentence| && limit > 0
    ensures index + limit < |sentence| ==>
              Rest(sentence, index, limit) == [sentence[index..index + limit]] + Rest(sentence, index + limit, limit)
    ensures index + limit >= |sentence| ==> Rest(sentence, index, limit) == [sentence[index..]]
  {
    var left := sentence[index..];
    if |left| > limit {
      assert left[..limit] == sentence[index..index + limit] && left[limit..] == sentence[index + limit..];
    }
  }

  method DropBlank(parts: seq<string>) returns (kept: seq<string>)
    ensures kept == NotBlank(parts)
  {
    kept := [];
    for k := 0 to |parts|
      invariant kept + NotBlank(parts[k..]) == NotBlank(parts)
    {
      NotBlankStep(parts[k..]);
      StripIsTrimmed(parts[k]);
      assert parts[k..][1..] == parts[k + 1..];
      if Strip(parts[k]) != "" {
        Regroup(kept, [parts[k]], NotBlank(parts[k + 1..]));
        kept := kept + [parts[k]];
      }
    }
    assert parts[|parts|..] == [] && kept + [] == kept;
  }

  lemma NotBlankStep(parts: seq<string>)
    requires parts != []
    ensures !Blank(parts[0]) ==> NotBlank(parts) == [parts[0]] + NotBlank(parts[1..])
    ensures Blank(parts[0]) ==> NotBlank(parts) == NotBlank(parts[1..])
  {
  }

  method SplitSentences(paragraph: string, limit: nat) returns (kept: seq<string>)
    requires limit > 0
    ensures kept == Sentences(paragraph, limit)
  {
    var split := SentenceSplit(paragraph);
    var parts := [];
    for k := 0 to |split|
      invariant parts + SentenceParts(split[k..], limit) == SentenceParts(split, limit)
    {
      assert split[k..][1..] == split[k + 1..];
      var cuts := HardCut(split[k], limit);
      Regroup(parts, cuts, SentenceParts(split[k + 1..], limit));
      parts := parts + cuts;
    }
    assert split[|split|..] == [] && parts + [] == parts;
    kept := DropBlank(parts);
  }

  method CutParagraph(paragraph: string, size: nat) returns (pieces: seq<string>)
    requires size > 0
    ensures pieces == PiecesOfOne(paragraph, size)
  {
    var cleaned := Strip(paragraph);
    if cleaned == "" {
      return [];
    }
    if |cleaned| > size {
      pieces := SplitSentences(cleaned, size);
    } else {
      pieces := [cleaned];
    }
  }

  method CutPieces(text: string, size: nat) returns (pieces: seq<string>)
    requires size > 0
    ensures pieces == Pieces(text, size)
  {
    var paragraphs := Paragraphs(Strip(text));
    pieces := [];
    for k := 0 to |paragraphs|
      invariant pieces + PiecesOf(paragraphs[k..], size) == PiecesOf(paragraphs, size)
    {
      assert paragraphs[k..][1..] == paragraphs[k + 1..];
      var more := CutParagraph(paragraphs[k], size);
      Regroup(pieces, more, PiecesOf(paragraphs[k + 1..], size));
      pieces := pieces + more;
    }
    assert paragraphs[|paragraphs|..] == [] && pieces + [] == pieces;
  }

  /** What the loop still has to write, from piece `k` on. */
  lemma CutsStep(pieces: seq<string>, size: nat, overlap: nat, current: string, carried: string)
    requires pieces != []
    ensures var candidate, tail := Candidate(current, pieces[0]), Tail(current, overlap);
            CutsFrom(pieces, size, overlap, current, carried) ==
            if |candidate| <= size || current == "" then CutsFrom(pieces[1..], size, overlap, candidate, carried)
            else [Cut(Strip(current), carried)] +
                 CutsFrom(pieces[1..], size, overlap, Restart(tail, pieces[0]), tail)
  {
    hide Candidate, Tail, Restart, Strip;
  }

  lemma CutsEnd(size: nat, overlap: nat, current: string, carried: string)
    ensures CutsFrom([], size, overlap, current, carried) ==
            if Strip(current) != "" then [Cut(Strip(current), carried)] else []
  {
    hide Strip;
  }

  lemma NoPassages()
    ensures Passages([]) == []
  {
  }

  lemma OnePassageMore(cuts: seq<Cut>, cut: Cut)
    ensures Passages(cuts + [cut]) == Passages(cuts) + [cut.passage]
  {
  }

  method Accumulate(pieces: seq<string>, size: nat, overlap: nat) returns (passages: seq<string>)
    ensures passages == Passages(CutsFrom(pieces, size, overlap, "", ""))
  {
    hide CutsFrom, Candidate, Tail, Restart, Strip, Passages;
    passages := [];
    var current := "";
    ghost var done, carried := [], "";
    NoPassages();
    for k := 0 to |pieces|
      invariant done + CutsFrom(pieces[k..], size, overlap, current, carried) == CutsFrom(pieces, size, overlap, "", "")
      invariant passages == Passages(done)
    {
      assert pieces[k..][0] == pieces[k] && pieces[k..][1..] == pieces[k + 1..];
      CutsStep(pieces[k..], size, overlap, current, carried);
      var candidate := Candidate(current, pieces[k]);
      if |candidate| <= size || current == "" {
        current := candidate;
      } else {
        var tail := Tail(current, overlap);
        passages := passages + [Strip(current)];
        Regroup(done, [Cut(Strip(current), carried)],
                CutsFrom(pieces[k + 1..], size, overlap, Restart(tail, pieces[k]), tail));
        OnePassageMore(done, Cut(Strip(current), carried));
        done := done + [Cut(Strip(current), carried)];
        current, carried := Restart(tail, pieces[k]), tail;
      }
    }
    assert pieces[|pieces|..] == [] && done + [] == done;
    CutsEnd(size, overlap, current, carried);
    if Strip(current) != "" {
      passages := passages + [Strip(current)];
      OnePassageMore(done, Cut(Strip(current), carried));
    }
  }

  method Chunk(text: string, size: int := DEFAULT_CHUNK_CHARS, overlap: int := DEFAULT_OVERLAP_CHARS)
    returns (r: Result<seq<string>, string>)
    ensures r.Err? <==> size <= 0
    ensures r.Ok? ==> r.value == Passages(Cuts(text, size, overlap))
  {
    if size <= 0 {
      return Err("A chunk has to have a size");
    }
    var pieces := CutPieces(text, size);
    var passages := Accumulate(pieces, size, Clamp(overlap, size));
    return Ok(passages);
  }

  // ----- What pieces are -----

  ghost predicate AllWithin(parts: seq<string>, limit: nat) {
    forall k :: 0 <= k < |parts| ==> |parts[k]| <= limit
  }

  lemma {:induction false} HardCutsKeepText(s: string, limit: nat)
    requires limit > 0
    ensures Concat(HardCuts(s, limit)) == s && AllWithin(HardCuts(s, limit), limit)
  {
    if |s| > limit {
      HardCutsKeepText(s[limit..], limit);
      assert s == s[..limit] + s[limit..];
    } else {
      assert Concat([s]) == s;
    }
  }

  lemma {:induction false} SentencePartsKeepText(sentences: seq<string>, limit: nat)
    requires limit > 0
    ensures Concat(SentenceParts(sentences, limit)) == Concat(sentences)
    ensures AllWithin(SentenceParts(sentences, limit), limit)
  {
    if sentences == [] {
    } else {
      SentencePartsKeepText(sentences[1..], limit);
      HardCutsKeepText(sentences[0], limit);
      ConcatAppend(HardCuts(sentences[0], limit), SentenceParts(sentences[1..], limit));
    }
  }

  lemma {:induction false} NotBlankKeepsText(parts: seq<string>, limit: nat)
    requires AllWithin(parts, limit)
    ensures Solid(Concat(NotBlank(parts))) == Solid(Concat(parts))
    ensures GoodPieces(NotBlank(parts), limit)
  {
    if parts == [] {
    } else {
      var first, rest := parts[0], parts[1..];
      NotBlankKeepsText(rest, limit);
      SolidConcat(first, Concat(rest));
      SolidConcat(first, Concat(NotBlank(rest)));
      SolidBlank(first);
      NotBlankStep(parts);
      assert ([first] + NotBlank(rest))[1..] == NotBlank(rest);
    }
  }

  lemma PiecesOfOneKeepText(paragraph: string, size: nat)
    requires size > 0
    ensures Solid(Concat(PiecesOfOne(paragraph, size))) == Solid(paragraph)
    ensures GoodPieces(PiecesOfOne(paragraph, size), size)
  {
    hide Strip, Solid, SplitFrom, SentenceParts, NotBlank;
    var cleaned := Strip(paragraph);
    SolidStrip(paragraph);
    StripIsTrimmed(paragraph);
    EmptySolid();
    if |cleaned| > size {
      SentencePartsKeepText(SentenceSplit(cleaned), size);
      NotBlankKeepsText(SentenceParts(SentenceSplit(cleaned), size), size);
    } else if cleaned != "" {
      ConcatOne(cleaned);
      assert !IsSpace(cleaned[0]);
    }
  }

  lemma EmptySolid()
    ensures Solid("") == "" && Concat([]) == ""
  {
  }

  lemma ConcatOne(s: string)
    ensures Concat([s]) == s
  {
    assert [s][1..] == [];
  }

  lemma {:induction false} PiecesKeepText(paragraphs: seq<string>, size: nat)
    requires size > 0
    ensures Solid(Concat(PiecesOf(paragraphs, size))) == Solid(Concat(paragraphs))
    ensures GoodPieces(PiecesOf(paragraphs, size), size)
  {
    if paragraphs == [] {
    } else {
      var first, rest := PiecesOfOne(paragraphs[0], size), PiecesOf(paragraphs[1..], size);
      PiecesKeepText(paragraphs[1..], size);
      PiecesOfOneKeepText(paragraphs[0], size);
      ConcatAppend(first, rest);
      SolidConcat(Concat(first), Concat(rest));
      SolidConcat(paragraphs[0], Concat(paragraphs[1..]));
    }
  }

  /** The pieces hold the text, in order, and none is blank or longer than a passage. */
  lemma PiecesHoldTheText(text: string, size: nat)
    requires size > 0
    ensures Solid(Concat(Pieces(text, size))) == Solid(text)
    ensures GoodPieces(Pieces(text, size), size)
  {
    PiecesKeepText(Paragraphs(Strip(text)), size);
    SolidStrip(text);
  }

  // ----- Conservation -----

  /** What a cut adds: its passage without the overlap it begins with. */
  function Fresh(cut: Cut): string
    requires cut.carried <= cut.passage
  {
    Solid(cut.passage[|cut.carried|..])
  }

  ghost predicate CarriesAreHeads(cuts: seq<Cut>) {
    forall k :: 0 <= k < |cuts| ==> cuts[k].carried <= cuts[k].passage
  }

  function FreshText(cuts: seq<Cut>): string
    requires CarriesAreHeads(cuts)
  {
    if cuts == [] then ""
    else
      assert CarriesAreHeads(cuts[1..]);
      Fresh(cuts[0]) + FreshText(cuts[1..])
  }

  /** Stripping text that begins with a carried overlap keeps the overlap and everything solid after it. */
  lemma StripKeepsHead(head: string, rest: string)
    requires (head == "" || !IsSpace(head[0])) && !Blank(rest)
    ensures head <= Strip(head + rest) && Solid(Strip(head + rest)[|head|..]) == Solid(rest)
  {
    if head == "" {
      assert head + rest == rest && Strip(rest)[0..] == Strip(rest);
      SolidStrip(rest);
    } else {
      var lead := StripSplits(head + rest);
      WindowKeepsHead(head, rest, lead, |Strip(head + rest)|);
    }
  }

  lemma WindowKeepsHead(head: string, rest: string, lead: nat, n: nat)
    requires head != "" && !IsSpace(head[0]) && !Blank(rest) && lead + n <= |head + rest|
    requires forall k :: 0 <= k < lead || lead + n <= k < |head + rest| ==> IsSpace((head + rest)[k])
    ensures head <= (head + rest)[lead..lead + n]
    ensures Solid((head + rest)[lead..lead + n][|head|..]) == Solid(rest)
  {
    var s, i := head + rest, NotBlankIndex(rest);
    assert s[0] == head[0] && lead == 0 && s[|head| + i] == rest[i];
    var m := n - |head|;
    assert s[..n] == head + rest[..m] && s[..n][|head|..] == rest[..m];
    assert rest == rest[..m] + rest[m..];
    assert forall k :: 0 <= k < |rest[m..]| ==> rest[m..][k] == s[n + k];
    SolidConcat(rest[..m], rest[m..]);
    SolidBlank(rest[m..]);
  }

  function NotBlankIndex(s: string): (i: nat)
    requires !Blank(s)
    ensures i < |s| && !IsSpace(s[i])
  {
    if !IsSpace(s[0]) then 0
    else
      assert !Blank(s[1..]) by { assert forall k :: 1 <= k < |s| ==> s[k] == s[1..][k - 1]; }
      NotBlankIndex(s[1..]) + 1
  }

  /** The passage under construction: it begins with the carried overlap and has text after it. */
  ghost predicate UnderWay(current: string, carried: string) {
    && carried <= current
    && (carried == "" || !IsSpace(carried[0]))
    && (current != "" ==> !Blank(current[|carried|..]))
    && (current == "" ==> carried == "")
  }

  lemma CandidateIsUnderWay(current: string, carried: string, piece: string)
    requires UnderWay(current, carried) && !Blank(piece)
    ensures UnderWay(Candidate(current, piece), carried)
    ensures Solid(Candidate(current, piece)[|carried|..]) == Solid(current[|carried|..]) + Solid(piece)
  {
    hide Solid, NotBlankIndex;
    var rest := current[|carried|..];
    if current != "" {
      assert current == carried + rest;
      var candidate := current + "\n\n" + piece;
      assert candidate[|carried|..] == rest + ("\n\n" + piece);
      SolidAfterBreak(rest, piece);
    } else {
      assert piece[0..] == piece && rest == "";
      EmptySolid();
    }
  }

  lemma SolidAfterBreak(before: string, piece: string)
    requires !Blank(piece)
    ensures Solid(before + ("\n\n" + piece)) == Solid(before) + Solid(piece)
    ensures !Blank(before + ("\n\n" + piece))
  {
    hide Solid, NotBlankIndex;
    SolidConcat(before, "\n\n" + piece);
    SolidConcat("\n\n", piece);
    SolidBlank("\n\n");
    var i := NotBlankIndex(piece);
    assert (before + ("\n\n" + piece))[|before| + 2 + i] == piece[i];
  }

  lemma LStripIsSuffix(s: string)
    ensures Suffix(LStrip(s), s) && (LStrip(s) == "" || !IsSpace(LStrip(s)[0]))
  {
    hide SkipSpaces;
    var i := SkipSpaces(s, 0);
    assert LStrip(s) == s[i..];
  }

  lemma SuffixOfSuffix(w: string, s: string, n: nat)
    requires n <= |s| && Suffix(w, s[n..])
    ensures Suffix(w, s)
  {
    var cut := s[n..];
    assert w == cut[|cut| - |w|..] == s[|s| - |w|..];
  }

  lemma TailIsSuffix(current: string, overlap: nat)
    ensures Suffix(Tail(current, overlap), current) && |Tail(current, overlap)| <= overlap
    ensures Tail(current, overlap) == "" || !IsSpace(Tail(current, overlap)[0])
  {
    hide LStrip, Suffix;
    if overlap == 0 {
      NothingIsSuffix(current);
    } else if |current| <= overlap {
      LStripIsSuffix(current);
      SuffixIsShorter(LStrip(current), current);
    } else {
      var cut := current[|current| - overlap..];
      LStripIsSuffix(cut);
      SuffixIsShorter(LStrip(cut), cut);
      SuffixOfSuffix(LStrip(cut), current, |current| - overlap);
    }
  }

  lemma NothingIsSuffix(s: string)
    ensures Suffix("", s)
  {
  }

  lemma SuffixIsShorter(w: string, s: string)
    requires Suffix(w, s)
    ensures |w| <= |s|
  {
  }

  ghost predicate Suffix(w: string, s: string) {
    |w| <= |s| && s[|s| - |w|..] == w
  }

  lemma RestartIsUnderWay(tail: string, piece: string)
    requires (tail == "" || !IsSpace(tail[0])) && !Blank(piece)
    ensures UnderWay(Restart(tail, piece), tail)
    ensures Solid(Restart(tail, piece)[|tail|..]) == Solid(piece)
    ensures |Restart(tail, piece)| <= |piece| + (if tail == "" then 0 else |tail| + 2)
  {
    hide Solid, Strip, NotBlankIndex;
    if tail != "" {
      var rest := "\n\n" + piece;
      var i := NotBlankIndex(piece);
      StripNoLonger(tail + "\n\n" + piece);
      assert rest[2 + i] == piece[i] && tail + "\n\n" + piece == tail + rest;
      StripKeepsHead(tail, rest);
      SolidConcat("\n\n", piece);
      SolidBlank("\n\n");
      SolidBlank(piece);
      SolidBlank(Restart(tail, piece)[|tail|..]);
    } else {
      assert piece[0..] == piece;
    }
  }

  lemma StripNoLonger(s: string)
    ensures |Strip(s)| <= |s|
  {
    var lead := StripSplits(s);
  }

  lemma FinishedPassage(current: string, carried: string)
    requires UnderWay(current, carried) && current != ""
    ensures carried <= Strip(current) && Strip(current) != ""
    ensures Fresh(Cut(Strip(current), carried)) == Solid(current[|carried|..])
  {
    hide Strip, Solid, NotBlankIndex;
    assert current == carried + current[|carried|..];
    StripKeepsHead(carried, current[|carried|..]);
    StripIsTrimmed(current);
    var i := NotBlankIndex(current[|carried|..]);
    assert current[|carried| + i] == current[|carried|..][i];
  }

  /** The cuts are well formed and hold exactly this text. */
  ghost predicate Hold(cuts: seq<Cut>, text: string) {
    CarriesAreHeads(cuts) && FreshText(cuts) == text
  }

  lemma HoldOne(cut: Cut, rest: seq<Cut>, a: string, b: string)
    requires cut.carried <= cut.passage && Fresh(cut) == a && Hold(rest, b)
    ensures Hold([cut] + rest, a + b)
  {
    FreshTextCons(cut, rest);
  }

  lemma EmptyHold()
    ensures Hold([], "") && Strip("") == ""
  {
  }

  lemma {:induction false} CutsKeepText(
      pieces: seq<string>, size: nat, overlap: nat, current: string, carried: string)
    requires GoodPieces(pieces, size) && UnderWay(current, carried)
    ensures Hold(CutsFrom(pieces, size, overlap, current, carried),
                 Solid(current[|carried|..]) + Solid(Concat(pieces)))
    decreases |pieces|
  {
    hide CutsFrom, Strip, Solid, Tail, Restart, Candidate, Hold, Fresh, Concat;
    CutsEnd(size, overlap, current, carried);
    EmptySolid();
    if pieces == [] {
      EmptyHold();
      assert current == "" ==> current[|carried|..] == "";
      assert Solid(current[|carried|..]) + "" == Solid(current[|carried|..]);
      if current != "" {
        FinishedPassage(current, carried);
        assert [Cut(Strip(current), carried)] + [] == [Cut(Strip(current), carried)];
        HoldOne(Cut(Strip(current), carried), [], Solid(current[|carried|..]), "");
      }
    } else {
      var piece, more := pieces[0], pieces[1..];
      assert GoodPieces(more, size) && !Blank(piece);
      CutsStep(pieces, size, overlap, current, carried);
      ConcatFirst(pieces);
      SolidConcat(piece, Concat(more));
      var candidate := Candidate(current, piece);
      if |candidate| <= size || current == "" {
        CandidateIsUnderWay(current, carried, piece);
        CutsKeepText(more, size, overlap, candidate, carried);
        Regroup(Solid(current[|carried|..]), Solid(piece), Solid(Concat(more)));
      } else {
        var tail := Tail(current, overlap);
        FinishedPassage(current, carried);
        TailIsSuffix(current, overlap);
        RestartIsUnderWay(tail, piece);
        CutsKeepText(more, size, overlap, Restart(tail, piece), tail);
        HoldOne(Cut(Strip(current), carried), CutsFrom(more, size, overlap, Restart(tail, piece), tail),
                Solid(current[|carried|..]), Solid(piece) + Solid(Concat(more)));
      }
    }
  }

  lemma FreshTextCons(cut: Cut, rest: seq<Cut>)
    requires cut.carried <= cut.passage && CarriesAreHeads(rest)
    ensures CarriesAreHeads([cut] + rest)
    ensures FreshText([cut] + rest) == Fresh(cut) + FreshText(rest)
  {
    assert ([cut] + rest)[1..] == rest;
  }

  /** Nothing is lost, invented or moved: without the overlap each passage begins with, the passages hold exactly the
      text's characters, whitespace aside, in the text's order. */
  lemma ChunkingConservesText(text: string, size: nat, overlap: int)
    requires size > 0
    ensures CarriesAreHeads(Cuts(text, size, overlap))
    ensures FreshText(Cuts(text, size, overlap)) == Solid(text)
  {
    hide Pieces, Solid, Strip, CutsFrom, Concat;
    PiecesHoldTheText(text, size);
    CutsKeepText(Pieces(text, size), size, Clamp(overlap, size), "", "");
    EmptySolid();
    assert ""[0..] == "";
  }

  // ----- The overlap -----

  /** Where a suffix of a text ends once trailing whitespace is gone: where the text itself does. */
  lemma TailEndsThePassage(current: string, tail: string)
    requires Suffix(tail, current) && (tail == "" || !IsSpace(tail[0]))
    ensures Suffix(Strip(tail), Strip(current))
  {
    var lead, lead' := StripBoth(current, tail);
    EndTogether(current, tail, Strip(current), Strip(tail), lead, lead');
  }

  lemma EndTogether(s: string, tail: string, s': string, tail': string, lead: nat, lead': nat)
    requires Suffix(tail, s) && (tail == "" || !IsSpace(tail[0]))
    requires Window(s, lead, |s'|) && s' == s[lead..lead + |s'|]
    requires Window(tail, lead', |tail'|) && tail' == tail[lead'..lead' + |tail'|]
    ensures Suffix(tail', s')
  {
    if tail != "" {
      WindowsEndTogether(s, tail, lead, |s'|, lead', |tail'|);
    }
  }

  lemma StripBoth(s: string, t: string) returns (lead: nat, lead': nat)
    ensures Window(s, lead, |Strip(s)|) && Strip(s) == s[lead..lead + |Strip(s)|]
    ensures Window(t, lead', |Strip(t)|) && Strip(t) == t[lead'..lead' + |Strip(t)|]
  {
    lead := StripSplits(s);
    lead' := StripSplits(t);
  }

  /** `s[lead..lead + n]` is what is left of `s` without the whitespace at its ends. */
  ghost predicate Window(s: string, lead: nat, n: nat) {
    && lead + n <= |s|
    && (forall k :: 0 <= k < lead || lead + n <= k < |s| ==> IsSpace(s[k]))
    && (n > 0 ==> !IsSpace(s[lead]) && !IsSpace(s[lead + n - 1]))
  }

  lemma WindowsEndTogether(s: string, tail: string, lead: nat, n: nat, lead': nat, m: nat)
    requires Suffix(tail, s) && tail != "" && !IsSpace(tail[0])
    requires Window(s, lead, n) && Window(tail, lead', m)
    ensures Suffix(tail[lead'..lead' + m], s[lead..lead + n])
  {
    var t := |s| - |tail|;
    assert forall k :: 0 <= k < |tail| ==> tail[k] == s[t..][k] == s[t + k];
    assert s[t] == tail[0] && lead <= t && lead' == 0 && m > 0 && n > 0;
    assert s[t + m - 1] == tail[m - 1];
    assert forall k :: t + m <= k < |s| ==> s[k] == tail[k - t];
    assert t + m == lead + n;
    assert forall k :: 0 <= k < m ==> s[lead..lead + n][n - m + k] == s[t + k] == tail[..m][k];
  }

  /** The first passage begins with `carried`; each later one carries at most `overlap` characters, and they are how
      the passage before it ends. */
  ghost predicate CarriesFrom(cuts: seq<Cut>, overlap: nat, carried: string) {
    && (cuts != [] ==> cuts[0].carried == carried)
    && forall k :: 1 <= k < |cuts| ==>
         |cuts[k].carried| <= overlap && Suffix(Strip(cuts[k].carried), cuts[k - 1].passage)
  }

  lemma CarriesOne(cut: Cut, rest: seq<Cut>, overlap: nat, tail: string)
    requires CarriesFrom(rest, overlap, tail) && |tail| <= overlap && Suffix(Strip(tail), cut.passage)
    ensures CarriesFrom([cut] + rest, overlap, cut.carried)
  {
    assert forall k :: 1 <= k <= |rest| ==> ([cut] + rest)[k] == rest[k - 1];
  }

  lemma {:induction false} CutsCarry(pieces: seq<string>, size: nat, overlap: nat, current: string, carried: string)
    ensures CarriesFrom(CutsFrom(pieces, size, overlap, current, carried), overlap, carried)
    decreases |pieces|
  {
    hide CutsFrom, Strip, Tail, Restart, Candidate, Suffix;
    CutsEnd(size, overlap, current, carried);
    if pieces == [] {
    } else {
      CutsStep(pieces, size, overlap, current, carried);
      var piece, candidate := pieces[0], Candidate(current, pieces[0]);
      if |candidate| <= size || current == "" {
        CutsCarry(pieces[1..], size, overlap, candidate, carried);
      } else {
        var tail := Tail(current, overlap);
        TailIsSuffix(current, overlap);
        TailEndsThePassage(current, tail);
        CutsCarry(pieces[1..], size, overlap, Restart(tail, piece), tail);
        CarriesOne(Cut(Strip(current), carried), CutsFrom(pieces[1..], size, overlap, Restart(tail, piece), tail),
                   overlap, tail);
      }
    }
  }

  lemma OverlapIsThePreviousEnd(text: string, size: nat, overlap: int)
    requires size > 0
    ensures CarriesFrom(Cuts(text, size, overlap), Clamp(overlap, size), "")
  {
    CutsCarry(Pieces(text, size), size, Clamp(overlap, size), "", "");
  }

  // ----- How long a passage is -----

  /** What a carried overlap adds to the length of a passage: itself and the paragraph break after it. */
  function Extra(carried: string): nat {
    if carried == "" then 0 else |carried| + 2
  }

  lemma {:induction false} CutLengths(pieces: seq<string>, size: nat, overlap: nat, current: string, carried: string)
    requires GoodPieces(pieces, size) && |current| <= size + Extra(carried)
    ensures forall cut :: cut in CutsFrom(pieces, size, overlap, current, carried) ==>
              |cut.passage| <= size + Extra(cut.carried)
    decreases |pieces|
  {
    hide CutsFrom, Strip, Tail, Restart;
    StripNoLonger(current);
    CutsEnd(size, overlap, current, carried);
    if pieces == [] {
    } else {
      CutsStep(pieces, size, overlap, current, carried);
      assert GoodPieces(pieces[1..], size);
      var candidate := Candidate(current, pieces[0]);
      if |candidate| <= size || current == "" {
        CutLengths(pieces[1..], size, overlap, candidate, carried);
      } else {
        var tail := Tail(current, overlap);
        TailIsSuffix(current, overlap);
        RestartIsUnderWay(tail, pieces[0]);
        CutLengths(pieces[1..], size, overlap, Restart(tail, pieces[0]), tail);
      }
    }
  }

  /** A passage fits its size, plus the overlap it begins with and the break after that: with an overlap it may be
      longer than `size`, without one it never is. */
  lemma PassageLengths(text: string, size: nat, overlap: int, cut: Cut)
    requires size > 0 && cut in Cuts(text, size, overlap)
    ensures |cut.passage| <= size + Extra(cut.carried)
    ensures |cut.passage| <= if overlap <= 0 then size else size + Clamp(overlap, size) + 2
  {
    PiecesHoldTheText(text, size);
    CutLengths(Pieces(text, size), size, Clamp(overlap, size), "", "");
    OverlapIsThePreviousEnd(text, size, overlap);
  }

  /** The bound is exact: for every size and overlap there is a text one of whose passages is exactly
      `size + overlap + 2` long, two paragraphs of `size` characters each. */
  lemma LongestPassageIsReached(size: nat, overlap: nat)
    requires 1 <= overlap <= size / 2
    ensures exists text, cut :: cut in Cuts(text, size, overlap) && |cut.passage| == size + overlap + 2
  {
    var a := seq(size, _ => 'a');
    TwoPieces(a, size);
    var cut := SecondCut(a, size, overlap);
    assert cut in Cuts(a + "\n\n" + a, size, overlap);
  }

  lemma TwoPieces(a: string, size: nat)
    requires |a| == size > 0 && forall k :: 0 <= k < |a| ==> a[k] == 'a'
    ensures Pieces(a + "\n\n" + a, size) == [a, a]
  {
    var text := a + "\n\n" + a;
    TwoParagraphs(a, text);
    WholeTextStrip(a);
    WholeTextStrip(text);
    assert [a, a][1..] == [a] && [a][1..] == [];
    assert PiecesOf([a], size) == [a];
  }

  lemma SecondCut(a: string, size: nat, overlap: nat) returns (cut: Cut)
    requires |a| == size && 1 <= overlap < size && forall k :: 0 <= k < |a| ==> a[k] == 'a'
    ensures cut in CutsFrom([a, a], size, overlap, "", "") && |cut.passage| == size + overlap + 2
  {
    hide CutsFrom, Strip, LStrip, Tail;
    var tail := a[size - overlap..];
    var last := tail + "\n\n" + a;
    assert last[0] == 'a' && last[|last| - 1] == 'a';
    WholeTextStrip(tail);
    WholeTextStrip(last);
    TailOf(a, overlap);
    TwoCuts([a, a], size, overlap, tail, last);
    cut := Cut(last, tail);
  }

  lemma TailOf(current: string, overlap: nat)
    requires 0 < overlap < |current|
    ensures Tail(current, overlap) == LStrip(current[|current| - overlap..])
  {
  }

  /** Two pieces that do not fit one passage, from the start to the end of the loop. */
  lemma TwoCuts(pieces: seq<string>, size: nat, overlap: nat, tail: string, last: string)
    requires |pieces| == 2 && pieces[0] != "" && |Candidate(pieces[0], pieces[1])| > size
    requires Tail(pieces[0], overlap) == tail && Restart(tail, pieces[1]) == last && Strip(last) == last != ""
    ensures Cut(last, tail) in CutsFrom(pieces, size, overlap, "", "")
  {
    FirstCandidate(pieces, size, overlap);
    var second := pieces[1..];
    assert second[0] == pieces[1] && second[1..] == [];
    PushCut(second, size, overlap, pieces[0], "");
    LastCut(size, overlap, last, tail);
  }

  lemma FirstCandidate(pieces: seq<string>, size: nat, overlap: nat)
    requires pieces != []
    ensures CutsFrom(pieces, size, overlap, "", "") == CutsFrom(pieces[1..], size, overlap, pieces[0], "")
  {
  }

  lemma LastCut(size: nat, overlap: nat, current: string, carried: string)
    requires Strip(current) == current != ""
    ensures CutsFrom([], size, overlap, current, carried) == [Cut(current, carried)]
  {
  }

  lemma PushCut(pieces: seq<string>, size: nat, overlap: nat, current: string, carried: string)
    requires pieces != [] && current != "" && |Candidate(current, pieces[0])| > size
    ensures var tail := Tail(current, overlap);
            CutsFrom(pieces, size, overlap, current, carried) ==
            [Cut(Strip(current), carried)] + CutsFrom(pieces[1..], size, overlap, Restart(tail, pieces[0]), tail)
  {
  }

  /** Text with no whitespace at either end is its own strip. */
  lemma WholeTextStrip(s: string)
    requires Trimmed(s)
    ensures Strip(s) == s && LStrip(s) == s
  {
  }

  lemma TwoParagraphs(a: string, text: string)
    requires |a| > 0 && (forall k :: 0 <= k < |a| ==> a[k] == 'a') && text == a + "\n\n" + a
    ensures Paragraphs(text) == [a, a]
  {
    var n := |a|;
    assert ParagraphMatch(text, n) == n + 2 by {
      assert text[n] == '\n' && text[n + 1] == '\n' && text[n + 2] == 'a';
      assert RunEnd(text, n + 2) == n + 2 && RunEnd(text, n + 1) == n + 2;
    }
    assert text[n + 2..] == a && text[..n] == a;
    NoMatchBefore(a, n, 0);
    assert SplitFrom(a, n, false) == [a];
    NoMatchBefore(text, n, 0);
  }

  /** The scan passes over text without line breaks. */
  lemma {:induction false} NoMatchBefore(text: string, n: nat, i: nat)
    requires i <= n <= |text| && forall k :: 0 <= k < n ==> text[k] != '\n'
    ensures SplitFrom(text, i, false) == SplitFrom(text, n, false)
    decreases n - i
  {
    if i < n {
      NoMatchBefore(text, n, i + 1);
    }
  }

  // ----- Pieces stay whole -----

  /** Text that is whole in the passage under construction (`k` is -1), or is the `k`th piece still to come, is whole
      in some passage. */
  lemma {:induction false} WholeInSomePassage(
      pieces: seq<string>, size: nat, overlap: nat, current: string, carried: string, w: string, k: int)
      returns (cut: Cut)
    requires Trimmed(w) && -1 <= k < |pieces|
    requires if k == -1 then Infix(w, current) else w == Strip(pieces[k])
    ensures cut in CutsFrom(pieces, size, overlap, current, carried) && Infix(w, cut.passage)
    decreases |pieces|
  {
    if pieces == [] {
      WholeInStrip(current, w);
      cut := Cut(Strip(current), carried);
    } else {
      var piece, more, candidate := pieces[0], pieces[1..], Candidate(current, pieces[0]);
      if k == 0 { StripIsTrimmed(piece); }
      var k' := if k <= 0 then -1 else k - 1;
      if |candidate| <= size || current == "" {
        WholeInCandidate(current, piece, w);
        cut := WholeInSomePassage(more, size, overlap, candidate, carried, w, k');
      } else if k == -1 {
        WholeInStrip(current, w);
        cut := Cut(Strip(current), carried);
      } else {
        var tail := Tail(current, overlap);
        WholeInRestart(tail, piece, w);
        cut := WholeInSomePassage(more, size, overlap, Restart(tail, piece), tail, w, k');
      }
    }
  }

  lemma WholeInStrip(current: string, w: string)
    requires Trimmed(w) && Infix(w, current)
    ensures Strip(current) != "" && Infix(w, Strip(current))
  {
    InfixOfStrip(w, current);
  }

  lemma WholeInCandidate(current: string, piece: string, w: string)
    ensures Infix(w, current) && w != "" ==> Infix(w, Candidate(current, piece))
    ensures Infix(w, piece) ==> Infix(w, Candidate(current, piece))
  {
    if Infix(w, current) && current != "" {
      InfixOfParts(w, "", current, "\n\n" + piece);
      assert "" + current + ("\n\n" + piece) == current + "\n\n" + piece;
    }
    if Infix(w, piece) {
      InfixOfParts(w, current + "\n\n", piece, "");
      assert current + "\n\n" + piece + "" == current + "\n\n" + piece;
    }
  }

  lemma WholeInRestart(tail: string, piece: string, w: string)
    requires Trimmed(w)
    ensures Infix(w, piece) ==> Infix(w, Restart(tail, piece))
  {
    if Infix(w, piece) && tail != "" {
      InfixOfParts(w, tail + "\n\n", piece, "");
      assert tail + "\n\n" + piece + "" == tail + "\n\n" + piece;
      InfixOfStrip(w, tail + "\n\n" + piece);
    }
  }

  /** Every piece lies whole in some passage, up to the whitespace trimmed at passage ends. */
  lemma PiecesStayWhole(text: string, size: nat, overlap: int, k: nat)
    requires size > 0 && k < |Pieces(text, size)|
    ensures exists cut :: cut in Cuts(text, size, overlap) && Infix(Strip(Pieces(text, size)[k]), cut.passage)
  {
    PiecesHoldTheText(text, size);
    StripIsTrimmed(Pieces(text, size)[k]);
    var cut := WholeInSomePassage(
      Pieces(text, size), size, Clamp(overlap, size), "", "", Strip(Pieces(text, size)[k]), k);
  }

  // ----- Cutting again -----

  /** The passages hold the text as a subsequence: the overlap only ever adds. */
  lemma {:induction false} FreshIsInPassages(cuts: seq<Cut>)
    requires CarriesAreHeads(cuts)
    ensures Subsequence(FreshText(cuts), Solid(Concat(Passages(cuts))))
  {
    if cuts == [] {
      assert Embeds("", Solid(Concat(Passages(cuts))), []);
    } else {
      var first, rest := cuts[0], cuts[1..];
      FreshIsInPassages(rest);
      assert Passages(cuts)[1..] == Passages(rest);
      SolidConcat(first.passage, Concat(Passages(rest)));
      assert first.passage == first.carried + first.passage[|first.carried|..];
      SolidConcat(first.carried, first.passage[|first.carried|..]);
      SuffixIsSubsequence(Solid(first.passage), |Solid(first.carried)|);
      assert Solid(first.passage)[|Solid(first.carried)|..] == Fresh(first);
      SubsequenceConcat(Fresh(first), Solid(first.passage), FreshText(rest), Solid(Concat(Passages(rest))));
    }
  }

  /** Joining stored passages and cutting them again. */
  function Again(passages: seq<string>, size: nat, overlap: int): seq<string>
    requires size > 0
  {
    Passages(Cuts(Join("\n\n", passages), size, overlap))
  }

  /** Cutting again `n` times over. */
  function Recut(passages: seq<string>, size: nat, overlap: int, n: nat): seq<string>
    requires size > 0
  {
    Iterate(p => Again(p, size, overlap), passages, n)
  }

  function Iterate<T>(step: T -> T, start: T, n: nat): T {
    if n == 0 then start else step(Iterate(step, start, n - 1))
  }

  lemma {:induction false} IterateKeeps<T(!new)>(step: T -> T, good: T -> bool, start: T, n: nat)
    requires good(start) && forall x :: good(x) ==> good(step(x))
    ensures good(Iterate(step, start, n))
  {
    if n > 0 {
      IterateKeeps(step, good, start, n - 1);
    }
  }

  lemma AgainKeepsText(original: string, passages: seq<string>, size: nat, overlap: int)
    requires size > 0 && Holds(original, passages)
    ensures Holds(original, Again(passages, size, overlap))
  {
    JoinIsSolid("\n\n", passages);
    TextIsInPassages(Join("\n\n", passages), size, overlap);
    SubsequenceTransitive(original, Solid(Concat(passages)), Solid(Concat(Again(passages, size, overlap))));
  }

  lemma TextIsInPassages(text: string, size: nat, overlap: int)
    requires size > 0
    ensures Holds(Solid(text), Passages(Cuts(text, size, overlap)))
  {
    ChunkingConservesText(text, size, overlap);
    FreshIsInPassages(Cuts(text, size, overlap));
  }

  /** The passages hold this text, in order, among their characters that are not whitespace. */
  ghost predicate Holds(original: string, passages: seq<string>) {
    Subsequence(original, Solid(Concat(passages)))
  }

  /** However often a document is cut again from its own passages, its text is still there, in order. */
  lemma TextSurvivesReindexing(text: string, size: nat, overlap: int, n: nat)
    requires size > 0
    ensures Holds(Solid(text), Recut(Passages(Cuts(text, size, overlap)), size, overlap, n))
  {
    TextIsInPassages(text, size, overlap);
    TextStays(Solid(text), Passages(Cuts(text, size, overlap)), size, overlap, n);
  }

  lemma TextStays(original: string, passages: seq<string>, size: nat, overlap: int, n: nat)
    requires size > 0 && Holds(original, passages)
    ensures Holds(original, Recut(passages, size, overlap, n))
  {
    var step: seq<string> -> seq<string> := p => Again(p, size, overlap);
    var keeps: seq<string> -> bool := p => Holds(original, p);
    forall p | keeps(p) ensures keeps(step(p)) {
      AgainKeepsText(original, p, size, overlap);
    }
    IterateKeeps(step, keeps, passages, n);
  }
}
