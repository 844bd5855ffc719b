/**
 * The frame around text that came from an external service (domain/integrations/untrusted.py).
 *
 * `Frame` puts a header line before the text and a closing marker after it, having rewritten every closing marker
 * inside. `ReadFrame` is the reader a frame is meant for: header up to the first newline, body up to the first
 * closing marker. Reading a frame gives back the header and the rewritten body, whatever the text was.
 */
module Framing {
  import opened Wrappers
  import opened Text

  const CLOSE: string := "<<<END_EXTERNAL_CONTENT>>>"
  const NEUTRALISED: string := "<<<END_EXTERNAL_CONTENT_>>>"

  function Open(origin: string): string {
    "<<<EXTERNAL_CONTENT origin=" + origin + ">>>"
  }

  predicate StartsWith(s: string, prefix: string) {
    |prefix| <= |s| && s[..|prefix|] == prefix
  }

  predicate OccursAt(s: string, p: int, marker: string) {
    0 <= p <= |s| - |marker| && s[p..p + |marker|] == marker
  }

  ghost predicate Contains(s: string, marker: string) {
    exists p :: OccursAt(s, p, marker)
  }

  /** Python's `str.replace`: left to right, without overlaps, never looking again at what was put in. */
  function Neutralise(content: string): string {
    if content == "" then ""
    else if StartsWith(content, CLOSE) then NEUTRALISED + Neutralise(content[|CLOSE|..])
    else [content[0]] + Neutralise(content[1..])
  }

  function Frame(content: string, origin: string): string {
    Open(origin) + "\n" + Neutralise(content) + "\n" + CLOSE
  }

  // ----- No marker survives -----

  /** The two markers: the same beginning, after which neither has an angle bracket that opens. */
  lemma MarkerShapes()
    ensures |CLOSE| == 26 && |NEUTRALISED| == 27
    ensures CLOSE[0] == CLOSE[1] == CLOSE[2] == '<' && CLOSE[3] == 'E' && CLOSE[23] == '>'
    ensures NEUTRALISED[0] == NEUTRALISED[1] == NEUTRALISED[2] == '<'
    ensures NEUTRALISED[3] == 'E' && NEUTRALISED[23] == '_'
    ensures forall j :: 3 <= j < 26 ==> CLOSE[j] != '<'
    ensures forall j :: 3 <= j < 27 ==> NEUTRALISED[j] != '<'
  {
    CloseTail();
    NeutralisedTail();
  }

  lemma CloseTail()
    ensures forall j :: 3 <= j < 26 ==> CLOSE[j] != '<'
  {
    var tail := "END_EXTERNAL_CONTENT>>>";
    assert CLOSE == "<<<" + tail && '<' !in tail;
    assert forall j :: 3 <= j < 26 ==> CLOSE[j] == tail[j - 3];
  }

  lemma NeutralisedTail()
    ensures forall j :: 3 <= j < 27 ==> NEUTRALISED[j] != '<'
  {
    var tail := "END_EXTERNAL_CONTENT_>>>";
    assert NEUTRALISED == "<<<" + tail && '<' !in tail;
    assert forall j :: 3 <= j < 27 ==> NEUTRALISED[j] == tail[j - 3];
  }

  /** Text that has this other character at this place does not have the marker there. */
  lemma NotTheMarker(text: string, p: nat, marker: string, k: nat)
    requires k < |marker| && p + k < |text| && text[p + k] != marker[k]
    ensures !OccursAt(text, p, marker)
  {
    assert p + |marker| <= |text| ==> text[p..p + |marker|][k] == text[p + k];
  }

  /** A marker does not begin inside a replaced one, and the rest of a marker does not begin with one. */
  lemma MarkersDoNotOverlap(rest: string, p: nat)
    requires p < |NEUTRALISED|
    ensures !OccursAt(NEUTRALISED + rest, p, CLOSE)
    ensures 1 <= p < |CLOSE| ==> !StartsWith(NEUTRALISED + rest, CLOSE[p..])
  {
    MarkerShapes();
    var text := NEUTRALISED + rest;
    NotTheMarker(text, p, CLOSE, if p == 0 then 23 else if p < 3 then 3 - p else 0);
    if 1 <= p < |CLOSE| {
      var k := if p < 3 then 3 - p else 0;
      NotTheMarker(text, 0, CLOSE[p..], k);
    }
  }

  /** Where the output goes on with the rest of a marker, the input did: replacing never completes a marker begun
      before it. */
  lemma {:induction false} TailIsCopied(s: string, j: nat)
    requires 1 <= j <= |CLOSE| && StartsWith(Neutralise(s), CLOSE[j..])
    ensures StartsWith(s, CLOSE[j..])
    decreases |s|
  {
    if j < |CLOSE| {
      var tail := CLOSE[j..];
      if StartsWith(s, CLOSE) {
        MarkersDoNotOverlap(Neutralise(s[|CLOSE|..]), j);
      } else {
        assert Neutralise(s)[..|tail|][0] == tail[0] && tail[1..] == CLOSE[j + 1..];
        var rest := Neutralise(s[1..]);
        assert Neutralise(s)[..|tail|] == [s[0]] + rest[..|tail| - 1];
        TailIsCopied(s[1..], j + 1);
        assert s[..|tail|] == [s[0]] + s[1..][..|tail| - 1];
      }
    }
  }

  lemma OccursLater(head: string, rest: string, p: nat, marker: string)
    requires p >= |head|
    ensures OccursAt(head + rest, p, marker) <==> OccursAt(rest, p - |head|, marker)
  {
    var q := p - |head|;
    assert q + |marker| <= |rest| ==> (head + rest)[p..p + |marker|] == rest[q..q + |marker|];
  }

  lemma OccursHere(c: char, rest: string, marker: string)
    requires marker != ""
    ensures OccursAt([c] + rest, 0, marker) <==> c == marker[0] && StartsWith(rest, marker[1..])
  {
    var text := [c] + rest;
    if |marker| <= |text| {
      assert text[..|marker|] == [c] + rest[..|marker| - 1];
      assert marker == [marker[0]] + marker[1..];
    }
  }

  /** No closing marker in the body, wherever replaced and copied text meet. */
  lemma {:induction false} NeutralisedHasNoMarker(content: string, p: nat)
    ensures !OccursAt(Neutralise(content), p, CLOSE)
    decreases |content|
  {
    hide OccursAt;
    if content == "" {
      NothingOccurs(p);
    } else if StartsWith(content, CLOSE) {
      var rest := Neutralise(content[|CLOSE|..]);
      if p < |NEUTRALISED| {
        MarkersDoNotOverlap(rest, p);
      } else {
        OccursLater(NEUTRALISED, rest, p, CLOSE);
        NeutralisedHasNoMarker(content[|CLOSE|..], p - |NEUTRALISED|);
      }
    } else {
      var rest := Neutralise(content[1..]);
      if p > 0 {
        OccursLater([content[0]], rest, p, CLOSE);
        NeutralisedHasNoMarker(content[1..], p - 1);
      } else {
        OccursHere(content[0], rest, CLOSE);
        OccursHere(content[0], content[1..], CLOSE);
        NotAtTheStart(content);
        if StartsWith(rest, CLOSE[1..]) {
          TailIsCopied(content[1..], 1);
        }
      }
    }
  }

  lemma NothingOccurs(p: nat)
    ensures !OccursAt("", p, CLOSE)
  {
  }

  lemma NotAtTheStart(content: string)
    requires content != "" && !StartsWith(content, CLOSE)
    ensures !OccursAt([content[0]] + content[1..], 0, CLOSE)
  {
    assert [content[0]] + content[1..] == content;
  }

  /** Text without a marker is left as it is; text with one is not. */
  lemma {:induction false} UnchangedIffNoMarker(content: string)
    ensures Neutralise(content) == content <==> !Contains(content, CLOSE)
    ensures |Neutralise(content)| >= |content|
  {
    if Contains(content, CLOSE) {
      var p :| OccursAt(content, p, CLOSE);
      NeutralisedHasNoMarker(content, p);
    }
    NoMarkerUnchanged(content);
  }

  lemma {:induction false} NoMarkerUnchanged(content: string)
    ensures !Contains(content, CLOSE) ==> Neutralise(content) == content
    ensures |Neutralise(content)| >= |content|
    decreases |content|
  {
    if content == "" {
    } else if StartsWith(content, CLOSE) {
      assert OccursAt(content, 0, CLOSE);
      NoMarkerUnchanged(content[|CLOSE|..]);
    } else {
      NoMarkerUnchanged(content[1..]);
      if p :| OccursAt(content[1..], p, CLOSE) {
        assert content[1..][p..p + |CLOSE|] == content[p + 1..p + 1 + |CLOSE|];
        assert OccursAt(content, p + 1, CLOSE);
      }
    }
  }

  // ----- Nothing but markers changes -----

  /** The text between the markers a left-to-right scan finds. */
  function Between(content: string): (r: seq<string>)
    ensures |r| > 0
    decreases |content|
  {
    if content == "" then [""]
    else if StartsWith(content, CLOSE) then [""] + Between(content[|CLOSE|..])
    else
      var rest := Between(content[1..]);
      [[content[0]] + rest[0]] + rest[1..]
  }

  /** The content is the text between its markers joined by the marker; the body is the same text joined by the
      replacement. So the markers a scan finds are rewritten, and everything else is kept in place. */
  lemma {:induction false} OnlyMarkersChange(content: string)
    ensures Join(CLOSE, Between(content)) == content
    ensures Join(NEUTRALISED, Between(content)) == Neutralise(content)
    decreases |content|
  {
    if content == "" {
    } else if StartsWith(content, CLOSE) {
      var after := content[|CLOSE|..];
      hide Join;
      OnlyMarkersChange(after);
      JoinAfterMarker(CLOSE, Between(after));
      JoinAfterMarker(NEUTRALISED, Between(after));
      assert content == CLOSE + after;
    } else {
      hide Join;
      OnlyMarkersChange(content[1..]);
      JoinHead(CLOSE, [content[0]], Between(content[1..]));
      JoinHead(NEUTRALISED, [content[0]], Between(content[1..]));
      assert content == [content[0]] + content[1..];
    }
  }

  lemma JoinAfterMarker(separator: string, parts: seq<string>)
    requires |parts| > 0
    ensures Join(separator, [""] + parts) == separator + Join(separator, parts)
  {
    assert ([""] + parts)[1..] == parts;
    assert "" + separator == separator;
  }

  lemma JoinHead(separator: string, head: string, parts: seq<string>)
    requires |parts| > 0
    ensures Join(separator, [head + parts[0]] + parts[1..]) == head + Join(separator, parts)
  {
    var all := [head + parts[0]] + parts[1..];
    assert all[1..] == parts[1..];
    if |parts| > 1 {
      assert head + parts[0] + separator + Join(separator, parts[1..]) ==
             head + (parts[0] + separator + Join(separator, parts[1..]));
    }
  }

  // ----- Reading a frame -----

  function IndexOf(s: string, marker: string, start: nat): (r: Option<nat>)
    requires start <= |s|
    ensures r.Some? ==> start <= r.value && OccursAt(s, r.value, marker)
    ensures r.Some? ==> forall p :: start <= p < r.value ==> !OccursAt(s, p, marker)
    ensures r.None? ==> forall p :: start <= p ==> !OccursAt(s, p, marker)
    decreases |s| - start
  {
    if OccursAt(s, start, marker) then Some(start)
    else if start == |s| then None
    else IndexOf(s, marker, start + 1)
  }

  datatype Reading = Reading(header: string, body: string, rest: string)

  /** The header is the first line; the body runs from there to the line break before the first closing marker;
      `rest` is whatever follows that marker. */
  function ReadFrame(text: string): Option<Reading> {
    match IndexOf(text, "\n", 0)
    case None => None
    case Some(eol) =>
      match IndexOf(text, CLOSE, eol + 1)
      case None => None
      case Some(end) =>
        if end <= eol + 1 then None
        else Some(Reading(text[..eol], text[eol + 1..end - 1], text[end + |CLOSE|..]))
  }

  function Lines(header: string, body: string): string {
    header + "\n" + body + "\n" + CLOSE
  }

  /** The first closing marker after the first line is the last line, when the body holds none. */
  lemma FirstMarkerIsTheLastLine(header: string, body: string, p: nat)
    requires |header| < p && !Contains(body, CLOSE)
    ensures OccursAt(Lines(header, body), p, CLOSE) <==> p == |Lines(header, body)| - |CLOSE|
  {
    var text := Lines(header, body);
    var q := p - |header| - 1;
    assert text == (header + "\n") + body + ("\n" + CLOSE);
    var last := |text| - |CLOSE|;
    if q + |CLOSE| <= |body| {
      assert text[p..p + |CLOSE|] == body[q..q + |CLOSE|];
      assert !OccursAt(body, q, CLOSE);
    } else if p < last {
      assert '\n' !in CLOSE && CLOSE[|body| - q] in CLOSE;
      NotTheMarker(text, p, CLOSE, |body| - q);
    } else if p == last {
      assert text[last..last + |CLOSE|] == CLOSE;
    }
  }

  lemma FirstIndex(s: string, marker: string, start: nat, at: nat)
    requires start <= at <= |s| && OccursAt(s, at, marker)
    requires forall p :: start <= p < at ==> !OccursAt(s, p, marker)
    ensures IndexOf(s, marker, start) == Some(at)
  {
  }

  lemma LineBreakAt(s: string, p: nat)
    requires p < |s|
    ensures OccursAt(s, p, "\n") <==> s[p] == '\n'
  {
    assert s[p..p + 1] == [s[p]];
  }

  lemma LinesReadBack(header: string, body: string)
    requires '\n' !in header && !Contains(body, CLOSE)
    ensures ReadFrame(Lines(header, body)) == Some(Reading(header, body, ""))
  {
    hide IndexOf, OccursAt, Contains;
    var text := Lines(header, body);
    var eol, last := |header|, |text| - |CLOSE|;
    assert forall k :: 0 <= k < eol ==> text[k] == header[k];
    forall p: nat | p <= eol ensures OccursAt(text, p, "\n") <==> p == eol {
      LineBreakAt(text, p);
    }
    FirstIndex(text, "\n", 0, eol);
    forall p: nat | eol < p <= last ensures OccursAt(text, p, CLOSE) <==> p == last {
      FirstMarkerIsTheLastLine(header, body, p);
    }
    FirstIndex(text, CLOSE, eol + 1, last);
    assert text[..eol] == header && text[eol + 1..last - 1] == body && text[last + |CLOSE|..] == "";
  }

  /** The header read from a text ends before its first line break. */
  lemma HeaderIsOneLine(header: string, body: string)
    ensures ReadFrame(Lines(header, body)).Some? ==> '\n' !in ReadFrame(Lines(header, body)).value.header
  {
    var text := Lines(header, body);
    var eol := IndexOf(text, "\n", 0);
    if eol.Some? {
      forall p | 0 <= p < eol.value ensures text[p] != '\n' {
        LineBreakAt(text, p);
      }
    }
  }

  /** Reading a frame back gives exactly its header and its body, for every content, when and only when the origin
      is a single line. */
  lemma FrameReadsBack(content: string, origin: string)
    ensures ReadFrame(Frame(content, origin)) == Some(Reading(Open(origin), Neutralise(content), ""))
            <==> '\n' !in origin
  {
    hide Neutralise, ReadFrame;
    var header, body := Open(origin), Neutralise(content);
    assert Frame(content, origin) == Lines(header, body);
    forall p: int ensures !OccursAt(body, p, CLOSE) {
      if p >= 0 { NeutralisedHasNoMarker(content, p); }
    }
    HeaderIsOneLine(header, body);
    if '\n' in origin {
      assert '\n' in header;
    } else {
      assert '\n' !in "<<<EXTERNAL_CONTENT origin=" && '\n' !in ">>>";
      LinesReadBack(header, body);
    }
  }

  /** Content that holds no marker is read back unchanged. */
  lemma PlainContentReadsBack(content: string, origin: string)
    requires '\n' !in origin
    ensures ReadFrame(Frame(content, origin)) == Some(Reading(Open(origin), content, ""))
            <==> !Contains(content, CLOSE)
  {
    FrameReadsBack(content, origin);
    UnchangedIffNoMarker(content);
  }

  // ----- Where the text is from -----

  /** What a header line says the text is from. */
  function OriginIn(header: string): string
    requires |header| >= 30
  {
    header[27..|header| - 3]
  }

  /** The header names the origin, and nothing of the text is in it. */
  lemma HeaderNamesTheOrigin(origin: string)
    ensures |Open(origin)| == |origin| + 30 && OriginIn(Open(origin)) == origin && "origin=" <= Open(origin)[20..]
  {
  }
}
