/** `Spotify.fetch_lyrics` of frontend/downloader/backend/spotify_api.py: the
    lyrics server's decoded reply (Static, Line or Syllable lyrics) flattened
    into a list of lines.  Start times are integer milliseconds. */
module Lyrics {
  import opened Base
  import opened Text

  /** An entry of `Content` of Line lyrics: `Type`, `Text` and `StartTime`. */
  datatype LineItem = LineItem(kind: string, text: string, startMs: int)

  /** One syllable of a Syllable line: `Text` and `IsPartOfWord`. */
  datatype Syllable = Syllable(text: string, isPartOfWord: bool)

  /** `Lead` of an entry of Syllable lyrics: `Syllables` and `StartTime`. */
  datatype Lead = Lead(syllables: seq<Syllable>, startMs: int)

  /** The decoded JSON body, by its `Type`; `Malformed` is a body missing a
      key the parser reads. */
  datatype Payload =
    | Static(lines: seq<string>)
    | LineSynced(items: seq<LineItem>)
    | SyllableSynced(leads: seq<Lead>)
    | OtherType
    | Malformed

  datatype Body = NotJson | Json(payload: Payload)

  /** Status code, the `content-length` header if present, and the body. */
  datatype Response = Response(status: int, contentLength: Option<string>, body: Body)

  datatype LyricLine = Plain(text: string) | Timed(text: string, startMs: int)

  /** The `Type` of the returned dictionary: 'Static', 'Dynamic' or 'None'. */
  datatype LyricsType = StaticType | DynamicType | NoneType

  /** The returned dictionary `{'Lyrics': lines, 'Type': kind}`. */
  datatype Lyrics = Lyrics(lines: seq<LyricLine>, kind: LyricsType)

  const NoLyrics := Lyrics([], NoneType)

  function LyricsUrl(trackId: string): string {
    "https://beautiful-lyrics.socalifornian.live/lyrics/" + trackId
  }

  /** The reply is parsed only with status 200 and a `content-length` that is
      not `'0'` (an absent header does not block). */
  predicate Answered(resp: Response) {
    resp.status == 200 && resp.contentLength != Some("0")
  }

  /** The `Lines[*].Text` of Static lyrics, one plain line each. */
  function StaticLines(lines: seq<string>): (r: seq<LyricLine>)
    ensures |r| == |lines|
    ensures forall k :: 0 <= k < |lines| ==> r[k] == Plain(lines[k])
    decreases |lines|
  {
    if lines == [] then [] else [Plain(lines[0])] + StaticLines(lines[1..])
  }

  predicate IsVocal(item: LineItem) {
    item.kind == "Vocal"
  }

  /** Line lyrics: the `Vocal` entries only, each stripped and timed. Every
      `Vocal` entry yields its line; `VocalLinesOne` and `VocalLinesAppend`
      together fix the order. */
  function VocalLines(content: seq<LineItem>): (r: seq<LyricLine>)
    ensures |r| <= |content|
    ensures forall line :: line in r ==>
      exists item :: item in content && IsVocal(item) && line == Timed(Strip(item.text), item.startMs)
    ensures forall k :: 0 <= k < |content| && IsVocal(content[k]) ==>
      Timed(Strip(content[k].text), content[k].startMs) in r
    decreases |content|
  {
    if content == [] then []
    else
      var rest := VocalLines(content[1..]);
      assert forall item :: item in content[1..] ==> item in content;
      assert forall k :: 1 <= k < |content| ==> content[k] == content[1..][k - 1];
      if IsVocal(content[0]) then [Timed(Strip(content[0].text), content[0].startMs)] + rest else rest
  }

  /** A single entry gives its stripped, timed line exactly when it is `Vocal`. */
  lemma {:induction false} VocalLinesOne(item: LineItem)
    ensures VocalLines([item]) == if IsVocal(item) then [Timed(Strip(item.text), item.startMs)] else []
  {
    assert [item][1..] == [];
  }

  /** Vocal lines keep the order of their entries. */
  lemma {:induction false} VocalLinesAppend(a: seq<LineItem>, b: seq<LineItem>)
    ensures VocalLines(a + b) == VocalLines(a) + VocalLines(b)
    decreases |a|
  {
    if a == [] {
      assert a + b == b;
    } else {
      assert (a + b)[1..] == a[1..] + b;
      VocalLinesAppend(a[1..], b);
    }
  }

  /** Content without a `Vocal` entry gives no lines. */
  lemma {:induction false} NoVocalNoLines(content: seq<LineItem>)
    requires forall k :: 0 <= k < |content| ==> !IsVocal(content[k])
    ensures VocalLines(content) == []
    decreases |content|
  {
    if content != [] {
      NoVocalNoLines(content[1..]);
    }
  }

  /** `line` after the loop over a lead's syllables: a syllable that is part
      of a word is appended bare, any other is followed by a space. */
  function SyllableText(syllables: seq<Syllable>): string
    decreases |syllables|
  {
    if syllables == [] then ""
    else
      var s := syllables[0];
      (if s.isPartOfWord then s.text else s.text + " ") + SyllableText(syllables[1..])
  }

  lemma {:induction false} SyllableTextAppend(a: seq<Syllable>, b: seq<Syllable>)
    ensures SyllableText(a + b) == SyllableText(a) + SyllableText(b)
    decreases |a|
  {
    if a == [] {
      assert a + b == b;
    } else {
      assert (a + b)[1..] == a[1..] + b;
      SyllableTextAppend(a[1..], b);
    }
  }

  /** The words a lead spells, `pending` being the word in progress: a word
      runs up to and including the next syllable that is not part of a word;
      part-of-word syllables at the end form the last word. */
  function WordsFrom(pending: string, syllables: seq<Syllable>): (r: seq<string>)
    ensures r != []
    decreases |syllables|
  {
    if syllables == [] then [pending]
    else if syllables[0].isPartOfWord then WordsFrom(pending + syllables[0].text, syllables[1..])
    else [pending + syllables[0].text] + WordsFrom("", syllables[1..])
  }

  /** The joining rule: a lead's text is its words separated by single spaces
      (with an empty last word, that is a trailing space, when the last
      syllable is not part of a word). */
  lemma {:induction false} SyllableWords(pending: string, syllables: seq<Syllable>)
    ensures pending + SyllableText(syllables) == JoinWith(WordsFrom(pending, syllables), ' ')
    decreases |syllables|
  {
    if syllables != [] {
      var s := syllables[0];
      var rest := syllables[1..];
      if s.isPartOfWord {
        SyllableWords(pending + s.text, rest);
        assert pending + (s.text + SyllableText(rest)) == (pending + s.text) + SyllableText(rest);
      } else {
        SyllableWords("", rest);
        assert "" + SyllableText(rest) == SyllableText(rest);
        var words := [pending + s.text] + WordsFrom("", rest);
        assert words[1..] == WordsFrom("", rest);
        assert pending + ((s.text + " ") + SyllableText(rest)) == (pending + s.text) + [' '] + SyllableText(rest);
      }
    }
  }

  /** Syllable lyrics: one stripped, timed line per lead. */
  function SyllableLines(content: seq<Lead>): (r: seq<LyricLine>)
    ensures |r| == |content|
    ensures forall k :: 0 <= k < |content| ==>
      r[k] == Timed(Strip(JoinWith(WordsFrom("", content[k].syllables), ' ')), content[k].startMs)
    decreases |content|
  {
    if content == [] then []
    else
      SyllableWords("", content[0].syllables);
      assert "" + SyllableText(content[0].syllables) == SyllableText(content[0].syllables);
      [Timed(Strip(SyllableText(content[0].syllables)), content[0].startMs)] + SyllableLines(content[1..])
  }

  /** What `fetch_lyrics` returns for a reply. */
  function LyricsOf(resp: Response): (r: Result<Lyrics>)
    ensures !Answered(resp) || resp.body.NotJson? ==> r == Ok(NoLyrics)
    ensures r.Raise? <==> Answered(resp) && resp.body == Json(Malformed)
    ensures r.Ok? && r.value.kind == NoneType ==> r.value.lines == []
    ensures r.Ok? && r.value.kind == StaticType ==>
      resp.body.Json? && resp.body.payload.Static? && |r.value.lines| == |resp.body.payload.lines|
    ensures r.Ok? && r.value.kind == DynamicType ==>
      resp.body.Json? && (resp.body.payload.LineSynced? || resp.body.payload.SyllableSynced?)
  {
    if !Answered(resp) || resp.body.NotJson? then Ok(NoLyrics)
    else
      match resp.body.payload
      case Static(lines) => Ok(Lyrics(StaticLines(lines), StaticType))
      case LineSynced(content) => Ok(Lyrics(VocalLines(content), DynamicType))
      case SyllableSynced(content) => Ok(Lyrics(SyllableLines(content), DynamicType))
      case OtherType => Ok(NoLyrics)
      case Malformed => Raise(BadLyricsBody)
  }

  /** Neither end of the text is whitespace. */
  predicate Trimmed(t: string) {
    t == [] || (!IsSpace(t[0]) && !IsSpace(t[|t| - 1]))
  }

  /** Every timed line comes out stripped, whether from Line or from
      Syllable lyrics (so the space after a lead's last word is gone). */
  lemma TimedLinesTrimmed(resp: Response)
    ensures LyricsOf(resp).Ok? ==>
      forall line :: line in LyricsOf(resp).value.lines && line.Timed? ==> Trimmed(line.text)
  {
    if Answered(resp) && resp.body.Json? {
      match resp.body.payload
      case LineSynced(items) =>
        forall line | line in VocalLines(items) && line.Timed?
          ensures Trimmed(line.text)
        {
          var item :| item in items && IsVocal(item) && line == Timed(Strip(item.text), item.startMs);
          StripEnds(item.text);
        }
      case SyllableSynced(leads) =>
        forall line | line in SyllableLines(leads) && line.Timed?
          ensures Trimmed(line.text)
        {
          var k :| 0 <= k < |leads| && SyllableLines(leads)[k] == line;
          StripEnds(JoinWith(WordsFrom("", leads[k].syllables), ' '));
        }
      case _ =>
    }
  }

  /** The `for word in item['Lead']['Syllables']` loop building `line`. */
  method JoinSyllables(syllables: seq<Syllable>) returns (line: string)
    ensures line == SyllableText(syllables)
  {
    line := "";
    for i := 0 to |syllables|
      invariant line == SyllableText(syllables[..i])
    {
      var word := syllables[i];
      if word.isPartOfWord {
        line := line + word.text;
      } else {
        line := line + word.text + " ";
      }
      assert syllables[..i + 1] == syllables[..i] + [word];
      SyllableTextAppend(syllables[..i], [word]);
    }
    assert syllables[..|syllables|] == syllables;
  }

  /** The `for item in data['Lines']` loop of Static lyrics. */
  method CollectStatic(lines: seq<string>) returns (lyrics: seq<LyricLine>)
    ensures lyrics == StaticLines(lines)
  {
    lyrics := [];
    for i := 0 to |lines|
      invariant lyrics == StaticLines(lines[..i])
    {
      assert lines[..i + 1] == lines[..i] + [lines[i]];
      StaticLinesAppend(lines[..i], [lines[i]]);
      lyrics := lyrics + [Plain(lines[i])];
    }
    assert lines[..|lines|] == lines;
  }

  /** The `for item in data['Content']` loop of Line lyrics. */
  method CollectVocal(content: seq<LineItem>) returns (lyrics: seq<LyricLine>)
    ensures lyrics == VocalLines(content)
  {
    lyrics := [];
    for i := 0 to |content|
      invariant lyrics == VocalLines(content[..i])
    {
      var item := content[i];
      assert content[..i + 1] == content[..i] + [item];
      VocalLinesAppend(content[..i], [item]);
      if item.kind == "Vocal" {
        lyrics := lyrics + [Timed(Strip(item.text), item.startMs)];
      }
    }
    assert content[..|content|] == content;
  }

  /** The `for item in data['Content']` loop of Syllable lyrics. */
  method CollectSyllables(content: seq<Lead>) returns (lyrics: seq<LyricLine>)
    ensures lyrics == SyllableLines(content)
  {
    lyrics := [];
    for i := 0 to |content|
      invariant lyrics == SyllableLines(content[..i])
    {
      var line := JoinSyllables(content[i].syllables);
      assert content[..i + 1] == content[..i] + [content[i]];
      SyllableLinesAppend(content[..i], [content[i]]);
      lyrics := lyrics + [Timed(Strip(line), content[i].startMs)];
    }
    assert content[..|content|] == content;
  }

  /** `fetch_lyrics(track_id)` against a lyrics server. */
  method FetchLyrics(server: string -> Response, trackId: string) returns (r: Result<Lyrics>)
    ensures r == LyricsOf(server(LyricsUrl(trackId)))
  {
    var response := server(LyricsUrl(trackId));
    if !Answered(response) || response.body.NotJson? {
      return Ok(NoLyrics);
    }
    match response.body.payload {
      case Static(lines) =>
        var lyrics := CollectStatic(lines);
        return Ok(Lyrics(lyrics, StaticType));
      case LineSynced(content) =>
        var lyrics := CollectVocal(content);
        return Ok(Lyrics(lyrics, DynamicType));
      case SyllableSynced(content) =>
        var lyrics := CollectSyllables(content);
        return Ok(Lyrics(lyrics, DynamicType));
      case OtherType =>
        return Ok(NoLyrics);
      case Malformed =>
        return Raise(BadLyricsBody);
    }
  }

  lemma {:induction false} StaticLinesAppend(a: seq<string>, b: seq<string>)
    ensures StaticLines(a + b) == StaticLines(a) + StaticLines(b)
    decreases |a|
  {
    if a == [] {
      assert a + b == b;
    } else {
      assert (a + b)[1..] == a[1..] + b;
      StaticLinesAppend(a[1..], b);
    }
  }

  lemma {:induction false} SyllableLinesAppend(a: seq<Lead>, b: seq<Lead>)
    ensures SyllableLines(a + b) == SyllableLines(a) + SyllableLines(b)
    decreases |a|
  {
    if a == [] {
      assert a + b == b;
    } else {
      assert (a + b)[1..] == a[1..] + b;
      SyllableLinesAppend(a[1..], b);
    }
  }
}
