/** Text extraction's own metadata: the stored word count. */
module WordCount {
  import opened GoStrings
  import opened PageCodec
  import opened CodecRoundTrip

  /** The fields once `c` is read; a field goes on unless a blank came before. */
  function Extend(f: seq<string>, blankBefore: bool, c: char): seq<string>
    requires blankBefore || f != []
  {
    if IsSpace(c) then f
    else if blankBefore then f + [[c]]
    else f[|f| - 1 := f[|f| - 1] + [c]]
  }

  predicate EndsBlank(s: string) {
    s == "" || IsSpace(s[|s| - 1])
  }

  /** strings.Fields: the maximal runs of non-blank characters. */
  function Fields(s: string): (f: seq<string>)
    ensures !EndsBlank(s) ==> f != []
    decreases |s|
  {
    if s == "" then []
    else
      var front := s[..|s| - 1];
      Extend(Fields(front), EndsBlank(front), s[|s| - 1])
  }

  /** No field runs across the seam between `a` and `b`. */
  predicate Seam(a: string, b: string) {
    b == "" || EndsBlank(a) || IsSpace(b[0])
  }

  lemma ExtendJoin(a: seq<string>, f: seq<string>, blankBefore: bool, c: char)
    requires blankBefore || f != []
    ensures Extend(a + f, blankBefore, c) == a + Extend(f, blankBefore, c)
  {
  }

  lemma FieldsSnoc(s: string, c: char)
    ensures Fields(s + [c]) == Extend(Fields(s), EndsBlank(s), c)
  {
    assert (s + [c])[..|s|] == s;
  }

  lemma {:induction false} FieldsJoin(a: string, b: string)
    requires Seam(a, b)
    ensures Fields(a + b) == Fields(a) + Fields(b)
    decreases |b|
  {
    if b == "" {
      assert a + b == a;
    } else {
      var front, c := b[..|b| - 1], b[|b| - 1];
      FieldsJoin(a, front);
      FieldsSnoc(a + front, c);
      assert a + front + [c] == a + b;
      if front == "" {
        assert a + front == a;
      } else {
        assert EndsBlank(a + front) == EndsBlank(front);
        ExtendJoin(Fields(a), Fields(front), EndsBlank(front), c);
      }
    }
  }

  lemma {:induction false} BlankFields(s: string)
    requires forall i | 0 <= i < |s| :: IsSpace(s[i])
    ensures Fields(s) == []
    decreases |s|
  {
    if s != "" {
      BlankFields(s[..|s| - 1]);
    }
  }

  lemma {:induction false} WordFields(s: string)
    requires s != "" && forall i | 0 <= i < |s| :: !IsSpace(s[i])
    ensures Fields(s) == [s]
    decreases |s|
  {
    var front := s[..|s| - 1];
    assert s == front + [s[|s| - 1]];
    if front != "" {
      WordFields(front);
    }
  }

  /** Each marker reads as exactly two words. */
  lemma Nested(nl: string, a: string, b: string, d: string, e: string)
    ensures nl + a + b + d + (e + nl) == nl + (a + (b + (d + e + nl)))
  {
  }

  lemma MarkerWords(n: GoInt)
    ensures Marker(n) == "\n\n" + ("[PAGE" + (" " + (Decimal(n) + "]" + "\n\n")))
  {
    assert SEPARATOR == "\n\n" + "[PAGE" + " " && "]\n\n" == "]" + "\n\n";
    Nested("\n\n", "[PAGE", " ", Decimal(n), "]");
  }

  lemma MarkerFields(n: GoInt)
    ensures Fields(Marker(n)) == ["[PAGE", Decimal(n) + "]"]
  {
    var w := Decimal(n) + "]";
    DecimalPlain(n);
    WordFields("[PAGE");
    WordFields(w);
    BlankFields("\n\n");
    BlankFields(" ");
    MarkerWords(n);
    FieldsJoin(w, "\n\n");
    FieldsJoin(" ", w + "\n\n");
    FieldsJoin("[PAGE", " " + (w + "\n\n"));
    FieldsJoin("\n\n", "[PAGE" + (" " + (w + "\n\n")));
  }

  function LaterFields(pages: seq<PageText>): seq<string> {
    if pages == [] then []
    else ["[PAGE", Decimal(pages[0].page) + "]"] + Fields(pages[0].text) + LaterFields(pages[1..])
  }

  lemma {:induction false} RestFields(pages: seq<PageText>)
    ensures Fields(EncodeRest(pages)) == LaterFields(pages)
    ensures EncodeRest(pages) != "" ==> IsSpace(EncodeRest(pages)[0])
  {
    if pages != [] {
      var p, rest := pages[0], EncodeRest(pages[1..]);
      var m := Marker(p.page);
      RestFields(pages[1..]);
      MarkerFields(p.page);
      MarkerEnds(p.page);
      FieldsJoin(m, p.text);
      FieldsJoin(m + p.text, rest);
    }
  }

  lemma MarkerEnds(n: GoInt)
    ensures Marker(n) != "" && IsSpace(Marker(n)[0]) && IsSpace(Marker(n)[|Marker(n)| - 1])
  {
  }

  /** The words of the blob are the words of the pages, with two more at each page break. */
  lemma BlobFields(pages: seq<PageText>)
    ensures Fields(Encode(pages)) ==
            if pages == [] then [] else Fields(pages[0].text) + LaterFields(pages[1..])
  {
    if pages != [] {
      RestFields(pages[1..]);
      FieldsJoin(pages[0].text, EncodeRest(pages[1..]));
    }
  }

  function TotalWords(pages: seq<PageText>): nat {
    if pages == [] then 0 else |Fields(pages[0].text)| + TotalWords(pages[1..])
  }

  lemma {:induction false} LaterCount(pages: seq<PageText>)
    ensures |LaterFields(pages)| == TotalWords(pages) + 2 * |pages|
  {
    if pages != [] {
      LaterCount(pages[1..]);
    }
  }

  /** Exact word count: two extra per page break, whatever the pages say. */
  lemma BlobWordCount(pages: seq<PageText>)
    ensures |Fields(Encode(pages))| == TotalWords(pages) + if pages == [] then 0 else 2 * (|pages| - 1)
  {
    BlobFields(pages);
    if pages != [] {
      LaterCount(pages[1..]);
    }
  }

  // ----- ProcessPDF -------------------------------------------------------------------------------

  /** The text without its trailing newlines, all of them and nothing else. */
  function TrimRightNewlines(s: string): (t: string)
    ensures t <= s && forall k | |t| <= k < |s| :: s[k] == '\n'
    ensures t != "" ==> t[|t| - 1] != '\n'
    decreases |s|
  {
    if s != "" && s[|s| - 1] == '\n' then TrimRightNewlines(s[..|s| - 1]) else s
  }

  /** The pages as extracted: numbered from 1, trailing newlines dropped. */
  function Numbered(raw: seq<string>): seq<PageText>
    requires FitsInt(|raw|)
  {
    seq(|raw|, i requires 0 <= i < |raw| => PageText(i + 1, TrimRightNewlines(raw[i])))
  }

  datatype PDFResult = PDFResult(pageCount: int, wordCount: nat, extractedText: string)
  datatype Processed = Processed(result: PDFResult) | PageCountFailed

  method NumberPages(raw: seq<string>) returns (pages: seq<PageText>)
    requires FitsInt(|raw|)
    ensures pages == Numbered(raw)
  {
    pages := [];
    for i := 0 to |raw|
      invariant pages == Numbered(raw)[..i]
    {
      pages := pages + [PageText(i + 1, TrimRightNewlines(raw[i]))];
    }
  }

  /** Page i + 1 comes back with the text of page i, trimmed. */
  ghost predicate ReadsAs(pages: seq<PageText>, raw: seq<string>) {
    && |pages| == |raw|
    && forall i | 0 <= i < |raw| :: pages[i].page == i + 1 && pages[i].text == TrimSpace(raw[i])
  }

  /** No page has a marker's beginning in its text, counting the two newlines before a later page, and a file of
      one page has more than newlines. */
  ghost predicate Readable(raw: seq<string>) {
    && (forall i | 0 <= i < |raw| :: !Contains(if i == 0 then raw[i] else "\n\n" + raw[i], "\n\n[PAGE "))
    && (|raw| == 1 ==> exists k :: 0 <= k < |raw[0]| && raw[0][k] != '\n')
  }

  /** Dropping newlines from the end drops no separator, nor any from a text before it. */
  lemma SameSeparators(pre: string, s: string)
    ensures Contains(pre + TrimRightNewlines(s), SEPARATOR) <==> Contains(pre + s, SEPARATOR)
  {
    var t := TrimRightNewlines(s);
    var a, b := pre + t, pre + s;
    if i: nat :| OccursAt(a, SEPARATOR, i) {
      assert b[i..i + |SEPARATOR|] == a[i..i + |SEPARATOR|];
      assert OccursAt(b, SEPARATOR, i);
    }
    if i: nat :| OccursAt(b, SEPARATOR, i) {
      SeparatorAt(b, i);
      assert i + 7 < |a|;
      assert a[i..i + |SEPARATOR|] == b[i..i + |SEPARATOR|];
      assert OccursAt(a, SEPARATOR, i);
    }
  }

  lemma {:induction false} TrimIgnoresNewlines(s: string)
    ensures TrimSpace(TrimRightNewlines(s)) == TrimSpace(s)
    decreases |s|
  {
    if s != "" && s[|s| - 1] == '\n' {
      var front := s[..|s| - 1];
      TrimIgnoresNewlines(front);
      TrimSkipsTrailing(front, '\n');
      assert s == front + ['\n'];
    }
  }

  lemma {:induction false} FieldsIgnoreNewlines(s: string)
    ensures Fields(TrimRightNewlines(s)) == Fields(s)
    decreases |s|
  {
    if s != "" && s[|s| - 1] == '\n' {
      FieldsIgnoreNewlines(s[..|s| - 1]);
    }
  }

  lemma NumberedIsReadable(raw: seq<string>)
    requires FitsInt(|raw|)
    ensures Faithful(Numbered(raw)) <==> Readable(raw)
  {
    var pages := Numbered(raw);
    forall i | 0 <= i < |raw|
      ensures (if i == 0 then !Contains(pages[i].text, SEPARATOR) else CleanLater(pages[i].text)) <==>
              !Contains(if i == 0 then raw[i] else "\n\n" + raw[i], "\n\n[PAGE ")
    {
      SameSeparators(if i == 0 then "" else "\n\n", raw[i]);
      assert "" + pages[i].text == pages[i].text && "" + raw[i] == raw[i];
    }
  }

  /** From the PDF's pages to the stored blob and back: every page returns under its number, from 1 on, with its
      text trimmed, if and only if the pages are readable. */
  lemma ExtractedReadBack(raw: seq<string>)
    requires FitsInt(|raw|)
    ensures ReadsAs(Parse(Encode(Numbered(raw))), raw) <==> Readable(raw)
  {
    var pages := Numbered(raw);
    RoundTrip(pages);
    NumberedIsReadable(raw);
    forall i | 0 <= i < |raw| ensures Trimmed(pages)[i] == PageText(i + 1, TrimSpace(raw[i])) {
      TrimIgnoresNewlines(raw[i]);
    }
    var back := Parse(Encode(pages));
    if ReadsAs(back, raw) {
      assert forall i | 0 <= i < |raw| :: back[i] == Trimmed(pages)[i];
    }
  }

  /** The words of all pages. */
  function Words(raw: seq<string>): nat {
    if raw == [] then 0 else |Fields(raw[0])| + Words(raw[1..])
  }

  lemma {:induction false} WordsOfTexts(raw: seq<string>, pages: seq<PageText>)
    requires |pages| == |raw| && forall i | 0 <= i < |raw| :: pages[i].text == TrimRightNewlines(raw[i])
    ensures TotalWords(pages) == Words(raw)
  {
    if raw != [] {
      FieldsIgnoreNewlines(raw[0]);
      WordsOfTexts(raw[1..], pages[1..]);
    }
  }

  /** `pageCount` and `raw` are what the PDF libraries give; a file that cannot be opened has no pages. */
  method ProcessPDF(pageCountFails: bool, pageCount: int, opens: bool, raw: seq<string>) returns (r: Processed)
    requires FitsInt(|raw|)
    ensures r.PageCountFailed? <==> pageCountFails
    ensures r.Processed? ==> r.result.pageCount == pageCount
    ensures r.Processed? && opens ==>
              && r.result.extractedText == Encode(Numbered(raw))
              && (ReadsAs(Parse(r.result.extractedText), raw) <==> Readable(raw))
              && r.result.wordCount == Words(raw) + if raw == [] then 0 else 2 * (|raw| - 1)
    ensures r.Processed? && !opens ==> r.result.extractedText == "" && r.result.wordCount == 0
  {
    if pageCountFails {
      return PageCountFailed;
    }
    var pages: seq<PageText> := [];
    if opens {
      pages := NumberPages(raw);
      ExtractedReadBack(raw);
      WordsOfTexts(raw, pages);
    }
    var text := JoinPages(pages);
    BlobWordCount(pages);
    r := Processed(PDFResult(pageCount, |Fields(text)|, text));
  }
}
