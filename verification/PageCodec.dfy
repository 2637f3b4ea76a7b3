/** The page-text blob: joining pages with markers and splitting them back. */
module PageCodec {
  import opened GoStrings

  datatype PageText = PageText(page: GoInt, text: string)

  const SEPARATOR := "\n\n[PAGE "

  function Marker(page: GoInt): string {
    SEPARATOR + Decimal(page) + "]\n\n"
  }

  function EncodeRest(pages: seq<PageText>): string {
    if pages == [] then "" else Marker(pages[0].page) + pages[0].text + EncodeRest(pages[1..])
  }

  /** The blob: the first page bare, each later page after its marker. */
  function Encode(pages: seq<PageText>): string {
    if pages == [] then "" else pages[0].text + EncodeRest(pages[1..])
  }

  lemma EncodeRestStep(pages: seq<PageText>, i: nat, buf: string)
    requires i < |pages|
    ensures buf + EncodeRest(pages[i..]) ==
            buf + Marker(pages[i].page) + pages[i].text + EncodeRest(pages[i + 1..])
  {
    var p, rest := pages[i], EncodeRest(pages[i + 1..]);
    assert pages[i..][0] == p && pages[i..][1..] == pages[i + 1..];
    assert buf + (Marker(p.page) + p.text + rest) == buf + Marker(p.page) + p.text + rest;
  }

  /** The loop that extractText and UpdatePage share. */
  method JoinPages(pages: seq<PageText>) returns (buf: string)
    ensures buf == Encode(pages)
  {
    buf := "";
    for i := 0 to |pages|
      invariant if i == 0 then buf == "" else buf + EncodeRest(pages[i..]) == Encode(pages)
    {
      var p := pages[i];
      if i > 0 {
        EncodeRestStep(pages, i, buf);
        var marker := SEPARATOR + Decimal(p.page) + "]\n\n";
        assert marker == Marker(p.page);
        buf := buf + marker;
      }
      buf := buf + p.text;
    }
  }

  /** One part after a separator: the page number up to the first bracket, the text after it. A part
      without a bracket is dropped. */
  function ParsePart(part: string): seq<PageText> {
    var i := Index(part, "]");
    if i < 0 then [] else [PageText(ScanInt(part[..i]), TrimSpace(part[i + 1..]))]
  }

  function ParseRest(parts: seq<string>): seq<PageText> {
    if parts == [] then [] else ParsePart(parts[0]) + ParseRest(parts[1..])
  }

  function Parse(text: string): seq<PageText> {
    if text == "" then [] else ParseParts(Split(text, SEPARATOR))
  }

  lemma ParseRestStep(parts: seq<string>, i: nat, pages: seq<PageText>)
    requires i < |parts|
    ensures pages + ParseRest(parts[i..]) == pages + ParsePart(parts[i]) + ParseRest(parts[i + 1..])
  {
    assert parts[i..][0] == parts[i] && parts[i..][1..] == parts[i + 1..];
    assert pages + (ParsePart(parts[i]) + ParseRest(parts[i + 1..])) ==
           pages + ParsePart(parts[i]) + ParseRest(parts[i + 1..]);
  }

  /** The body of the loop for every part but the first. */
  method AddPart(pages: seq<PageText>, part: string) returns (more: seq<PageText>)
    ensures more == pages + ParsePart(part)
  {
    more := pages;
    var idx := Index(part, "]");
    if idx < 0 {
      return;
    }
    var pageNum := ScanInt(part[..idx]);
    var content := TrimSpace(part[idx + 1..]);
    more := more + [PageText(pageNum, content)];
  }

  /** All parts, the first of them the unnumbered first page. */
  function ParseParts(parts: seq<string>): seq<PageText>
    requires parts != []
  {
    [PageText(1, TrimSpace(parts[0]))] + ParseRest(parts[1..])
  }

  method PagesFromParts(parts: seq<string>) returns (pages: seq<PageText>)
    requires parts != []
    ensures pages == ParseParts(parts)
  {
    pages := [];
    for i := 0 to |parts|
      invariant if i == 0 then pages == [] else pages + ParseRest(parts[i..]) == ParseParts(parts)
    {
      if i == 0 {
        pages := pages + [PageText(1, TrimSpace(parts[i]))];
        continue;
      }
      ParseRestStep(parts, i, pages);
      pages := AddPart(pages, parts[i]);
    }
  }

  method ParsePages(text: string) returns (pages: seq<PageText>)
    ensures pages == Parse(text)
  {
    if text == "" {
      return [];
    }
    var parts := Split(text, SEPARATOR);
    pages := PagesFromParts(parts);
  }

  /** What is read back at best: the same pages, each text trimmed. */
  function Trimmed(pages: seq<PageText>): seq<PageText> {
    seq(|pages|, i requires 0 <= i < |pages| => PageText(pages[i].page, TrimSpace(pages[i].text)))
  }

  /** A text that may follow a marker: no separator appears, not even with the marker's own newlines. */
  ghost predicate CleanLater(text: string) {
    !Contains("\n\n" + text, SEPARATOR)
  }

  ghost predicate Clean(pages: seq<PageText>) {
    forall i | 0 <= i < |pages| ::
      if i == 0 then !Contains(pages[i].text, SEPARATOR) else CleanLater(pages[i].text)
  }

  /** The blob is ambiguous for no other reason than these three. */
  ghost predicate Faithful(pages: seq<PageText>) {
    && Clean(pages)
    && (pages != [] ==> pages[0].page == 1)
    && (|pages| == 1 ==> pages[0].text != "")
  }
}
