/** When the blob can be read back: exactly when its pages are faithful. */
module CodecRoundTrip {
  import opened GoStrings
  import opened PageCodec
  import Sequences

  // ----- The separator cannot straddle ------------------------------------------------------

  lemma SeparatorAt(s: string, i: nat)
    requires OccursAt(s, SEPARATOR, i)
    ensures s[i] == '\n' && s[i + 1] == '\n' && s[i + 2] == '[' && s[i + 3] == 'P'
    ensures s[i + 4] == 'A' && s[i + 5] == 'G' && s[i + 6] == 'E' && s[i + 7] == ' '
  {
    var w := s[i..i + |SEPARATOR|];
    assert w[0] == s[i] && w[1] == s[i + 1] && w[2] == s[i + 2] && w[3] == s[i + 3];
    assert w[4] == s[i + 4] && w[5] == s[i + 5] && w[6] == s[i + 6] && w[7] == s[i + 7];
  }

  lemma SeparatorOverlapsNothing(s: string, i: nat, j: nat)
    requires OccursAt(s, SEPARATOR, i) && OccursAt(s, SEPARATOR, j)
    ensures !(i < j < i + |SEPARATOR|)
  {
    SeparatorAt(s, i);
    SeparatorAt(s, j);
  }

  /** After a separator-free text the next separator is found where it was put. */
  lemma IndexAtJoin(a: string, rest: string)
    requires !Contains(a, SEPARATOR)
    ensures Index(a + SEPARATOR + rest, SEPARATOR) == |a|
  {
    var s := a + SEPARATOR + rest;
    assert OccursAt(s, SEPARATOR, |a|);
    var i := Index(s, SEPARATOR);
    if i < |a| {
      SeparatorOverlapsNothing(s, i, |a|);
      assert a[i..i + |SEPARATOR|] == s[i..i + |SEPARATOR|];
      assert OccursAt(a, SEPARATOR, i);
    }
  }

  /** A text with a separator is cut at its own first separator, whatever follows. */
  lemma IndexInside(a: string, rest: string)
    requires Contains(a, SEPARATOR)
    ensures Index(a + rest, SEPARATOR) == Index(a, SEPARATOR)
  {
    var i, j := Index(a, SEPARATOR), Index(a + rest, SEPARATOR);
    assert (a + rest)[i..i + |SEPARATOR|] == a[i..i + |SEPARATOR|];
    assert OccursAt(a + rest, SEPARATOR, i);
    assert a[j..j + |SEPARATOR|] == (a + rest)[j..j + |SEPARATOR|];
    assert OccursAt(a, SEPARATOR, j);
  }

  // ----- Later pages -------------------------------------------------------------------------

  /** What stands between two separators: number, bracket, two newlines and the text. */
  function Part(p: PageText): string {
    Decimal(p.page) + "]" + ("\n\n" + p.text)
  }

  /** The blob from just after the first separator. */
  function Tail(pages: seq<PageText>): string
    requires pages != []
  {
    Part(pages[0]) + EncodeRest(pages[1..])
  }

  lemma EncodeRestIsTail(pages: seq<PageText>)
    requires pages != []
    ensures EncodeRest(pages) == SEPARATOR + Tail(pages)
  {
    var p := pages[0];
    assert Marker(p.page) + p.text == SEPARATOR + Part(p) by {
      assert "]\n\n" == "]" + "\n\n";
    }
  }

  lemma PlainPrefix(d: string, t: string, i: nat)
    requires forall k | 0 <= k < |d| :: d[k] != '\n'
    requires OccursAt(d + t, SEPARATOR, i)
    ensures i >= |d| && OccursAt(t, SEPARATOR, i - |d|)
  {
    assert (d + t)[i..i + |SEPARATOR|][0] == '\n';
    assert t[i - |d|..i - |d| + |SEPARATOR|] == (d + t)[i..i + |SEPARATOR|];
  }

  lemma ShiftedOccurrence(d: string, t: string, i: nat)
    requires OccursAt(t, SEPARATOR, i)
    ensures OccursAt(d + t, SEPARATOR, |d| + i)
  {
    assert (d + t)[|d| + i..|d| + i + |SEPARATOR|] == t[i..i + |SEPARATOR|];
  }

  lemma SearchAfterPlain(d: string, t: string)
    requires forall k | 0 <= k < |d| :: d[k] != '\n'
    ensures Contains(d + t, SEPARATOR) <==> Contains(t, SEPARATOR)
    ensures Contains(t, SEPARATOR) ==> Index(d + t, SEPARATOR) == |d| + Index(t, SEPARATOR)
  {
    var j, k := Index(d + t, SEPARATOR), Index(t, SEPARATOR);
    if j >= 0 {
      PlainPrefix(d, t, j);
    }
    if k >= 0 {
      ShiftedOccurrence(d, t, k);
    }
  }

  lemma PartContains(p: PageText)
    ensures Contains(Part(p), SEPARATOR) <==> !CleanLater(p.text)
    ensures Contains(Part(p), SEPARATOR) ==>
              Index(Part(p), SEPARATOR) == |Decimal(p.page)| + 1 + Index("\n\n" + p.text, SEPARATOR)
  {
    DecimalPlain(p.page);
    SearchAfterPlain(Decimal(p.page) + "]", "\n\n" + p.text);
  }

  /** A part that starts with a printed number and a bracket is read as that page. */
  lemma ParseNumbered(n: GoInt, t: string)
    ensures ParsePart(Decimal(n) + "]" + t) == [PageText(n, TrimSpace(t))]
  {
    var d := Decimal(n);
    var part := d + "]" + t;
    DecimalPlain(n);
    assert part[|d|..|d| + 1] == "]";
    assert OccursAt(part, "]", |d|);
    var i := Index(part, "]");
    assert part[i..i + 1][0] == ']';
    assert part[..i] == d && part[i + 1..] == t;
    ScanPrinted(n);
  }

  lemma TrimAfterMarker(t: string)
    ensures TrimSpace("\n\n" + t) == TrimSpace(t)
  {
    assert "\n\n" + t == ['\n'] + (['\n'] + t);
    TrimSkipsLeading('\n', ['\n'] + t);
    TrimSkipsLeading('\n', t);
  }

  /** Cutting a text at a separator loses something that trimming would have kept. */
  lemma CutLosesText(s: string, i: nat)
    requires OccursAt(s, SEPARATOR, i)
    ensures TrimSpace(s[..i]) != TrimSpace(s)
  {
    var rest := s[i + |SEPARATOR|..];
    assert s == s[..i] + (SEPARATOR + rest);
    NonSpacesAppend(s[..i], SEPARATOR + rest);
    NonSpacesAppend(SEPARATOR, rest);
    SeparatorHasText();
    var a, b := TrimSpaceFacts(s);
    var c, d := TrimSpaceFacts(s[..i]);
  }

  lemma SeparatorHasText()
    ensures NonSpaces(SEPARATOR) > 0
  {
    var a, b := "\n\n[", "PAGE ";
    assert SEPARATOR == a + b;
    NonSpacesAppend(a, b);
    assert a[|a| - 1] == '[' && !IsSpace('[');
    assert NonSpaces(a) >= 1;
  }

  ghost predicate CleanRest(pages: seq<PageText>) {
    forall i | 0 <= i < |pages| :: CleanLater(pages[i].text)
  }

  lemma TrimmedCons(pages: seq<PageText>)
    requires pages != []
    ensures Trimmed(pages) == [PageText(pages[0].page, TrimSpace(pages[0].text))] + Trimmed(pages[1..])
  {
  }

  lemma CleanPartFirst(pages: seq<PageText>)
    requires pages != [] && CleanLater(pages[0].text)
    ensures var rest := pages[1..];
            Split(Tail(pages), SEPARATOR) ==
            [Part(pages[0])] + if rest == [] then [] else Split(Tail(rest), SEPARATOR)
  {
    var p, rest := pages[0], pages[1..];
    PartContains(p);
    if rest == [] {
      assert Tail(pages) == Part(p);
    } else {
      EncodeRestIsTail(rest);
      assert Tail(pages) == Part(p) + SEPARATOR + Tail(rest);
      IndexAtJoin(Part(p), Tail(rest));
      assert Tail(pages)[|Part(p)| + |SEPARATOR|..] == Tail(rest);
      assert Tail(pages)[..|Part(p)|] == Part(p);
    }
  }

  lemma DirtyPartHead(pages: seq<PageText>) returns (i: nat)
    requires pages != [] && !CleanLater(pages[0].text)
    ensures var t := "\n\n" + pages[0].text;
            OccursAt(t, SEPARATOR, i) &&
            Split(Tail(pages), SEPARATOR)[0] == Decimal(pages[0].page) + "]" + t[..i]
  {
    var p := pages[0];
    var d, t := Decimal(p.page) + "]", "\n\n" + p.text;
    PartContains(p);
    IndexInside(Part(p), EncodeRest(pages[1..]));
    i := Index(t, SEPARATOR);
    assert Tail(pages)[..|d| + i] == d + t[..i];
  }

  /** A later page with a separator in it is cut short when read back. */
  lemma DirtyPartCut(pages: seq<PageText>)
    requires pages != [] && !CleanLater(pages[0].text)
    ensures var parsed := ParseRest(Split(Tail(pages), SEPARATOR));
            parsed != [] && parsed[0].text != TrimSpace(pages[0].text)
  {
    var p := pages[0];
    var i := DirtyPartHead(pages);
    var t := ("\n\n" + p.text)[..i];
    ParseNumbered(p.page, t);
    CutLosesText("\n\n" + p.text, i);
    TrimAfterMarker(p.text);
    var parts := Split(Tail(pages), SEPARATOR);
    assert ParseRest(parts) == [PageText(p.page, TrimSpace(t))] + ParseRest(parts[1..]);
  }

  /** The parts between separators, as the splitter finds them. */
  function Parts(pages: seq<PageText>): seq<string> {
    if pages == [] then [] else Split(Tail(pages), SEPARATOR)
  }

  lemma CleanPartKept(pages: seq<PageText>)
    requires pages != [] && CleanLater(pages[0].text)
    ensures ParseRest(Parts(pages)) ==
            [PageText(pages[0].page, TrimSpace(pages[0].text))] + ParseRest(Parts(pages[1..]))
  {
    var p := pages[0];
    CleanPartFirst(pages);
    ParseNumbered(p.page, "\n\n" + p.text);
    TrimAfterMarker(p.text);
    assert Parts(pages)[1..] == Parts(pages[1..]);
  }

  lemma CleanRestCons(pages: seq<PageText>)
    requires pages != []
    ensures CleanRest(pages) <==> CleanLater(pages[0].text) && CleanRest(pages[1..])
  {
    assert forall i | 0 <= i < |pages[1..]| :: pages[1..][i] == pages[i + 1];
    assert forall i | 1 <= i < |pages| :: pages[i] == pages[1..][i - 1];
  }

  lemma {:induction false} RestRoundTrip(pages: seq<PageText>)
    ensures ParseRest(Parts(pages)) == Trimmed(pages) <==> CleanRest(pages)
  {
    if pages == [] {
      assert Trimmed(pages) == [];
    } else if CleanLater(pages[0].text) {
      var p := PageText(pages[0].page, TrimSpace(pages[0].text));
      CleanPartKept(pages);
      TrimmedCons(pages);
      CleanRestCons(pages);
      RestRoundTrip(pages[1..]);
      ConsEqual(p, ParseRest(Parts(pages[1..])), Trimmed(pages[1..]));
    } else {
      DirtyPartCut(pages);
      CleanRestCons(pages);
      assert Trimmed(pages)[0].text == TrimSpace(pages[0].text);
    }
  }

  lemma ConsEqual(p: PageText, a: seq<PageText>, b: seq<PageText>)
    ensures [p] + a == [p] + b <==> a == b
  {
    if [p] + a == [p] + b {
      assert a == ([p] + a)[1..] && b == ([p] + b)[1..];
    }
  }

  // ----- The whole blob -------------------------------------------------------------------------

  lemma FirstPartClean(pages: seq<PageText>)
    requires pages != [] && !Contains(pages[0].text, SEPARATOR)
    ensures Split(Encode(pages), SEPARATOR) ==
            [pages[0].text] + Parts(pages[1..])
  {
    var t, rest := pages[0].text, pages[1..];
    if rest == [] {
      assert Encode(pages) == t;
    } else {
      EncodeRestIsTail(rest);
      assert Encode(pages) == t + SEPARATOR + Tail(rest);
      IndexAtJoin(t, Tail(rest));
      assert Encode(pages)[|t| + |SEPARATOR|..] == Tail(rest);
      assert Encode(pages)[..|t|] == t;
    }
  }

  lemma FirstPartDirty(pages: seq<PageText>)
    requires pages != [] && Contains(pages[0].text, SEPARATOR)
    ensures Parse(Encode(pages)) != Trimmed(pages)
  {
    var t := pages[0].text;
    IndexInside(t, EncodeRest(pages[1..]));
    var i := Index(t, SEPARATOR);
    assert Encode(pages)[..i] == t[..i];
    CutLosesText(t, i);
    TrimmedCons(pages);
    assert Parse(Encode(pages))[0] == PageText(1, TrimSpace(t[..i]));
  }

  lemma EncodeEmpty(pages: seq<PageText>)
    ensures Encode(pages) == "" <==> pages == [] || (|pages| == 1 && pages[0].text == "")
  {
    if |pages| > 1 {
      EncodeRestIsTail(pages[1..]);
    }
  }

  lemma CleanSplit(pages: seq<PageText>)
    requires pages != []
    ensures Clean(pages) <==> !Contains(pages[0].text, SEPARATOR) && CleanRest(pages[1..])
  {
    var rest := pages[1..];
    assert forall i | 0 <= i < |rest| :: rest[i] == pages[i + 1];
    assert forall i | 1 <= i < |pages| :: pages[i] == rest[i - 1];
  }

  /** The round trip, with its exact condition: reading the blob back gives the same page numbers in the
      same order with each text trimmed if and only if the pages are faithful. */
  lemma RoundTrip(pages: seq<PageText>)
    ensures Parse(Encode(pages)) == Trimmed(pages) <==> Faithful(pages)
  {
    EncodeEmpty(pages);
    if pages == [] {
      assert Trimmed(pages) == [];
    } else if Contains(pages[0].text, SEPARATOR) {
      FirstPartDirty(pages);
    } else if |pages| == 1 && pages[0].text == "" {
      assert |Trimmed(pages)| == 1;
    } else {
      FirstPartClean(pages);
      TrimmedCons(pages);
      CleanSplit(pages);
      var text, rest, parts := TrimSpace(pages[0].text), pages[1..], Split(Encode(pages), SEPARATOR);
      RestRoundTrip(rest);
      assert Parse(Encode(pages)) == [PageText(1, text)] + ParseRest(parts[1..]);
      assert parts[1..] == Parts(rest);
      assert ([PageText(1, text)] + ParseRest(parts[1..]))[0].page == 1;
      ConsEqual(PageText(1, text), ParseRest(parts[1..]), Trimmed(rest));
    }
  }

  /** The page comes back in its place, and whole just if it is clean. */
  ghost predicate ReadAt(parsed: seq<PageText>, i: nat, text: string) {
    i < |parsed| && (parsed[i].text == TrimSpace(text) <==> CleanLater(text))
  }

  lemma HeadReadBack(pages: seq<PageText>)
    requires pages != []
    ensures ReadAt(ParseRest(Parts(pages)), 0, pages[0].text)
  {
    if CleanLater(pages[0].text) {
      CleanPartKept(pages);
    } else {
      DirtyPartCut(pages);
    }
  }

  lemma ReadBehind(p: PageText, parsed: seq<PageText>, i: nat, text: string)
    requires ReadAt(parsed, i, text)
    ensures ReadAt([p] + parsed, i + 1, text)
  {
  }

  lemma ReadBehindClean(pages: seq<PageText>, i: nat, text: string)
    requires pages != [] && CleanLater(pages[0].text) && ReadAt(ParseRest(Parts(pages[1..])), i, text)
    ensures ReadAt(ParseRest(Parts(pages)), i + 1, text)
  {
    CleanPartKept(pages);
    ReadBehind(PageText(pages[0].page, TrimSpace(pages[0].text)), ParseRest(Parts(pages[1..])), i, text);
  }

  lemma CleanRestOfRest(pages: seq<PageText>, i: nat)
    requires 0 < i < |pages| && CleanRest(pages[..i])
    ensures CleanLater(pages[0].text) && CleanRest(pages[1..][..i - 1])
  {
    assert pages[..i][0] == pages[0] && pages[1..][..i - 1] == pages[..i][1..];
    CleanRestCons(pages[..i]);
  }

  lemma {:induction false} RestReadBack(pages: seq<PageText>, i: nat, text: string)
    requires i < |pages| && pages[i].text == text && CleanRest(pages[..i])
    ensures ReadAt(ParseRest(Parts(pages)), i, text)
    decreases i
  {
    if i == 0 {
      HeadReadBack(pages);
    } else {
      CleanRestOfRest(pages, i);
      RestReadBack(pages[1..], i - 1, text);
      ReadBehindClean(pages, i - 1, text);
    }
  }

  lemma FirstReadBack(pages: seq<PageText>)
    requires |pages| > 1 && !Contains(pages[0].text, SEPARATOR)
    ensures Parse(Encode(pages)) == [PageText(1, TrimSpace(pages[0].text))] + ParseRest(Parts(pages[1..]))
  {
    EncodeEmpty(pages);
    FirstPartClean(pages);
    assert Split(Encode(pages), SEPARATOR)[1..] == Parts(pages[1..]);
  }

  /** A later page with nothing but clean pages before it is read back in its place, and whole if and only if
      it is clean itself; what follows it does not matter. */
  lemma PageReadBack(pages: seq<PageText>, i: nat, text: string)
    requires 0 < i < |pages| && pages[i].text == text && !Contains(pages[0].text, SEPARATOR)
    requires forall m | 0 < m < i :: CleanLater(pages[m].text)
    ensures ReadAt(Parse(Encode(pages)), i, text)
  {
    var rest := pages[1..];
    FirstReadBack(pages);
    assert forall m | 0 <= m < i :: rest[m] == pages[m + 1];
    RestReadBack(rest, i - 1, text);
    ReadBehind(PageText(1, TrimSpace(pages[0].text)), ParseRest(Parts(rest)), i - 1, text);
  }

  /** A lone empty page vanishes: the blob is empty and reads back as no pages. */
  lemma LoneEmptyPageLost()
    ensures Parse(Encode([PageText(1, "")])) == []
  {
    EncodeEmpty([PageText(1, "")]);
  }

  lemma {:induction false} RestGrows(pages: seq<PageText>, p: PageText)
    ensures EncodeRest(pages + [p]) == EncodeRest(pages) + (Marker(p.page) + p.text)
  {
    if pages == [] {
      assert [p][1..] == [] && EncodeRest([p]) == Marker(p.page) + p.text + "";
    } else {
      RestGrows(pages[1..], p);
      assert (pages + [p])[1..] == pages[1..] + [p];
      assert Marker(pages[0].page) + pages[0].text + (EncodeRest(pages[1..]) + (Marker(p.page) + p.text)) ==
             Marker(pages[0].page) + pages[0].text + EncodeRest(pages[1..]) + (Marker(p.page) + p.text);
    }
  }

  /** The blob, page by page: the first text as it is, and each later one behind its marker, numbers in base ten. */
  lemma BlobGrows(pages: seq<PageText>, p: PageText)
    ensures Encode([p]) == p.text
    ensures 0 <= p.page < 10 ==> Decimal(p.page) == ["0123456789"[p.page]]
    ensures p.page >= 10 ==> Decimal(p.page) == Decimal(p.page / 10) + Decimal(p.page % 10)
    ensures pages != [] ==>
              Encode(pages + [p]) == Encode(pages) + ("\n\n[PAGE " + Decimal(p.page) + "]\n\n" + p.text)
  {
    assert Encode([p]) == p.text + EncodeRest([]);
    if pages != [] {
      RestGrows(pages[1..], p);
      assert (pages + [p])[1..] == pages[1..] + [p];
      Sequences.Regrouped(pages[0].text, EncodeRest(pages[1..]), Marker(p.page) + p.text);
    }
  }
}
