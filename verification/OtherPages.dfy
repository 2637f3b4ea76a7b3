/** What an edit does to the pages it does not name. */
module OtherPages {
  import opened GoStrings
  import opened PageCodec
  import opened CodecRoundTrip
  import opened PageEdit
  import opened EditFrame

  // ----- Splitting what was joined ----------------------------------------------------------------

  lemma JoinedCut(a: string, b: string, i: nat)
    requires i == Index(a, SEPARATOR)
    ensures var s, n := a + SEPARATOR + b, i + |SEPARATOR|;
            Index(s, SEPARATOR) == i && n <= |a| && s[..i] == a[..i] && s[n..] == a[n..] + SEPARATOR + b
  {
    assert a + SEPARATOR + b == a + (SEPARATOR + b);
    IndexInside(a, SEPARATOR + b);
  }

  lemma JoinedWhole(a: string, b: string)
    requires !Contains(a, SEPARATOR)
    ensures Split(a + SEPARATOR + b, SEPARATOR) == [a] + Split(b, SEPARATOR)
  {
    var s := a + SEPARATOR + b;
    IndexAtJoin(a, b);
    assert s[..|a|] == a && s[|a| + |SEPARATOR|..] == b;
  }

  lemma SplitCut(s: string, i: nat, rest: string)
    requires i == Index(s, SEPARATOR) && rest == s[i + |SEPARATOR|..]
    ensures Split(s, SEPARATOR) == [s[..i]] + Split(rest, SEPARATOR)
  {
  }

  lemma Regroup(h: string, x: seq<string>, y: seq<string>, xy: seq<string>, hx: seq<string>, hxy: seq<string>)
    requires xy == x + y && hx == [h] + x && hxy == [h] + xy
    ensures hxy == hx + y
  {
  }

  lemma SplitJoinedCut(a: string, b: string, i: nat, rest: string)
    requires i == Index(a, SEPARATOR) && rest == a[i + |SEPARATOR|..]
    requires Split(rest + SEPARATOR + b, SEPARATOR) == Split(rest, SEPARATOR) + Split(b, SEPARATOR)
    ensures Split(a + SEPARATOR + b, SEPARATOR) == Split(a, SEPARATOR) + Split(b, SEPARATOR)
  {
    JoinedCut(a, b, i);
    SplitCut(a, i, rest);
    SplitCut(a + SEPARATOR + b, i, rest + SEPARATOR + b);
    Regroup(a[..i], Split(rest, SEPARATOR), Split(b, SEPARATOR), Split(rest + SEPARATOR + b, SEPARATOR),
            Split(a, SEPARATOR), Split(a + SEPARATOR + b, SEPARATOR));
  }

  lemma {:induction false} SplitJoined(a: string, b: string)
    ensures Split(a + SEPARATOR + b, SEPARATOR) == Split(a, SEPARATOR) + Split(b, SEPARATOR)
    decreases |a|
  {
    var i := Index(a, SEPARATOR);
    if i < 0 {
      JoinedWhole(a, b);
    } else {
      var rest := a[i + |SEPARATOR|..];
      SplitJoined(rest, b);
      SplitJoinedCut(a, b, i, rest);
    }
  }

  /** A text's first part, which is what its page keeps... */
  function Head(t: string): string {
    Split(t, SEPARATOR)[0]
  }

  /** ... and the entries that its other parts add. */
  function Extras(t: string): seq<PageText> {
    ParseRest(Split(t, SEPARATOR)[1..])
  }

  lemma SplitAfterPlain(d: string, t: string)
    requires forall k | 0 <= k < |d| :: d[k] != '\n'
    ensures Split(d + t, SEPARATOR) == [d + Head(t)] + Split(t, SEPARATOR)[1..]
  {
    SearchAfterPlain(d, t);
    var i, n := Index(t, SEPARATOR), |SEPARATOR|;
    if i >= 0 {
      assert (d + t)[..|d| + i] == d + t[..i];
      assert (d + t)[|d| + i + n..] == t[i + n..];
    }
  }

  lemma HeadOf(t: string)
    ensures !Contains(t, SEPARATOR) ==> Head(t) == t && Extras(t) == []
    ensures Contains(t, SEPARATOR) ==> Head(t) == t[..Index(t, SEPARATOR)]
  {
  }

  /** A page keeps its text just if it is clean, and then adds nothing. */
  lemma CleanKeeps(t: string)
    ensures TrimSpace(Head("\n\n" + t)) == TrimSpace(t) <==> CleanLater(t)
    ensures CleanLater(t) ==> Extras("\n\n" + t) == []
  {
    var s := "\n\n" + t;
    HeadOf(s);
    TrimAfterMarker(t);
    if Contains(s, SEPARATOR) {
      CutLosesText(s, Index(s, SEPARATOR));
    }
  }

  /** What a later page is read back as. */
  function Reading(p: PageText): seq<PageText> {
    [PageText(p.page, TrimSpace(Head("\n\n" + p.text)))] + Extras("\n\n" + p.text)
  }

  lemma {:induction false} ParseRestAppend(a: seq<string>, b: seq<string>)
    ensures ParseRest(a + b) == ParseRest(a) + ParseRest(b)
  {
    if a == [] {
      assert a + b == b;
    } else {
      assert (a + b)[1..] == a[1..] + b;
      ParseRestAppend(a[1..], b);
    }
  }

  lemma PartRead(p: PageText)
    ensures ParseRest(Split(Part(p), SEPARATOR)) == Reading(p)
  {
    var d, t := Decimal(p.page) + "]", "\n\n" + p.text;
    DecimalPlain(p.page);
    SplitAfterPlain(d, t);
    ParseNumbered(p.page, Head(t));
    assert Split(Part(p), SEPARATOR)[1..] == Split(t, SEPARATOR)[1..];
  }

  lemma TailRead(pages: seq<PageText>)
    requires pages != []
    ensures ParseRest(Parts(pages)) == Reading(pages[0]) + ParseRest(Parts(pages[1..]))
  {
    var p, rest := pages[0], pages[1..];
    PartRead(p);
    if rest == [] {
      assert Tail(pages) == Part(p);
    } else {
      EncodeRestIsTail(rest);
      assert Tail(pages) == Part(p) + SEPARATOR + Tail(rest);
      SplitJoined(Part(p), Tail(rest));
      ParseRestAppend(Split(Part(p), SEPARATOR), Parts(rest));
    }
  }

  // ----- Later pages --------------------------------------------------------------------------------

  /** The same entries everywhere but at `i`. */
  ghost predicate AgreeBut(a: seq<PageText>, b: seq<PageText>, i: int) {
    |a| == |b| && forall m | 0 <= m < |a| && m != i :: a[m] == b[m]
  }

  lemma AgreeButCons(r: PageText, a: seq<PageText>, w: PageText, b: seq<PageText>, i: int)
    ensures AgreeBut([r] + a, [w] + b, i) <==> (i == 0 || r == w) && AgreeBut(a, b, i - 1)
  {
    var x, y := [r] + a, [w] + b;
    assert x[0] == r && y[0] == w;
    if AgreeBut(x, y, i) {
      forall m | 0 <= m < |a| && m != i - 1 ensures a[m] == b[m] {
        assert x[m + 1] == y[m + 1];
      }
    }
  }

  /** Entries that come in between push the rest out of place. */
  lemma AgreeButExtras(r: PageText, extras: seq<PageText>, a: seq<PageText>, w: PageText, b: seq<PageText>, i: int)
    requires |a| >= |b|
    ensures AgreeBut([r] + (extras + a), [w] + b, i) <==> extras == [] && (i == 0 || r == w) && AgreeBut(a, b, i - 1)
  {
    if extras == [] {
      assert extras + a == a;
      AgreeButCons(r, a, w, b, i);
    }
  }

  /** Page `i` adds no entry, and every other page is clean. */
  ghost predicate RestKeeps(pages: seq<PageText>, i: int) {
    forall m | 0 <= m < |pages| ::
      if m == i then Extras("\n\n" + pages[m].text) == [] else CleanLater(pages[m].text)
  }

  lemma RestKeepsCons(pages: seq<PageText>, i: int)
    requires pages != []
    ensures RestKeeps(pages, i) <==>
            (if i == 0 then Extras("\n\n" + pages[0].text) == [] else CleanLater(pages[0].text)) &&
            RestKeeps(pages[1..], i - 1)
  {
    var rest := pages[1..];
    assert forall m | 0 <= m < |rest| :: rest[m] == pages[m + 1];
    assert forall m | 1 <= m < |pages| :: pages[m] == rest[m - 1];
  }

  /** Every page is read as one entry at least. */
  lemma {:induction false} NoneVanishes(pages: seq<PageText>)
    ensures |ParseRest(Parts(pages))| >= |pages|
  {
    if pages != [] {
      TailRead(pages);
      NoneVanishes(pages[1..]);
    }
  }

  lemma HeadKept(p: PageText, a: seq<PageText>, b: seq<PageText>, i: int)
    requires |a| >= |b|
    ensures AgreeBut(Reading(p) + a, [PageText(p.page, TrimSpace(p.text))] + b, i) <==>
            (if i == 0 then Extras("\n\n" + p.text) == [] else CleanLater(p.text)) && AgreeBut(a, b, i - 1)
  {
    var r, extras := PageText(p.page, TrimSpace(Head("\n\n" + p.text))), Extras("\n\n" + p.text);
    CleanKeeps(p.text);
    assert Reading(p) + a == [r] + (extras + a);
    AgreeButExtras(r, extras, a, PageText(p.page, TrimSpace(p.text)), b, i);
  }

  lemma {:induction false} RestKept(pages: seq<PageText>, i: int)
    ensures AgreeBut(ParseRest(Parts(pages)), Trimmed(pages), i) <==> RestKeeps(pages, i)
    decreases |pages|
  {
    if pages != [] {
      TailRead(pages);
      NoneVanishes(pages[1..]);
      RestKept(pages[1..], i - 1);
      TrimmedCons(pages);
      HeadKept(pages[0], ParseRest(Parts(pages[1..])), Trimmed(pages[1..]), i);
      RestKeepsCons(pages, i);
    }
  }

  // ----- The whole blob --------------------------------------------------------------------------------

  lemma BlobSplit(pages: seq<PageText>)
    requires pages != []
    ensures Split(Encode(pages), SEPARATOR) == Split(pages[0].text, SEPARATOR) + Parts(pages[1..])
  {
    var t, rest := pages[0].text, pages[1..];
    if rest == [] {
      assert Encode(pages) == t;
    } else {
      EncodeRestIsTail(rest);
      assert Encode(pages) == t + SEPARATOR + Tail(rest);
      SplitJoined(t, Tail(rest));
    }
  }

  lemma PartsRead(a: seq<string>, b: seq<string>)
    requires a != []
    ensures ParseParts(a + b) == [PageText(1, TrimSpace(a[0]))] + (ParseRest(a[1..]) + ParseRest(b))
  {
    assert (a + b)[1..] == a[1..] + b;
    ParseRestAppend(a[1..], b);
  }

  lemma BlobRead(pages: seq<PageText>)
    requires Encode(pages) != ""
    ensures var t := pages[0].text;
            Parse(Encode(pages)) == [PageText(1, TrimSpace(Head(t)))] + (Extras(t) + ParseRest(Parts(pages[1..])))
  {
    BlobSplit(pages);
    PartsRead(Split(pages[0].text, SEPARATOR), Parts(pages[1..]));
  }

  /** What a new text is read with in front of it. */
  function Placed(i: nat, text: string): string {
    if i == 0 then text else "\n\n" + text
  }

  /** What a caller can check before the call: no other later page opens like a marker, nothing behind a
      separator in the new text has a bracket, and the file does not become one empty page. */
  ghost predicate LeavesOthers(pages: seq<PageText>, i: nat, text: string)
    requires i < |pages|
  {
    && (forall part | part in Split(Placed(i, text), SEPARATOR)[1..] :: Index(part, "]") < 0)
    && (forall j | 0 < j < |pages| && j != i :: !(OPENING <= pages[j].text))
    && (|pages| == 1 ==> text != "")
  }

  lemma {:induction false} NoBracketsNoEntries(parts: seq<string>)
    ensures ParseRest(parts) == [] <==> forall part | part in parts :: Index(part, "]") < 0
  {
    if parts != [] {
      NoBracketsNoEntries(parts[1..]);
      assert forall part :: part in parts <==> part == parts[0] || part in parts[1..];
    }
  }

  lemma RestOfEdit(pages: seq<PageText>, i: nat, text: string)
    requires i < |pages| && SettledPages(pages)
    ensures RestKeeps(WithText(pages, i, text)[1..], i - 1) <==>
            && (i > 0 ==> Extras("\n\n" + text) == [])
            && forall j | 0 < j < |pages| && j != i :: !(OPENING <= pages[j].text)
  {
    var after := WithText(pages, i, text);
    var rest := after[1..];
    assert forall m | 0 <= m < |rest| :: rest[m] == after[m + 1];
    forall j | 0 < j < |pages| && j != i ensures CleanLater(rest[j - 1].text) <==> !(OPENING <= pages[j].text) {
      SettledCleanLater(pages[j].text);
    }
    if i > 0 {
      assert rest[i - 1].text == text;
    }
    if RestKeeps(rest, i - 1) {
      forall j | 0 < j < |pages| && j != i ensures !(OPENING <= pages[j].text) {
        assert CleanLater(rest[j - 1].text);
      }
    }
  }

  lemma FirstAlone(pages: seq<PageText>, i: nat)
    requires 0 < i < |pages| && SettledPages(pages)
    ensures PageText(1, TrimSpace(Head(pages[0].text))) == pages[0] && Extras(pages[0].text) == []
  {
    HeadOf(pages[0].text);
    TrimmedStays(pages[0].text);
  }

  lemma BlobAgrees(pages: seq<PageText>, after: seq<PageText>, i: int)
    requires |after| == |pages| > 0 && Encode(after) != ""
    ensures var t := after[0].text;
            AgreeBut(Parse(Encode(after)), pages, i) <==>
            && Extras(t) == [] && (i == 0 || PageText(1, TrimSpace(Head(t))) == pages[0])
            && AgreeBut(ParseRest(Parts(after[1..])), pages[1..], i - 1)
  {
    var t, rest := after[0].text, ParseRest(Parts(after[1..]));
    BlobRead(after);
    NoneVanishes(after[1..]);
    assert pages == [pages[0]] + pages[1..];
    AgreeButExtras(PageText(1, TrimSpace(Head(t))), Extras(t), rest, pages[0], pages[1..], i);
  }

  /** The first page keeps its place; it keeps its text when it is not the one edited. */
  lemma FirstKept(pages: seq<PageText>, after: seq<PageText>, i: nat, text: string)
    requires i < |pages| && SettledPages(pages) && after == WithText(pages, i, text) && Encode(after) != ""
    ensures AgreeBut(Parse(Encode(after)), pages, i) <==>
            (i == 0 ==> Extras(text) == []) && AgreeBut(ParseRest(Parts(after[1..])), pages[1..], i - 1)
  {
    BlobAgrees(pages, after, i);
    if i > 0 {
      FirstAlone(pages, i);
      assert after[0] == pages[0];
    }
  }

  lemma TrimmedRest(pages: seq<PageText>, after: seq<PageText>, i: nat, text: string, a: seq<PageText>)
    requires i < |pages| && SettledPages(pages) && after == WithText(pages, i, text)
    ensures AgreeBut(a, Trimmed(after[1..]), i - 1) <==> AgreeBut(a, pages[1..], i - 1)
  {
    var rest := after[1..];
    forall m | 0 <= m < |rest| && m != i - 1 ensures Trimmed(rest)[m] == pages[1..][m] {
      TrimmedStays(pages[m + 1].text);
    }
  }

  lemma RestOfBlobKept(pages: seq<PageText>, after: seq<PageText>, i: nat, text: string)
    requires i < |pages| && SettledPages(pages) && after == WithText(pages, i, text)
    ensures AgreeBut(ParseRest(Parts(after[1..])), pages[1..], i - 1) <==> RestKeeps(after[1..], i - 1)
  {
    TrimmedRest(pages, after, i, text, ParseRest(Parts(after[1..])));
    RestKept(after[1..], i - 1);
  }

  /** Leaving the other pages untouched, with its exact condition: after editing page k, whatever has become of
      that page, every other entry is the one it was, in its place, if and only if the edit leaves others. */
  lemma OthersUntouchedExactly(text: string, k: GoInt, newText: string, i: nat)
    requires i == FirstNumbered(Parse(text), k)
    ensures AgreeBut(Parse(Edit(text, k, newText)), Parse(text), i) <==> LeavesOthers(Parse(text), i, newText)
  {
    var pages := Parse(text);
    var after := WithText(pages, i, newText);
    ParsedIsSettled(text);
    EncodeEmpty(after);
    NoBracketsNoEntries(Split(Placed(i, newText), SEPARATOR)[1..]);
    if Encode(after) == "" {
      assert Parse(Encode(after)) == [];
    } else {
      FirstKept(pages, after, i, newText);
      RestOfBlobKept(pages, after, i, newText);
      RestOfEdit(pages, i, newText);
    }
  }

  /** A safe edit leaves others; the converse does not hold, as a text may cut itself short without adding an
      entry. */
  lemma SafeLeavesOthers(text: string, k: GoInt, newText: string, i: nat)
    requires i == FirstNumbered(Parse(text), k) && EditSafe(Parse(text), i, newText)
    ensures LeavesOthers(Parse(text), i, newText)
  {
    EditFrameExact(text, k, newText, i);
    OthersUntouchedExactly(text, k, newText, i);
  }

  lemma SplitOfExample()
    ensures Split("x" + SEPARATOR + "7]y", SEPARATOR)[1..] == ["7]y"] && Index("7]y", "]") >= 0
  {
    var s, t := "x" + SEPARATOR + "7]y", "7]y";
    if i: nat :| OccursAt("x", SEPARATOR, i) {
    }
    if i: nat :| OccursAt(t, SEPARATOR, i) {
    }
    SplitJoined("x", t);
    assert t[1..2] == "]" && OccursAt(t, "]", 1);
  }

  /** An edit that does not: whatever the file, a new first page text with a marker in it moves the others. */
  lemma MarkerMovesOthers(text: string)
    requires Parse(text) != []
    ensures !AgreeBut(Parse(Edit(text, 1, "x" + SEPARATOR + "7]y")), Parse(text), 0)
  {
    var newText := "x" + SEPARATOR + "7]y";
    ParsedIsSettled(text);
    assert FirstNumbered(Parse(text), 1) == 0;
    SplitOfExample();
    OthersUntouchedExactly(text, 1, newText, 0);
    assert "7]y" in Split(newText, SEPARATOR)[1..];
  }

  lemma SplitOfCut()
    ensures Split("x" + SEPARATOR + "y", SEPARATOR)[1..] == ["y"] && Index("y", "]") < 0
  {
    if i: nat :| OccursAt("x", SEPARATOR, i) {
    }
    if i: nat :| OccursAt("y", SEPARATOR, i) {
    }
    SplitJoined("x", "y");
    assert "y"[0..1] == "y" && "y"[1..1] == "";
  }

  /** An edit that is not safe, as it cuts its own text short, and leaves the others all the same. */
  lemma CutTextLeavesOthers(text: string)
    requires Parse(text) != [] && forall j | 0 < j < |Parse(text)| :: !(OPENING <= Parse(text)[j].text)
    ensures !EditSafe(Parse(text), 0, "x" + SEPARATOR + "y")
    ensures AgreeBut(Parse(Edit(text, 1, "x" + SEPARATOR + "y")), Parse(text), 0)
  {
    var newText := "x" + SEPARATOR + "y";
    ParsedIsSettled(text);
    assert FirstNumbered(Parse(text), 1) == 0;
    SplitOfCut();
    OthersUntouchedExactly(text, 1, newText, 0);
    assert OccursAt(newText, SEPARATOR, 1);
  }
}
