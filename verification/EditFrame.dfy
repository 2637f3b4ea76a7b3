/** What an edit changes, and when: the frame of UpdatePage as GetPages sees it. */
module EditFrame {
  import opened GoStrings
  import opened PageCodec
  import opened CodecRoundTrip
  import opened PageEdit

  const OPENING := "[PAGE "

  // ----- Pages that came out of the parser ------------------------------------------------------

  /** Trimmed and free of separators, as every parsed text is. */
  ghost predicate Settled(text: string) {
    IsTrimmed(text) && !Contains(text, SEPARATOR)
  }

  ghost predicate SettledPages(pages: seq<PageText>) {
    && (forall i | 0 <= i < |pages| :: Settled(pages[i].text))
    && (pages != [] ==> pages[0].page == 1)
  }

  lemma {:induction false} PartsAreClean(s: string)
    ensures forall i | 0 <= i < |Split(s, SEPARATOR)| :: !Contains(Split(s, SEPARATOR)[i], SEPARATOR)
    decreases |s|
  {
    var i := Index(s, SEPARATOR);
    if i >= 0 {
      PartsAreClean(s[i + |SEPARATOR|..]);
      if j: nat :| OccursAt(s[..i], SEPARATOR, j) {
        assert s[j..j + |SEPARATOR|] == s[..i][j..j + |SEPARATOR|];
        assert OccursAt(s, SEPARATOR, j);
      }
    }
  }

  lemma SliceClean(s: string, a: nat, b: nat)
    requires a <= b <= |s| && !Contains(s, SEPARATOR)
    ensures !Contains(s[a..b], SEPARATOR)
  {
    assert s[..a] + s[a..b] + s[b..] == s;
    if Contains(s[a..b], SEPARATOR) {
      ContainsWithin(s[..a], s[a..b], s[b..], SEPARATOR);
    }
  }

  lemma TrimKeepsClean(s: string, i: nat)
    requires i <= |s| && !Contains(s, SEPARATOR)
    ensures Settled(TrimSpace(s[i..]))
  {
    var a, b := TrimSpaceFacts(s[i..]);
    SliceClean(s, i + a, i + b);
    assert s[i..][a..b] == s[i + a..i + b];
  }

  lemma {:induction false} ParseRestSettled(parts: seq<string>)
    requires forall i | 0 <= i < |parts| :: !Contains(parts[i], SEPARATOR)
    ensures forall i | 0 <= i < |ParseRest(parts)| :: Settled(ParseRest(parts)[i].text)
  {
    if parts != [] {
      ParseRestSettled(parts[1..]);
      var i := Index(parts[0], "]");
      if i >= 0 {
        TrimKeepsClean(parts[0], i + 1);
      }
    }
  }

  lemma ParsedIsSettled(text: string)
    ensures SettledPages(Parse(text))
  {
    if text != "" {
      var parts := Split(text, SEPARATOR);
      PartsAreClean(text);
      ParseRestSettled(parts[1..]);
      TrimKeepsClean(parts[0], 0);
      assert parts[0][0..] == parts[0];
    }
  }

  /** A settled text after a marker is clean unless it opens like a marker itself. */
  lemma SettledCleanLater(text: string)
    requires Settled(text)
    ensures CleanLater(text) <==> !(OPENING <= text)
  {
    var s := "\n\n" + text;
    if OPENING <= text {
      assert s[..|SEPARATOR|] == SEPARATOR;
      assert OccursAt(s, SEPARATOR, 0);
    }
    if i: nat :| OccursAt(s, SEPARATOR, i) {
      SeparatorAt(s, i);
      assert s[2] == text[0];
      if i == 0 {
        assert s[2..8] == text[..6];
        assert s[0..8][2..8] == SEPARATOR[2..8];
        assert SEPARATOR[2..8] == OPENING;
      } else if i > 1 {
        assert text[i - 2..i - 2 + |SEPARATOR|] == s[i..i + |SEPARATOR|];
        assert OccursAt(text, SEPARATOR, i - 2);
      }
    }
  }

  // ----- One edit -------------------------------------------------------------------------------------

  ghost predicate SafeText(i: nat, text: string) {
    if i == 0 then !Contains(text, SEPARATOR) else CleanLater(text)
  }

  /** What a caller can check before the call: the new text is separator-free where it goes, no other later
      page opens like a marker, and the file does not become one empty page. */
  ghost predicate EditSafe(pages: seq<PageText>, i: nat, text: string)
    requires i < |pages|
  {
    && SafeText(i, text)
    && (forall j | 0 < j < |pages| && j != i :: !(OPENING <= pages[j].text))
    && (|pages| == 1 ==> text != "")
  }

  lemma EditedFaithful(pages: seq<PageText>, i: nat, text: string)
    requires i < |pages| && SettledPages(pages)
    ensures Faithful(WithText(pages, i, text)) <==> EditSafe(pages, i, text)
  {
    var after := WithText(pages, i, text);
    forall j | 0 <= j < |pages| && j != i
      ensures (if j == 0 then !Contains(after[j].text, SEPARATOR) else CleanLater(after[j].text)) <==>
              (j == 0 || !(OPENING <= pages[j].text))
    {
      assert after[j] == pages[j];
      if j > 0 {
        SettledCleanLater(pages[j].text);
      }
    }
    assert after[i].text == text;
  }

  lemma TrimmedEdit(pages: seq<PageText>, i: nat, text: string)
    requires i < |pages| && SettledPages(pages)
    ensures Trimmed(WithText(pages, i, text)) == WithText(pages, i, TrimSpace(text))
  {
    forall j | 0 <= j < |pages|
      ensures Trimmed(WithText(pages, i, text))[j] == WithText(pages, i, TrimSpace(text))[j]
    {
      if j != i {
        TrimmedStays(pages[j].text);
      }
    }
  }

  /** The edit frame, with its exact condition: after editing page k, the pages are those before with only
      the first entry numbered k changed, to the trimmed text, if and only if the edit is safe. */
  lemma EditFrameExact(text: string, k: GoInt, newText: string, i: nat)
    requires i == FirstNumbered(Parse(text), k)
    ensures Parse(Edit(text, k, newText)) == WithText(Parse(text), i, TrimSpace(newText)) <==>
            EditSafe(Parse(text), i, newText)
  {
    var pages := Parse(text);
    ParsedIsSettled(text);
    EditedFaithful(pages, i, newText);
    TrimmedEdit(pages, i, newText);
    RoundTrip(WithText(pages, i, newText));
  }

  lemma TextKept(pages: seq<PageText>, i: nat, text: string)
    requires i < |pages|
    ensures WithText(pages, i, text) == pages <==> text == pages[i].text
  {
    if WithText(pages, i, text) == pages {
      assert pages[i] == PageText(pages[i].page, text);
    }
  }

  /** A reader sees nothing of an edit if and only if there is no such page or its text was that already. */
  lemma EditUnseen(text: string, k: GoInt, newText: string)
    requires var i := FirstNumbered(Parse(text), k); i >= 0 ==> EditSafe(Parse(text), i, newText)
    ensures var i := FirstNumbered(Parse(text), k);
            Parse(Edit(text, k, newText)) == Parse(text) <==> i < 0 || TrimSpace(newText) == Parse(text)[i].text
  {
    var i := FirstNumbered(Parse(text), k);
    if i >= 0 {
      EditFrameExact(text, k, newText, i);
      TextKept(Parse(text), i, TrimSpace(newText));
    }
  }

  // ----- Two edits ---------------------------------------------------------------------------------------

  lemma {:induction false} NumbersKept(pages: seq<PageText>, i: nat, text: string, k: GoInt)
    requires i < |pages|
    ensures FirstNumbered(WithText(pages, i, text), k) == FirstNumbered(pages, k)
  {
    var a, b := FirstNumbered(WithText(pages, i, text), k), FirstNumbered(pages, k);
    assert forall j | 0 <= j < |pages| :: WithText(pages, i, text)[j].page == pages[j].page;
  }

  /** An edit whose own text does not come to open like a marker once trimmed. */
  ghost predicate StaysPlain(i: nat, text: string) {
    i > 0 ==> !(OPENING <= TrimSpace(text))
  }

  lemma SecondEditSafe(pages: seq<PageText>, i: nat, s: string, j: nat, t: string)
    requires i < |pages| && j < |pages| && i != j
    requires EditSafe(pages, i, s) && EditSafe(pages, j, t)
    ensures EditSafe(WithText(pages, i, TrimSpace(s)), j, t) <==> StaysPlain(i, s)
  {
    var between := WithText(pages, i, TrimSpace(s));
    assert between[i].text == TrimSpace(s);
    forall n | 0 < n < |pages| && n != i && n != j ensures !(OPENING <= between[n].text) {
      assert between[n] == pages[n];
    }
  }

  lemma InOrder(text: string, k: GoInt, s: string, i: nat, l: GoInt, t: string, j: nat)
    requires i == FirstNumbered(Parse(text), k) && j == FirstNumbered(Parse(text), l) && k != l
    requires EditSafe(Parse(text), i, s) && EditSafe(Parse(text), j, t)
    ensures Parse(Edit(Edit(text, k, s), l, t)) ==
              WithText(WithText(Parse(text), i, TrimSpace(s)), j, TrimSpace(t))
            <==> StaysPlain(i, s)
  {
    var pages := Parse(text);
    EditFrameExact(text, k, s, i);
    var between := Edit(text, k, s);
    NumbersKept(pages, i, TrimSpace(s), l);
    EditFrameExact(between, l, t, j);
    SecondEditSafe(pages, i, s, j, t);
  }

  lemma TextsSwap(pages: seq<PageText>, i: nat, s: string, j: nat, t: string)
    requires i < |pages| && j < |pages| && i != j
    ensures WithText(WithText(pages, i, s), j, t) == WithText(WithText(pages, j, t), i, s)
  {
  }

  /** The pages before a page that only other edits touch are clean. */
  lemma CleanBefore(pages: seq<PageText>, after: seq<PageText>, i: nat)
    requires 0 < i < |pages| && |after| == |pages| && SettledPages(pages)
    requires forall m | 0 <= m < i :: after[m] == pages[m]
    requires forall m | 0 < m < i :: !(OPENING <= pages[m].text)
    ensures !Contains(after[0].text, SEPARATOR) && forall m | 0 < m < i :: CleanLater(after[m].text)
  {
    forall m | 0 < m < i ensures CleanLater(after[m].text) {
      SettledCleanLater(pages[m].text);
    }
  }

  /** The blob after two safe edits, read from the pages before them. */
  lemma BlobAfterBoth(text: string, k: GoInt, s: string, i: nat, l: GoInt, t: string, j: nat)
    requires i == FirstNumbered(Parse(text), k) && j == FirstNumbered(Parse(text), l) && k != l
    requires EditSafe(Parse(text), i, s)
    ensures Edit(Edit(text, k, s), l, t) == Encode(WithText(WithText(Parse(text), i, TrimSpace(s)), j, t))
    ensures Settled(TrimSpace(s)) && SettledPages(Parse(text))
  {
    EditFrameExact(text, k, s, i);
    NumbersKept(Parse(text), i, TrimSpace(s), l);
    ParsedIsSettled(text);
    ParsedIsSettled(Edit(text, k, s));
    assert WithText(Parse(text), i, TrimSpace(s))[i].text == TrimSpace(s);
  }

  /** Edited before a later page, a hidden opening has come out and cuts its page... */
  lemma HiddenCuts(text: string, k: GoInt, s: string, i: nat, l: GoInt, t: string, j: nat)
    requires i == FirstNumbered(Parse(text), k) && j == FirstNumbered(Parse(text), l) && 0 < i < j
    requires EditSafe(Parse(text), i, s) && EditSafe(Parse(text), j, t) && !StaysPlain(i, s)
    ensures var ab := Parse(Edit(Edit(text, k, s), l, t)); i < |ab| && ab[i].text != TrimSpace(s)
  {
    var pages, trimmed := Parse(text), TrimSpace(s);
    var ab := WithText(WithText(pages, i, trimmed), j, t);
    BlobAfterBoth(text, k, s, i, l, t, j);
    CleanBefore(pages, ab, i);
    SettledCleanLater(trimmed);
    TrimmedStays(trimmed);
    PageReadBack(ab, i, trimmed);
  }

  /** ... and edited after it, it is still hidden and kept. */
  lemma HiddenKept(text: string, k: GoInt, s: string, i: nat, l: GoInt, t: string, j: nat)
    requires i == FirstNumbered(Parse(text), k) && j == FirstNumbered(Parse(text), l) && 0 < i < j
    requires EditSafe(Parse(text), i, s) && EditSafe(Parse(text), j, t)
    ensures var ba := Parse(Edit(Edit(text, l, t), k, s)); i < |ba| && ba[i].text == TrimSpace(s)
  {
    var pages := Parse(text);
    var ba := WithText(WithText(pages, j, TrimSpace(t)), i, s);
    BlobAfterBoth(text, l, t, j, k, s, i);
    CleanBefore(pages, ba, i);
    PageReadBack(ba, i, s);
  }

  /** Two safe edits of different pages have one outcome in either order if and only if neither new text opens
      like a marker once trimmed, and that outcome has both texts in place. */
  lemma EditsCommute(text: string, k: GoInt, s: string, i: nat, l: GoInt, t: string, j: nat)
    requires i == FirstNumbered(Parse(text), k) && j == FirstNumbered(Parse(text), l) && k != l
    requires EditSafe(Parse(text), i, s) && EditSafe(Parse(text), j, t)
    ensures var ab, ba := Parse(Edit(Edit(text, k, s), l, t)), Parse(Edit(Edit(text, l, t), k, s));
            && (ab == ba <==> StaysPlain(i, s) && StaysPlain(j, t))
            && (ab == ba ==> ab == WithText(WithText(Parse(text), i, TrimSpace(s)), j, TrimSpace(t)))
  {
    TextsSwap(Parse(text), i, TrimSpace(s), j, TrimSpace(t));
    InOrder(text, k, s, i, l, t, j);
    InOrder(text, l, t, j, k, s, i);
    if !StaysPlain(i, s) && !StaysPlain(j, t) {
      if i < j {
        HiddenCuts(text, k, s, i, l, t, j);
        HiddenKept(text, k, s, i, l, t, j);
      } else {
        HiddenCuts(text, l, t, j, k, s, i);
        HiddenKept(text, l, t, j, k, s, i);
      }
    }
  }

  /** A blank before the opening hides it from the first edit and not from the second: editing page k first
      loses one of the two edits. */
  lemma HiddenOpeningBreaksOrder(text: string, k: GoInt, i: nat, l: GoInt, t: string, j: nat)
    requires i == FirstNumbered(Parse(text), k) && j == FirstNumbered(Parse(text), l) && k != l && i > 0
    requires EditSafe(Parse(text), i, " [PAGE x") && EditSafe(Parse(text), j, t) && StaysPlain(j, t)
    ensures Parse(Edit(Edit(text, k, " [PAGE x"), l, t)) != Parse(Edit(Edit(text, l, t), k, " [PAGE x"))
  {
    var s := " [PAGE x";
    assert s == [' '] + "[PAGE x";
    TrimSkipsLeading(' ', "[PAGE x");
    TrimmedStays("[PAGE x");
    assert "[PAGE x"[..6] == OPENING;
    EditsCommute(text, k, s, i, l, t, j);
  }
}
