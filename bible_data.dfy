/**
 * Verse identity and the book table (data/bibleData.ts): the verse id
 * `book-chapter-verse`, its parser, the human-readable reference and the
 * constant table of the 66 books.
 */
module BibleData {
  import opened Wrappers
  import opened Strings

  datatype Testament = OldTestament | NewTestament

  datatype BibleBook = BibleBook(name: string, testament: Testament, chapters: nat, abbreviation: string)

  /** A verse; `chapter` and `verse` are JavaScript numbers, taken here as integers. */
  datatype Verse = Verse(book: string, chapter: int, verse: int, text: string)

  /** What `parseVerseId` returns; a `None` number stands for NaN. */
  datatype ParsedVerseId = ParsedVerseId(book: string, chapter: Option<int>, verse: Option<int>)

  /** The identity of a verse: its book, chapter and verse number (not its text). */
  function Key(v: Verse): (string, int, int) {
    (v.book, v.chapter, v.verse)
  }

  /** `${book} ${chapter}:${verse}`: the book and a space, then the chapter, a colon and the verse. */
  function VerseReference(v: Verse): (r: string)
    ensures v.book + " " <= r
    ensures |":" + IntToString(v.verse)| <= |r|
    ensures r[|r| - |":" + IntToString(v.verse)|..] == ":" + IntToString(v.verse)
  {
    var tail := ":" + IntToString(v.verse);
    var r := v.book + " " + IntToString(v.chapter) + tail;
    assert r[|r| - |tail|..] == tail;
    r
  }

  /**
   * `${book}-${chapter}-${verse}`: for non-negative numbers, splitting the id on
   * `-` gives the book's own pieces followed by the printed chapter and verse.
   */
  function VerseId(v: Verse): (id: string)
    ensures v.book + "-" <= id
    ensures v.chapter >= 0 && v.verse >= 0 ==>
              Split(id, '-') == Split(v.book, '-') + [IntToString(v.chapter), IntToString(v.verse)]
  {
    var c := IntToString(v.chapter);
    var w := IntToString(v.verse);
    var id := v.book + "-" + c + "-" + w;
    assert v.chapter >= 0 && v.verse >= 0 ==> Split(id, '-') == Split(v.book, '-') + [c, w] by {
      if v.chapter >= 0 && v.verse >= 0 {
        assert id == (v.book + ['-'] + c) + ['-'] + w;
        SplitAround(v.book + ['-'] + c, w, '-');
        SplitAround(v.book, c, '-');
        SplitWithoutSeparator(c, '-');
        SplitWithoutSeparator(w, '-');
      }
    }
    id
  }

  /**
   * `parseVerseId`: split on `-`; fewer than three parts is `null`; otherwise the
   * last two parts (popped off) are the verse and the chapter and the remaining
   * parts, joined with `-` again, are the book.
   */
  function ParseVerseId(id: string): (r: Option<ParsedVerseId>)
    ensures r.None? <==> Occurrences(id, '-') < 2
  {
    FromParts(Split(id, '-'))
  }

  /** The part of `parseVerseId` after the split. */
  function FromParts(parts: seq<string>): (r: Option<ParsedVerseId>)
    ensures r.None? <==> |parts| < 3
  {
    var n := |parts|;
    if n < 3 then None
    else Some(ParsedVerseId(Join(parts[..n - 2], '-'), ParseInt(parts[n - 2]), ParseInt(parts[n - 1])))
  }

  /** How `parseVerseId` reads an id whose parts are some book parts followed by two fields. */
  lemma ParseVerseIdOfParts(id: string, bookParts: seq<string>, c: string, w: string)
    requires |bookParts| >= 1
    requires Split(id, '-') == bookParts + [c] + [w]
    ensures ParseVerseId(id) == Some(ParsedVerseId(Join(bookParts, '-'), ParseInt(c), ParseInt(w)))
  {
    var parts := Split(id, '-');
    var n := |parts|;
    assert parts[..n - 2] == bookParts && parts[n - 2] == c && parts[n - 1] == w;
    FromPartsFields(parts, bookParts, c, w);
  }

  lemma FromPartsFields(parts: seq<string>, bookParts: seq<string>, c: string, w: string)
    requires |parts| >= 3 && parts[..|parts| - 2] == bookParts && parts[|parts| - 2] == c && parts[|parts| - 1] == w
    ensures FromParts(parts) == Some(ParsedVerseId(Join(bookParts, '-'), ParseInt(c), ParseInt(w)))
  {
  }

  /**
   * The parsed book is everything before the second-to-last `-`: the id is the
   * book, a dash, a dash-free chapter field, a dash and a dash-free verse field.
   */
  lemma ParsedBookPrecedesLastTwoFields(id: string)
    requires ParseVerseId(id).Some?
    ensures var parts := Split(id, '-');
            var n := |parts|;
            && '-' !in parts[n - 2] && '-' !in parts[n - 1]
            && id == ParseVerseId(id).value.book + "-" + parts[n - 2] + "-" + parts[n - 1]
  {
    var parts := Split(id, '-');
    var n := |parts|;
    var front, p, q := parts[..n - 2], parts[n - 2], parts[n - 1];
    FromPartsFields(parts, front, p, q);
    LastTwo(parts);
    JoinSplit(id, '-');
    JoinLastTwo(front, p, q, '-');
  }

  /** Round trip: parsing an id gives back the book, chapter and verse, even when the book name contains `-`. */
  lemma ParseVerseIdOfVerseId(v: Verse)
    requires v.chapter >= 0 && v.verse >= 0
    ensures ParseVerseId(VerseId(v)) == Some(ParsedVerseId(v.book, Some(v.chapter), Some(v.verse)))
  {
    var c := IntToString(v.chapter);
    var w := IntToString(v.verse);
    var id := VerseId(v);
    var bookParts := Split(v.book, '-');
    assert Split(id, '-') == bookParts + [c] + [w];
    ParseVerseIdOfParts(id, bookParts, c, w);
    JoinSplit(v.book, '-');
    ParseIntOfIntToString(v.chapter);
    ParseIntOfIntToString(v.verse);
  }

  /** Two verses with non-negative numbers have the same id only if they have the same identity. */
  lemma VerseIdInjective(a: Verse, b: Verse)
    requires a.chapter >= 0 && a.verse >= 0 && b.chapter >= 0 && b.verse >= 0
    requires VerseId(a) == VerseId(b)
    ensures Key(a) == Key(b)
  {
    ParseVerseIdOfVerseId(a);
    ParseVerseIdOfVerseId(b);
  }

  /** Verses with the same book, chapter and verse number share their id and their reference. */
  lemma VerseIdOfSameKey(a: Verse, b: Verse)
    requires Key(a) == Key(b)
    ensures VerseId(a) == VerseId(b) && VerseReference(a) == VerseReference(b)
  {
  }

  /** References of verses with non-negative numbers are injective too, though book names contain spaces. */
  lemma VerseReferenceInjective(p: Verse, q: Verse)
    requires p.chapter >= 0 && p.verse >= 0 && q.chapter >= 0 && q.verse >= 0
    requires VerseReference(p) == VerseReference(q)
    ensures Key(p) == Key(q)
  {
    var pc, pv := IntToString(p.chapter), IntToString(p.verse);
    var qc, qv := IntToString(q.chapter), IntToString(q.verse);
    assert ':' !in pv && ':' !in qv && ' ' !in pc && ' ' !in qc by {
      assert AllDigits(pv) && AllDigits(qv) && AllDigits(pc) && AllDigits(qc);
    }
    assert VerseReference(p) == (p.book + [' '] + pc) + [':'] + pv;
    assert VerseReference(q) == (q.book + [' '] + qc) + [':'] + qv;
    SplitAtLastSeparator(p.book + [' '] + pc, pv, q.book + [' '] + qc, qv, ':');
    SplitAtLastSeparator(p.book, pc, q.book, qc, ' ');
    NatToStringInjective(p.chapter, q.chapter);
    NatToStringInjective(p.verse, q.verse);
  }

  /** The Old Testament part of `BIBLE_BOOKS` (39 books). */
  const OldTestamentBooks: seq<BibleBook> := [
    BibleBook("Genesis", OldTestament, 50, "Gen"),
    BibleBook("Exodus", OldTestament, 40, "Exod"),
    BibleBook("Leviticus", OldTestament, 27, "Lev"),
    BibleBook("Numbers", OldTestament, 36, "Num"),
    BibleBook("Deuteronomy", OldTestament, 34, "Deut"),
    BibleBook("Joshua", OldTestament, 24, "Josh"),
    BibleBook("Judges", OldTestament, 21, "Judg"),
    BibleBook("Ruth", OldTestament, 4, "Ruth"),
    BibleBook("1 Samuel", OldTestament, 31, "1Sam"),
    BibleBook("2 Samuel", OldTestament, 24, "2Sam"),
    BibleBook("1 Kings", OldTestament, 22, "1Kgs"),
    BibleBook("2 Kings", OldTestament, 25, "2Kgs"),
    BibleBook("1 Chronicles", OldTestament, 29, "1Chr"),
    BibleBook("2 Chronicles", OldTestament, 36, "2Chr"),
    BibleBook("Ezra", OldTestament, 10, "Ezra"),
    BibleBook("Nehemiah", OldTestament, 13, "Neh"),
    BibleBook("Esther", OldTestament, 10, "Esth"),
    BibleBook("Job", OldTestament, 42, "Job"),
    BibleBook("Psalms", OldTestament, 150, "Ps"),
    BibleBook("Proverbs", OldTestament, 31, "Prov"),
    BibleBook("Ecclesiastes", OldTestament, 12, "Eccl"),
    BibleBook("Song of Solomon", OldTestament, 8, "Song"),
    BibleBook("Isaiah", OldTestament, 66, "Isa"),
    BibleBook("Jeremiah", OldTestament, 52, "Jer"),
    BibleBook("Lamentations", OldTestament, 5, "Lam"),
    BibleBook("Ezekiel", OldTestament, 48, "Ezek"),
    BibleBook("Daniel", OldTestament, 12, "Dan"),
    BibleBook("Hosea", OldTestament, 14, "Hos"),
    BibleBook("Joel", OldTestament, 3, "Joel"),
    BibleBook("Amos", OldTestament, 9, "Amos"),
    BibleBook("Obadiah", OldTestament, 1, "Obad"),
    BibleBook("Jonah", OldTestament, 4, "Jonah"),
    BibleBook("Micah", OldTestament, 7, "Mic"),
    BibleBook("Nahum", OldTestament, 3, "Nah"),
    BibleBook("Habakkuk", OldTestament, 3, "Hab"),
    BibleBook("Zephaniah", OldTestament, 3, "Zeph"),
    BibleBook("Haggai", OldTestament, 2, "Hag"),
    BibleBook("Zechariah", OldTestament, 14, "Zech"),
    BibleBook("Malachi", OldTestament, 4, "Mal")
  ]

  /** The New Testament part of `BIBLE_BOOKS` (27 books). */
  const NewTestamentBooks: seq<BibleBook> := [
    BibleBook("Matthew", NewTestament, 28, "Matt"),
    BibleBook("Mark", NewTestament, 16, "Mark"),
    BibleBook("Luke", NewTestament, 24, "Luke"),
    BibleBook("John", NewTestament, 21, "John"),
    BibleBook("Acts", NewTestament, 28, "Acts"),
    BibleBook("Romans", NewTestament, 16, "Rom"),
    BibleBook("1 Corinthians", NewTestament, 16, "1Cor"),
    BibleBook("2 Corinthians", NewTestament, 13, "2Cor"),
    BibleBook("Galatians", NewTestament, 6, "Gal"),
    BibleBook("Ephesians", NewTestament, 6, "Eph"),
    BibleBook("Philippians", NewTestament, 4, "Phil"),
    BibleBook("Colossians", NewTestament, 4, "Col"),
    BibleBook("1 Thessalonians", NewTestament, 5, "1Thess"),
    BibleBook("2 Thessalonians", NewTestament, 3, "2Thess"),
    BibleBook("1 Timothy", NewTestament, 6, "1Tim"),
    BibleBook("2 Timothy", NewTestament, 4, "2Tim"),
    BibleBook("Titus", NewTestament, 3, "Titus"),
    BibleBook("Philemon", NewTestament, 1, "Phlm"),
    BibleBook("Hebrews", NewTestament, 13, "Heb"),
    BibleBook("James", NewTestament, 5, "Jas"),
    BibleBook("1 Peter", NewTestament, 5, "1Pet"),
    BibleBook("2 Peter", NewTestament, 3, "2Pet"),
    BibleBook("1 John", NewTestament, 5, "1John"),
    BibleBook("2 John", NewTestament, 1, "2John"),
    BibleBook("3 John", NewTestament, 1, "3John"),
    BibleBook("Jude", NewTestament, 1, "Jude"),
    BibleBook("Revelation", NewTestament, 22, "Rev")
  ]

  /** `BIBLE_BOOKS`, in canonical order. */
  const BibleBooks: seq<BibleBook> := OldTestamentBooks + NewTestamentBooks

  lemma OldTestamentBooksShape()
    ensures |OldTestamentBooks| == 39
    ensures forall i :: 0 <= i < |OldTestamentBooks| ==> OldTestamentBooks[i].testament == OldTestament
    ensures forall i :: 0 <= i < |OldTestamentBooks| ==> OldTestamentBooks[i].chapters >= 1
  {
  }

  lemma NewTestamentBooksShape()
    ensures |NewTestamentBooks| == 27
    ensures forall i :: 0 <= i < |NewTestamentBooks| ==> NewTestamentBooks[i].testament == NewTestament
    ensures forall i :: 0 <= i < |NewTestamentBooks| ==> NewTestamentBooks[i].chapters >= 1
  {
  }

  /** The table's shape: 66 books, the first 39 of the Old Testament, the rest of the New, none without chapters. */
  lemma BibleBooksShape()
    ensures |BibleBooks| == 66
    ensures forall i :: 0 <= i < 39 ==> BibleBooks[i].testament == OldTestament
    ensures forall i :: 39 <= i < |BibleBooks| ==> BibleBooks[i].testament == NewTestament
    ensures forall i :: 0 <= i < |BibleBooks| ==> BibleBooks[i].chapters >= 1
  {
    OldTestamentBooksShape();
    NewTestamentBooksShape();
    assert forall i :: 0 <= i < 39 ==> BibleBooks[i] == OldTestamentBooks[i];
    assert forall i :: 39 <= i < 66 ==> BibleBooks[i] == NewTestamentBooks[i - 39];
  }
}
