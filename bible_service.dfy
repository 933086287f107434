/**
 * Chapter lookup and text search over the read-only scripture dataset
 * (services/bibleService.ts). The bundled JSON `{ Book: { "n": [ {v, t}, ... ] } }`
 * is modelled as a sequence of books in `Object.entries` order, each a sequence of
 * chapters in key order, each normally an array of `{v, t}` entries.
 */
module BibleService {
  import opened Wrappers
  import opened Strings
  import opened BibleData

  /** One `{v, t}` element of a chapter array. */
  datatype VerseEntry = VerseEntry(v: int, t: string)

  /** The value stored under a chapter key: normally an array, but the code guards against anything else. */
  datatype ChapterValue = Entries(entries: seq<VerseEntry>) | NotAnArray

  /** A chapter key (the decimal text of `number`) and its value. */
  datatype ChapterData = ChapterData(number: nat, value: ChapterValue)

  datatype BookData = BookData(name: string, chapters: seq<ChapterData>)

  type Dataset = seq<BookData>

  /** What `getChapter` returns when it finds the chapter. */
  datatype ChapterResult = ChapterResult(book: string, chapter: int, verses: seq<Verse>)

  // ---------------------------------------------------------------------------
  // getChapter

  /** `typedBibleData[bookName]`. */
  function FindBook(data: Dataset, name: string): (r: Option<BookData>)
    ensures r.Some? ==> r.value in data && r.value.name == name
    ensures r.None? ==> forall i :: 0 <= i < |data| ==> data[i].name != name
  {
    if data == [] then None
    else if data[0].name == name then Some(data[0])
    else FindBook(data[1..], name)
  }

  /** `bookData[chapterNumber.toString()]`. */
  function FindChapter(chapters: seq<ChapterData>, number: int): (r: Option<ChapterValue>)
    ensures r.Some? ==> exists i :: 0 <= i < |chapters| && chapters[i].number == number && chapters[i].value == r.value
    ensures r.None? ==> forall i :: 0 <= i < |chapters| ==> chapters[i].number != number
  {
    if chapters == [] then None
    else if chapters[0].number == number then Some(chapters[0].value)
    else FindChapter(chapters[1..], number)
  }

  /** The `map` step: each entry becomes a verse of the requested book and chapter. */
  function ToVerses(book: string, chapter: int, entries: seq<VerseEntry>): (r: seq<Verse>)
    ensures |r| == |entries|
    ensures forall i :: 0 <= i < |r| ==> r[i] == Verse(book, chapter, entries[i].v, entries[i].t)
  {
    if entries == [] then [] else [Verse(book, chapter, entries[0].v, entries[0].t)] + ToVerses(book, chapter, entries[1..])
  }

  predicate SortedByVerse(s: seq<Verse>) {
    forall i, j :: 0 <= i < j < |s| ==> s[i].verse <= s[j].verse
  }

  /** Inserts `x` before the first verse whose number is not smaller. */
  function InsertByVerse(x: Verse, s: seq<Verse>): (r: seq<Verse>)
    ensures multiset(r) == multiset(s) + multiset{x}
    ensures |r| == |s| + 1
  {
    if s == [] then [x]
    else if x.verse <= s[0].verse then [x] + s
    else
      assert s == [s[0]] + s[1..];
      [s[0]] + InsertByVerse(x, s[1..])
  }

  lemma {:induction false} InsertByVerseKeepsSorted(x: Verse, s: seq<Verse>)
    requires SortedByVerse(s)
    ensures SortedByVerse(InsertByVerse(x, s))
  {
    if s == [] {
    } else if x.verse <= s[0].verse {
      SortedCons(x, s);
    } else {
      var rest := InsertByVerse(x, s[1..]);
      InsertByVerseKeepsSorted(x, s[1..]);
      InsertByVerseBound(x, s[1..], s[0].verse);
      SortedCons(s[0], rest);
    }
  }

  /** Every verse number of the insertion is at least a bound that `x` and all of `s` respect. */
  lemma {:induction false} InsertByVerseBound(x: Verse, s: seq<Verse>, bound: int)
    requires bound <= x.verse
    requires forall j :: 0 <= j < |s| ==> bound <= s[j].verse
    ensures forall j :: 0 <= j < |InsertByVerse(x, s)| ==> bound <= InsertByVerse(x, s)[j].verse
  {
    if s != [] && x.verse > s[0].verse {
      InsertByVerseBound(x, s[1..], bound);
      var rest := InsertByVerse(x, s[1..]);
      assert forall j :: 0 < j < |rest| + 1 ==> ([s[0]] + rest)[j] == rest[j - 1];
    }
  }

  /** A verse no later than every verse of a sorted list can go in front of it. */
  lemma SortedCons(x: Verse, s: seq<Verse>)
    requires SortedByVerse(s)
    requires forall j :: 0 <= j < |s| ==> x.verse <= s[j].verse
    ensures SortedByVerse([x] + s)
  {
    var r := [x] + s;
    forall i, j | 0 <= i < j < |r|
      ensures r[i].verse <= r[j].verse
    {
      assert r[j] == s[j - 1];
      if i > 0 {
        assert r[i] == s[i - 1];
      }
    }
  }

  /** The `sort((a, b) => a.verse - b.verse)` step, as an insertion sort. */
  function SortByVerse(s: seq<Verse>): (r: seq<Verse>)
    ensures multiset(r) == multiset(s)
    ensures |r| == |s|
    ensures SortedByVerse(r)
  {
    if s == [] then []
    else
      assert s == [s[0]] + s[1..];
      var sortedRest := SortByVerse(s[1..]);
      InsertByVerseKeepsSorted(s[0], sortedRest);
      InsertByVerse(s[0], sortedRest)
  }

  /** `getChapter(bookName, chapterNumber)`. */
  function GetChapter(data: Dataset, bookName: string, chapterNumber: int): (r: Option<ChapterResult>)
    ensures r.None? <==>
              || FindBook(data, bookName).None?
              || FindChapter(FindBook(data, bookName).value.chapters, chapterNumber).None?
              || FindChapter(FindBook(data, bookName).value.chapters, chapterNumber).value.NotAnArray?
    ensures r.Some? ==>
              var entries := FindChapter(FindBook(data, bookName).value.chapters, chapterNumber).value.entries;
              && r.value.book == bookName && r.value.chapter == chapterNumber
              && |r.value.verses| == |entries|
              && multiset(r.value.verses) == multiset(ToVerses(bookName, chapterNumber, entries))
              && SortedByVerse(r.value.verses)
              && (forall v :: v in r.value.verses ==> v.book == bookName && v.chapter == chapterNumber)
  {
    match FindBook(data, bookName)
    case None => None
    case Some(bookData) =>
      match FindChapter(bookData.chapters, chapterNumber)
      case None => None
      case Some(NotAnArray) => None
      case Some(Entries(entries)) =>
        var mapped := ToVerses(bookName, chapterNumber, entries);
        var verses := SortByVerse(mapped);
        assert forall v :: v in verses ==> v in multiset(mapped);
        Some(ChapterResult(bookName, chapterNumber, verses))
  }

  /** Every entry of the chapter appears among the returned verses, with its number and text. */
  lemma GetChapterKeepsEveryEntry(data: Dataset, bookName: string, chapterNumber: int, entries: seq<VerseEntry>, k: nat)
    requires FindBook(data, bookName).Some?
    requires FindChapter(FindBook(data, bookName).value.chapters, chapterNumber) == Some(Entries(entries))
    requires k < |entries|
    ensures Verse(bookName, chapterNumber, entries[k].v, entries[k].t) in GetChapter(data, bookName, chapterNumber).value.verses
  {
    var mapped := ToVerses(bookName, chapterNumber, entries);
    assert mapped[k] in multiset(mapped);
  }

  // ---------------------------------------------------------------------------
  // searchVerses

  /** The match test: `entry.t && entry.t.toLowerCase().includes(lowerQuery)`. */
  predicate Matches(text: string, lowerQuery: string) {
    text != "" && Contains(ToLower(text), lowerQuery)
  }

  /** The matches of one chapter's entries, in array order. */
  function EntryMatches(book: string, chapter: int, entries: seq<VerseEntry>, lowerQuery: string): (r: seq<Verse>)
  {
    if entries == [] then []
    else
      var last := entries[|entries| - 1];
      EntryMatches(book, chapter, entries[..|entries| - 1], lowerQuery)
        + (if Matches(last.t, lowerQuery) then [Verse(book, chapter, last.v, last.t)] else [])
  }

  /** The matches of one chapter (none when its value is not an array). */
  function ChapterValueMatches(book: string, chapter: ChapterData, lowerQuery: string): (r: seq<Verse>)
  {
    match chapter.value
    case NotAnArray => []
    case Entries(entries) => EntryMatches(book, chapter.number, entries, lowerQuery)
  }

  /** The matches of a book's chapters, in key order. */
  function ChapterMatches(book: string, chapters: seq<ChapterData>, lowerQuery: string): (r: seq<Verse>)
  {
    if chapters == [] then []
    else ChapterMatches(book, chapters[..|chapters| - 1], lowerQuery) + ChapterValueMatches(book, chapters[|chapters| - 1], lowerQuery)
  }

  /**
   * Every match in the dataset, in scan order: book, then chapter, then entry.
   * Each has non-empty text whose lower-cased form contains the query.
   */
  function AllMatches(data: Dataset, lowerQuery: string): (r: seq<Verse>)
    ensures forall v :: v in r ==> Matches(v.text, lowerQuery)
  {
    if data == [] then []
    else
      var last := data[|data| - 1];
      ChapterMatchesAreMatches(last.name, last.chapters, lowerQuery);
      AllMatches(data[..|data| - 1], lowerQuery) + ChapterMatches(last.name, last.chapters, lowerQuery)
  }

  /** Every verse the scan of a chapter's entries yields matches the query and carries that book and chapter. */
  lemma {:induction false} EntryMatchesAreMatches(book: string, chapter: int, entries: seq<VerseEntry>, lowerQuery: string)
    ensures forall v :: v in EntryMatches(book, chapter, entries, lowerQuery) ==>
              Matches(v.text, lowerQuery) && v.book == book && v.chapter == chapter
    decreases |entries|
  {
    if entries != [] {
      EntryMatchesAreMatches(book, chapter, entries[..|entries| - 1], lowerQuery);
    }
  }

  lemma ChapterValueMatchesAreMatches(book: string, chapter: ChapterData, lowerQuery: string)
    ensures forall v :: v in ChapterValueMatches(book, chapter, lowerQuery) ==> Matches(v.text, lowerQuery) && v.book == book
  {
    if chapter.value.Entries? {
      EntryMatchesAreMatches(book, chapter.number, chapter.value.entries, lowerQuery);
    }
  }

  lemma {:induction false} ChapterMatchesAreMatches(book: string, chapters: seq<ChapterData>, lowerQuery: string)
    ensures forall v :: v in ChapterMatches(book, chapters, lowerQuery) ==> Matches(v.text, lowerQuery) && v.book == book
    decreases |chapters|
  {
    if chapters != [] {
      ChapterMatchesAreMatches(book, chapters[..|chapters| - 1], lowerQuery);
      ChapterValueMatchesAreMatches(book, chapters[|chapters| - 1], lowerQuery);
    }
  }

  lemma {:induction false} EntryMatchesPrefix(book: string, chapter: int, entries: seq<VerseEntry>, lowerQuery: string, k: nat)
    requires k <= |entries|
    ensures EntryMatches(book, chapter, entries[..k], lowerQuery) <= EntryMatches(book, chapter, entries, lowerQuery)
    decreases |entries|
  {
    if k < |entries| {
      var front := entries[..|entries| - 1];
      assert entries[..k] == front[..k];
      EntryMatchesPrefix(book, chapter, front, lowerQuery, k);
      assert EntryMatches(book, chapter, front, lowerQuery) <= EntryMatches(book, chapter, entries, lowerQuery);
    } else {
      assert entries[..k] == entries;
    }
  }

  lemma {:induction false} ChapterMatchesPrefix(book: string, chapters: seq<ChapterData>, lowerQuery: string, k: nat)
    requires k <= |chapters|
    ensures ChapterMatches(book, chapters[..k], lowerQuery) <= ChapterMatches(book, chapters, lowerQuery)
    decreases |chapters|
  {
    if k < |chapters| {
      var front := chapters[..|chapters| - 1];
      assert chapters[..k] == front[..k];
      ChapterMatchesPrefix(book, front, lowerQuery, k);
      assert ChapterMatches(book, front, lowerQuery) <= ChapterMatches(book, chapters, lowerQuery);
    } else {
      assert chapters[..k] == chapters;
    }
  }

  lemma {:induction false} AllMatchesPrefix(data: Dataset, lowerQuery: string, k: nat)
    requires k <= |data|
    ensures AllMatches(data[..k], lowerQuery) <= AllMatches(data, lowerQuery)
    decreases |data|
  {
    if k < |data| {
      var front := data[..|data| - 1];
      assert data[..k] == front[..k];
      AllMatchesPrefix(front, lowerQuery, k);
      assert AllMatches(front, lowerQuery) <= AllMatches(data, lowerQuery);
    } else {
      assert data[..k] == data;
    }
  }

  /** With an empty query every verse with non-empty text matches: `includes("")` always holds. */
  lemma EmptyQueryMatchesAnyText(text: string)
    ensures Matches(text, ToLower("")) <==> text != ""
  {
    ContainsEmpty(ToLower(text));
  }

  function Min(a: int, b: int): int {
    if a <= b then a else b
  }

  /** The number of matches after which the scan stops: the check follows the push, so at least one. */
  function Cap(limit: int): (n: int)
    ensures n >= 1 && (limit >= 1 ==> n == limit)
  {
    if limit >= 1 then limit else 1
  }

  /**
   * `searchVerses(query, limit)`: scans the dataset in order and stops right after
   * the push that brings the result count to `limit`, so the results are the first
   * `max(limit, 1)` matches, or all of them when there are fewer. Because the check
   * comes after the push, a `limit` of 0 or less still yields one match.
   */
  method SearchVerses(data: Dataset, query: string, limit: int := 50) returns (results: seq<Verse>)
    ensures var all := AllMatches(data, ToLower(query));
            results == all[..Min(Cap(limit), |all|)]
    ensures forall v :: v in results ==> v.text != "" && Contains(ToLower(v.text), ToLower(query))
  {
    results := [];
    var lowerQuery := ToLower(query);
    var b := 0;
    while b < |data|
      invariant 0 <= b <= |data|
      invariant results == AllMatches(data[..b], lowerQuery)
      invariant |results| < Cap(limit)
    {
      var stopped;
      results, stopped := SearchBook(data[b], lowerQuery, limit, results);
      AllMatchesStep(data, lowerQuery, b);
      assert AllMatches(data[..b], lowerQuery) + ChapterMatches(data[b].name, data[b].chapters, lowerQuery) == AllMatches(data[..b + 1], lowerQuery);
      if stopped {
        AllMatchesPrefix(data, lowerQuery, b + 1);
        PrefixTransitive(results, AllMatches(data[..b + 1], lowerQuery), AllMatches(data, lowerQuery));
        LeadingSlice(results, AllMatches(data, lowerQuery), Cap(limit));
        return;
      }
      b := b + 1;
    }
    assert data[..b] == data;
  }

  /** The scan of one book: either all its matches are appended, or it stops on the push that reaches `limit`. */
  method SearchBook(book: BookData, lowerQuery: string, limit: int, found: seq<Verse>) returns (results: seq<Verse>, stopped: bool)
    requires |found| < Cap(limit)
    ensures !stopped ==> results == found + ChapterMatches(book.name, book.chapters, lowerQuery) && |results| < Cap(limit)
    ensures stopped ==> results <= found + ChapterMatches(book.name, book.chapters, lowerQuery) && |results| == Cap(limit)
  {
    results := found;
    var c := 0;
    while c < |book.chapters|
      invariant 0 <= c <= |book.chapters|
      invariant results == found + ChapterMatches(book.name, book.chapters[..c], lowerQuery)
      invariant |results| < Cap(limit)
    {
      results, stopped := SearchChapter(book.name, book.chapters[c], lowerQuery, limit, results);
      ChapterMatchesStep(book.name, book.chapters, lowerQuery, c);
      if stopped {
        StopWithinBook(found, book.name, book.chapters, lowerQuery, c, results);
        return;
      }
      c := c + 1;
    }
    assert book.chapters[..c] == book.chapters;
    stopped := false;
  }

  /** The scan of one chapter: a chapter whose value is not an array is skipped. */
  method SearchChapter(book: string, chapter: ChapterData, lowerQuery: string, limit: int, found: seq<Verse>) returns (results: seq<Verse>, stopped: bool)
    requires |found| < Cap(limit)
    ensures !stopped ==> results == found + ChapterValueMatches(book, chapter, lowerQuery) && |results| < Cap(limit)
    ensures stopped ==> results <= found + ChapterValueMatches(book, chapter, lowerQuery) && |results| == Cap(limit)
  {
    results := found;
    stopped := false;
    if !chapter.value.Entries? {
      return;
    }
    var entries := chapter.value.entries;
    var e := 0;
    while e < |entries|
      invariant 0 <= e <= |entries|
      invariant results == found + EntryMatches(book, chapter.number, entries[..e], lowerQuery)
      invariant |results| < Cap(limit)
    {
      var entry := entries[e];
      EntryMatchesStep(book, chapter.number, entries, lowerQuery, e);
      if entry.t != "" && Contains(ToLower(entry.t), lowerQuery) {
        results := results + [Verse(book, chapter.number, entry.v, entry.t)];
        if |results| >= limit {
          EntryMatchesPrefix(book, chapter.number, entries, lowerQuery, e + 1);
          PrefixOfConcat(found, EntryMatches(book, chapter.number, entries[..e + 1], lowerQuery), EntryMatches(book, chapter.number, entries, lowerQuery));
          stopped := true;
          return;
        }
      }
      e := e + 1;
    }
    assert entries[..e] == entries;
  }

  /** Stopping inside chapter `c` leaves a prefix of the whole book's matches. */
  lemma StopWithinBook(found: seq<Verse>, book: string, chapters: seq<ChapterData>, lowerQuery: string, c: nat, results: seq<Verse>)
    requires c < |chapters|
    requires results <= found + ChapterMatches(book, chapters[..c], lowerQuery) + ChapterValueMatches(book, chapters[c], lowerQuery)
    ensures results <= found + ChapterMatches(book, chapters, lowerQuery)
  {
    ChapterMatchesStep(book, chapters, lowerQuery, c);
    ChapterMatchesPrefix(book, chapters, lowerQuery, c + 1);
    PrefixOfLongerTail(results, found, ChapterMatches(book, chapters[..c], lowerQuery), ChapterValueMatches(book, chapters[c], lowerQuery), ChapterMatches(book, chapters, lowerQuery));
  }

  lemma PrefixOfLongerTail<T>(results: seq<T>, found: seq<T>, a: seq<T>, b: seq<T>, full: seq<T>)
    requires results <= found + a + b
    requires a + b <= full
    ensures results <= found + full
  {
    assert found + a + b == found + (a + b);
    PrefixOfConcat(found, a + b, full);
    PrefixTransitive(results, found + (a + b), found + full);
  }

  lemma PrefixTransitive<T>(a: seq<T>, b: seq<T>, c: seq<T>)
    requires a <= b && b <= c
    ensures a <= c
  {
    assert c[..|a|] == b[..|a|];
  }

  /** A prefix of `all` whose length is `cap` is the slice of the first `Min(cap, |all|)` elements. */
  lemma LeadingSlice<T>(found: seq<T>, all: seq<T>, cap: int)
    requires found <= all && |found| == cap
    ensures found == all[..Min(cap, |all|)]
    ensures forall x :: x in found ==> x in all
  {
  }

  /** One more entry's match (if any) extends those of the entries before it. */
  lemma EntryMatchesStep(book: string, chapter: int, entries: seq<VerseEntry>, lowerQuery: string, e: nat)
    requires e < |entries|
    ensures EntryMatches(book, chapter, entries[..e + 1], lowerQuery)
         == EntryMatches(book, chapter, entries[..e], lowerQuery)
            + (if Matches(entries[e].t, lowerQuery) then [Verse(book, chapter, entries[e].v, entries[e].t)] else [])
  {
    assert entries[..e + 1][..e] == entries[..e];
  }

  lemma PrefixOfConcat<T>(p: seq<T>, u: seq<T>, v: seq<T>)
    requires u <= v
    ensures p + u <= p + v
  {
    assert (p + v)[..|p + u|] == p + u;
  }

  /** One more chapter's matches extend those of the chapters before it. */
  lemma ChapterMatchesStep(book: string, chapters: seq<ChapterData>, lowerQuery: string, c: nat)
    requires c < |chapters|
    ensures ChapterMatches(book, chapters[..c + 1], lowerQuery)
         == ChapterMatches(book, chapters[..c], lowerQuery) + ChapterValueMatches(book, chapters[c], lowerQuery)
  {
    assert chapters[..c + 1][..c] == chapters[..c];
  }

  /** One more book's matches extend those of the books before it. */
  lemma AllMatchesStep(data: Dataset, lowerQuery: string, b: nat)
    requires b < |data|
    ensures AllMatches(data[..b + 1], lowerQuery)
         == AllMatches(data[..b], lowerQuery) + ChapterMatches(data[b].name, data[b].chapters, lowerQuery)
  {
    assert data[..b + 1][..b] == data[..b];
  }

}
