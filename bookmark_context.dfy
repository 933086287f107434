/**
 * The bookmark store: an ordered list of verses, where two verses are the same
 * bookmark when they have the same verse id. Every change is saved.
 */
module BookmarkContext {
  import opened Wrappers
  import opened BibleData

  /** `list.some((v) => getVerseId(v) === getVerseId(verse))`. */
  function HasVerse(list: seq<Verse>, verse: Verse): (r: bool)
    ensures r <==> exists i :: 0 <= i < |list| && VerseId(list[i]) == VerseId(verse)
  {
    if list == [] then false
    else VerseId(list[0]) == VerseId(verse) || HasVerse(list[1..], verse)
  }

  /** `list.filter((v) => getVerseId(v) !== id)`. */
  function WithoutId(list: seq<Verse>, id: string): (r: seq<Verse>)
    ensures |r| <= |list|
    ensures forall v :: v in r <==> v in list && VerseId(v) != id
  {
    if list == [] then []
    else (if VerseId(list[0]) != id then [list[0]] else []) + WithoutId(list[1..], id)
  }

  /**
   * The list after `toggleBookmark(verse)`: a bookmarked verse id loses every
   * entry carrying it, and anything else stays; otherwise the verse is added last.
   */
  function Toggled(list: seq<Verse>, verse: Verse): (r: seq<Verse>)
    ensures HasVerse(list, verse) ==> forall v :: v in r <==> v in list && VerseId(v) != VerseId(verse)
    ensures !HasVerse(list, verse) ==> |r| == |list| + 1 && r[..|list|] == list && r[|list|] == verse
  {
    if HasVerse(list, verse) then WithoutId(list, VerseId(verse))
    else
      var r := list + [verse];
      assert r[..|list|] == list;
      r
  }

  /** No two bookmarks share a verse id. */
  predicate DistinctIds(list: seq<Verse>) {
    forall i, j :: 0 <= i < j < |list| ==> VerseId(list[i]) != VerseId(list[j])
  }

  lemma {:induction false} WithoutIdConcat(a: seq<Verse>, b: seq<Verse>, id: string)
    ensures WithoutId(a + b, id) == WithoutId(a, id) + WithoutId(b, id)
  {
    if a == [] {
      assert a + b == b;
    } else {
      var head := if VerseId(a[0]) != id then [a[0]] else [];
      assert (a + b)[0] == a[0];
      assert (a + b)[1..] == a[1..] + b;
      WithoutIdConcat(a[1..], b, id);
      assert WithoutId(a + b, id) == head + (WithoutId(a[1..], id) + WithoutId(b, id));
    }
  }

  /** Removing an id no bookmark carries changes nothing. */
  lemma {:induction false} WithoutAbsentId(list: seq<Verse>, id: string)
    requires forall i :: 0 <= i < |list| ==> VerseId(list[i]) != id
    ensures WithoutId(list, id) == list
  {
    if list != [] {
      WithoutAbsentId(list[1..], id);
    }
  }

  /** `removeBookmark` is idempotent. */
  lemma WithoutIdIdempotent(list: seq<Verse>, id: string)
    ensures WithoutId(WithoutId(list, id), id) == WithoutId(list, id)
  {
    var once := WithoutId(list, id);
    assert forall i :: 0 <= i < |once| ==> once[i] in once;
    WithoutAbsentId(once, id);
  }

  /** After `removeBookmark(verse)` the verse is no longer bookmarked; before, it was present iff something went. */
  lemma RemoveUnbookmarks(list: seq<Verse>, verse: Verse)
    ensures !HasVerse(WithoutId(list, VerseId(verse)), verse)
    ensures !HasVerse(list, verse) ==> WithoutId(list, VerseId(verse)) == list
  {
    var r := WithoutId(list, VerseId(verse));
    assert forall i :: 0 <= i < |r| ==> r[i] in r;
    if !HasVerse(list, verse) {
      WithoutAbsentId(list, VerseId(verse));
    }
  }

  /** `toggleBookmark` negates `isBookmarked`. */
  lemma ToggleNegates(list: seq<Verse>, verse: Verse)
    ensures HasVerse(Toggled(list, verse), verse) == !HasVerse(list, verse)
  {
    if HasVerse(list, verse) {
      RemoveUnbookmarks(list, verse);
    } else {
      assert (list + [verse])[|list|] == verse;
    }
  }

  /** Toggling a verse that is not bookmarked, then toggling it again, restores the list exactly. */
  lemma ToggleTwiceRestores(list: seq<Verse>, verse: Verse)
    requires !HasVerse(list, verse)
    ensures Toggled(Toggled(list, verse), verse) == list
  {
    var id := VerseId(verse);
    assert (list + [verse])[|list|] == verse;
    assert HasVerse(list + [verse], verse);
    WithoutIdConcat(list, [verse], id);
    WithoutAbsentId(list, id);
    assert WithoutId([verse], id) == [];
  }

  /** Filtering by id keeps the bookmarks distinct. */
  lemma {:induction false} WithoutIdKeepsDistinct(list: seq<Verse>, id: string)
    requires DistinctIds(list)
    ensures DistinctIds(WithoutId(list, id))
  {
    if list != [] {
      DistinctTail(list);
      WithoutIdKeepsDistinct(list[1..], id);
      if VerseId(list[0]) != id {
        HeadNotInFiltered(list, id);
        DistinctCons(list[0], WithoutId(list[1..], id));
      }
    }
  }

  lemma DistinctTail(list: seq<Verse>)
    requires list != [] && DistinctIds(list)
    ensures DistinctIds(list[1..])
  {
    var rest := list[1..];
    forall i, j | 0 <= i < j < |rest|
      ensures VerseId(rest[i]) != VerseId(rest[j])
    {
      assert rest[i] == list[i + 1] && rest[j] == list[j + 1];
    }
  }

  lemma HeadNotInFiltered(list: seq<Verse>, id: string)
    requires list != [] && DistinctIds(list)
    ensures forall j :: 0 <= j < |WithoutId(list[1..], id)| ==> VerseId(WithoutId(list[1..], id)[j]) != VerseId(list[0])
  {
    var rest := list[1..];
    var tail := WithoutId(rest, id);
    forall j | 0 <= j < |tail|
      ensures VerseId(tail[j]) != VerseId(list[0])
    {
      assert tail[j] in rest;
      var k :| 0 <= k < |rest| && rest[k] == tail[j];
      assert list[k + 1] == tail[j];
    }
  }

  lemma DistinctCons(x: Verse, tail: seq<Verse>)
    requires DistinctIds(tail)
    requires forall j :: 0 <= j < |tail| ==> VerseId(tail[j]) != VerseId(x)
    ensures DistinctIds([x] + tail)
  {
    var r := [x] + tail;
    forall i, j | 0 <= i < j < |r|
      ensures VerseId(r[i]) != VerseId(r[j])
    {
      assert r[j] == tail[j - 1];
      if i > 0 {
        assert r[i] == tail[i - 1];
      }
    }
  }

  /** Toggling keeps the bookmarks distinct by verse id. */
  lemma ToggleKeepsDistinct(list: seq<Verse>, verse: Verse)
    requires DistinctIds(list)
    ensures DistinctIds(Toggled(list, verse))
  {
    if HasVerse(list, verse) {
      WithoutIdKeepsDistinct(list, VerseId(verse));
    } else {
      var r := list + [verse];
      forall i, j | 0 <= i < j < |r|
        ensures VerseId(r[i]) != VerseId(r[j])
      {
        if j == |list| {
          assert r[i] == list[i];
        } else {
          assert r[i] == list[i] && r[j] == list[j];
        }
      }
    }
  }

  /**
   * The provider's state. `saved` is what storage holds under `@bible_ai_bookmarks`
   * (`None` when nothing usable is stored).
   */
  class BookmarkStore {
    var bookmarks: seq<Verse>
    var saved: Option<seq<Verse>>

    constructor(stored: Option<seq<Verse>>)
      ensures bookmarks == [] && saved == stored
    {
      bookmarks := [];
      saved := stored;
    }

    /** `loadBookmarks`: a stored list replaces the empty one. */
    method LoadBookmarks()
      modifies this
      ensures saved == old(saved)
      ensures bookmarks == if saved.Some? then saved.value else old(bookmarks)
    {
      if saved.Some? {
        bookmarks := saved.value;
      }
    }

    function IsBookmarked(verse: Verse): (r: bool)
      reads this
      ensures r <==> exists b :: b in bookmarks && VerseId(b) == VerseId(verse)
    {
      HasVerse(bookmarks, verse)
    }

    /** `toggleBookmark(verse)`: removes every bookmark with its id, or appends it. */
    method ToggleBookmark(verse: Verse)
      modifies this
      ensures bookmarks == Toggled(old(bookmarks), verse)
      ensures old(IsBookmarked(verse)) ==> bookmarks == WithoutId(old(bookmarks), VerseId(verse))
      ensures !old(IsBookmarked(verse)) ==> bookmarks == old(bookmarks) + [verse]
      ensures IsBookmarked(verse) == !old(IsBookmarked(verse))
      ensures saved == Some(bookmarks)
    {
      var verseId := VerseId(verse);
      var exists_ := HasVerse(bookmarks, verse);
      var newBookmarks := if exists_ then WithoutId(bookmarks, verseId) else bookmarks + [verse];
      ToggleNegates(bookmarks, verse);
      saved := Some(newBookmarks);
      bookmarks := newBookmarks;
    }

    /** `removeBookmark(verse)`: removes every bookmark with its id. */
    method RemoveBookmark(verse: Verse)
      modifies this
      ensures bookmarks == WithoutId(old(bookmarks), VerseId(verse))
      ensures !IsBookmarked(verse)
      ensures saved == Some(bookmarks)
    {
      var newBookmarks := WithoutId(bookmarks, VerseId(verse));
      RemoveUnbookmarks(bookmarks, verse);
      saved := Some(newBookmarks);
      bookmarks := newBookmarks;
    }
  }
}
