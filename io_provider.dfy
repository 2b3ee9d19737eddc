/** The bookmark handlers of `IOProvider`: saving a bookmark merges it into
    the list stored in `data/bookmarks.json`, deleting one filters it out.
    Both rewrite the whole list from what they can read of the stored
    entries. Reading and writing the file are outside the model: the
    handlers receive what the read produced and the outcome of the write,
    and return the text they write. */
module IoProviders {
  import opened Wrappers
  import opened Strings
  import opened Lists
  import opened Requests
  import opened JsonUtils

  const EmptyBody: string := "{}"
  const MissingBookmarkFields: string := "Missing required fields: id, name, or content"
  const MissingId: string := "Missing required field: id"
  const InvalidBookmarks: string := "Invalid bookmarks data"

  datatype Bookmark = Bookmark(id: string, name: string, content: string)

  /** What reading the bookmark file produced: no file, a read error, or
      the text of the file as parsed. */
  datatype StoredFile = Missing | Unreadable(error: string) | Read(doc: Result<Json>)

  /** `formatBookmarkJson` */
  function BookmarkText(b: Bookmark): string {
    "{\"id\":\"" + Escape(b.id) + "\",\"name\":\"" + Escape(b.name) + "\",\"content\":\"" + Escape(b.content) + "\"}"
  }

  /** The text of a whole list, as both handlers write it. */
  function ListText(bookmarks: seq<Bookmark>): string {
    "[" + Join(Map(bookmarks, BookmarkText), ",") + "]"
  }

  /** The document `BookmarkText` denotes. */
  function BookmarkDocument(b: Bookmark): Json {
    JObject(map["id" := JString(b.id), "name" := JString(b.name), "content" := JString(b.content)])
  }

  /** A stored entry as the handlers read it back: entries without a string
      id are dropped, a missing or mistyped name or content reads as empty. */
  function Entry(v: Json): (r: Option<Bookmark>)
    ensures r.Some? <==> GetString(v, "id").Some?
  {
    match GetString(v, "id")
    case Some(id) => Some(Bookmark(id, StringOr(v, "name", ""), StringOr(v, "content", "")))
    case None => None
  }

  /** The entries read back from the stored array, in order. */
  function Entries(items: seq<Json>): (r: seq<Bookmark>)
    ensures |r| <= |items|
    ensures forall b :: b in r <==> exists k :: 0 <= k < |items| && Entry(items[k]) == Some(b)
  {
    if items == [] then []
    else
      var init := items[..|items| - 1];
      var last := items[|items| - 1];
      assert forall k :: 0 <= k < |init| ==> init[k] == items[k];
      Entries(init) + EntryList(last)
  }

  /** The entry of one stored element, as a list of zero or one. */
  function EntryList(v: Json): seq<Bookmark> {
    match Entry(v)
    case Some(b) => [b]
    case None => []
  }

  /** The entries of the stored file that `saveBookmark` merges into: none
      when the file is missing, unreadable, not JSON or not an array. */
  function Existing(stored: StoredFile): seq<Json> {
    match stored
    case Read(Ok(JArray(items))) => items
    case _ => []
  }

  function Reid(b: Bookmark): Bookmark -> Bookmark {
    (e: Bookmark) => if e.id == b.id then b else e
  }

  predicate HasBookmark(entries: seq<Bookmark>, id: string) {
    exists k :: 0 <= k < |entries| && entries[k].id == id
  }

  /** The list `saveBookmark` writes: every entry with the id replaced in
      place, or the bookmark appended when there is none. */
  function SavedList(items: seq<Json>, b: Bookmark): seq<Bookmark> {
    var entries := Entries(items);
    if HasBookmark(entries, b.id) then Map(entries, Reid(b)) else entries + [b]
  }

  function NotId(id: string): Bookmark -> bool {
    (e: Bookmark) => e.id != id
  }

  /** The list `deleteBookmark` writes. */
  function DeletedList(items: seq<Json>, id: string): seq<Bookmark> {
    Filter(Entries(items), NotId(id))
  }

  lemma {:induction false} ReidAbsent(entries: seq<Bookmark>, b: Bookmark)
    requires !HasBookmark(entries, b.id)
    ensures Map(entries, Reid(b)) == entries
  {
    if entries != [] {
      MapHead(entries, Reid(b));
      assert !HasBookmark(entries[1..], b.id) by {
        forall k | 0 <= k < |entries[1..]| ensures entries[1..][k].id != b.id {
          assert entries[1..][k] == entries[k + 1];
        }
      }
      ReidAbsent(entries[1..], b);
      assert entries == [entries[0]] + entries[1..];
    }
  }

  /** After a save the bookmark is in the list, every entry with its id is
      exactly it, the other entries are those read back, in order, and the
      list grows by one only when the id was new. */
  lemma SavedListContents(items: seq<Json>, b: Bookmark)
    ensures b in SavedList(items, b)
    ensures forall e :: e in SavedList(items, b) && e.id == b.id ==> e == b
    ensures Filter(SavedList(items, b), NotId(b.id)) == Filter(Entries(items), NotId(b.id))
    ensures |SavedList(items, b)| == |Entries(items)| + (if HasBookmark(Entries(items), b.id) then 0 else 1)
  {
    var entries := Entries(items);
    var saved := SavedList(items, b);
    if HasBookmark(entries, b.id) {
      var k :| 0 <= k < |entries| && entries[k].id == b.id;
      MapAt(entries, Reid(b), k);
      forall e | e in saved && e.id == b.id ensures e == b {
        var j :| 0 <= j < |saved| && saved[j] == e;
        MapAt(entries, Reid(b), j);
      }
      ReidFilter(entries, b);
    } else {
      FilterAppend(entries, [b], NotId(b.id));
      assert Filter([b], NotId(b.id)) == [];
      assert Filter(entries, NotId(b.id)) + [] == Filter(entries, NotId(b.id));
      assert forall j :: 0 <= j < |entries| ==> saved[j] == entries[j] && saved[j].id != b.id;
    }
  }

  lemma {:induction false} ReidFilter(entries: seq<Bookmark>, b: Bookmark)
    ensures Filter(Map(entries, Reid(b)), NotId(b.id)) == Filter(entries, NotId(b.id))
  {
    if entries != [] {
      var init := entries[..|entries| - 1];
      var last := entries[|entries| - 1];
      assert entries == init + [last];
      MapAppend(init, [last], Reid(b));
      assert Map([last], Reid(b)) == [Reid(b)(last)];
      FilterAppend(Map(init, Reid(b)), [Reid(b)(last)], NotId(b.id));
      FilterAppend(init, [last], NotId(b.id));
      ReidFilter(init, b);
    }
  }

  /** Without a readable array on disk the saved list is the bookmark
      alone. */
  lemma SavedAlone(stored: StoredFile, b: Bookmark)
    requires !(stored.Read? && stored.doc.Ok? && stored.doc.value.JArray?)
    ensures SavedList(Existing(stored), b) == [b]
  {
  }

  /** After a delete no entry has the id, and the other entries are those
      read back, in order. */
  lemma DeletedListContents(items: seq<Json>, id: string)
    ensures !HasBookmark(DeletedList(items, id), id)
    ensures forall e :: e in DeletedList(items, id) <==> e in Entries(items) && e.id != id
  {
    var deleted := DeletedList(items, id);
    forall k | 0 <= k < |deleted| ensures deleted[k].id != id {
      FilterPasses(Entries(items), NotId(id), k);
    }
    forall e ensures e in deleted <==> e in Entries(items) && e.id != id {
      FilterMembers(Entries(items), NotId(id), e);
    }
  }

  /** Deleting an id no entry has rewrites the entries as read. */
  lemma DeleteAbsent(items: seq<Json>, id: string)
    requires !HasBookmark(Entries(items), id)
    ensures DeletedList(items, id) == Entries(items)
  {
    FilterAll(Entries(items), NotId(id));
  }

  lemma BookmarkReadBack(b: Bookmark)
    ensures Entry(BookmarkDocument(b)) == Some(b)
  {
    var v := BookmarkDocument(b);
    assert GetString(v, "id") == Some(b.id);
    assert GetString(v, "name") == Some(b.name);
    assert GetString(v, "content") == Some(b.content);
  }

  /** A written list reads back as itself. */
  lemma {:induction false} ListReadBack(bookmarks: seq<Bookmark>)
    ensures Entries(Map(bookmarks, BookmarkDocument)) == bookmarks
  {
    if bookmarks != [] {
      var init := bookmarks[..|bookmarks| - 1];
      var last := bookmarks[|bookmarks| - 1];
      assert bookmarks == init + [last];
      MapAppend(init, [last], BookmarkDocument);
      var items := Map(bookmarks, BookmarkDocument);
      assert items[..|items| - 1] == Map(init, BookmarkDocument);
      BookmarkReadBack(last);
      ListReadBack(init);
    }
  }

  /** Saving the same bookmark again rewrites the same list, and deleting
      a saved bookmark leaves the other entries as they were read. */
  lemma SaveThenDelete(items: seq<Json>, b: Bookmark)
    ensures SavedList(Map(SavedList(items, b), BookmarkDocument), b) == SavedList(items, b)
    ensures DeletedList(Map(SavedList(items, b), BookmarkDocument), b.id) == Filter(Entries(items), NotId(b.id))
  {
    var saved := SavedList(items, b);
    ListReadBack(saved);
    SavedListContents(items, b);
    var k :| 0 <= k < |saved| && saved[k] == b;
    assert HasBookmark(saved, b.id);
    forall j | 0 <= j < |saved| ensures Reid(b)(saved[j]) == saved[j] {
      assert saved[j] in saved;
    }
    MapIdentity(saved, Reid(b));
  }

  lemma {:induction false} MapIdentity(xs: seq<Bookmark>, f: Bookmark -> Bookmark)
    requires forall j :: 0 <= j < |xs| ==> f(xs[j]) == xs[j]
    ensures Map(xs, f) == xs
  {
    forall j | 0 <= j < |xs| ensures Map(xs, f)[j] == xs[j] {
      MapAt(xs, f, j);
    }
  }

  function BookmarkOf(request: Result<Json>): Option<Bookmark> {
    var doc := Fields(request);
    match (GetString(doc, "id"), GetString(doc, "name"), GetString(doc, "content"))
    case (Some(id), Some(name), Some(content)) => Some(Bookmark(id, name, content))
    case _ => None
  }

  lemma EntryStep(items: seq<Json>, i: nat)
    requires i < |items|
    ensures Entries(items[..i + 1]) == Entries(items[..i]) + EntryList(items[i])
  {
    assert items[..i + 1][..i] == items[..i];
  }

  /** The text the merge loop has written for the entries seen so far,
      after the opening bracket. */
  function MergedText(done: seq<Bookmark>, b: Bookmark): string {
    Join(Map(Map(done, Reid(b)), BookmarkText), ",")
  }

  /** One more piece of text joined with commas. */
  lemma JoinSnoc(texts: seq<string>, x: string)
    ensures Join(texts + [x], ",") == Join(texts, ",") + (if texts == [] then "" else ",") + x
  {
    JoinAppendOne(texts, x, ",");
    var joined := Join(texts, ",");
    var sep := if texts == [] then "" else ",";
    assert joined + (sep + x) == joined + sep + x;
  }

  lemma HasBookmarkSnoc(done: seq<Bookmark>, e: Bookmark, id: string)
    ensures HasBookmark(done + [e], id) <==> HasBookmark(done, id) || e.id == id
  {
    if e.id == id {
      assert (done + [e])[|done|] == e;
    }
    if HasBookmark(done, id) {
      var k :| 0 <= k < |done| && done[k].id == id;
      assert (done + [e])[k] == done[k];
    }
  }

  lemma SaveStep(done: seq<Bookmark>, e: Bookmark, b: Bookmark)
    ensures MergedText(done + [e], b)
         == MergedText(done, b) + (if done == [] then "" else ",") + BookmarkText(if e.id == b.id then b else e)
  {
    var f := Reid(b);
    var g := if e.id == b.id then b else e;
    assert f(e) == g;
    var texts := Map(Map(done, f), BookmarkText);
    MapAppend(done, [e], f);
    assert Map([e], f) == [g];
    MapAppend(Map(done, f), [g], BookmarkText);
    assert Map([g], BookmarkText) == [BookmarkText(g)];
    assert Map(Map(done + [e], f), BookmarkText) == texts + [BookmarkText(g)];
    JoinSnoc(texts, BookmarkText(g));
    assert texts == [] <==> done == [];
  }

  lemma Regroup(a: string, b: string, c: string, d: string)
    ensures a + (b + c + d) == a + b + c + d
  {
  }

  /** The list text the merge loop completes: the merged entries when one
      had the id, the bookmark appended after them otherwise. */
  lemma SaveClose(items: seq<Json>, b: Bookmark)
    ensures HasBookmark(Entries(items), b.id) ==>
      ListText(SavedList(items, b)) == "[" + MergedText(Entries(items), b) + "]"
    ensures !HasBookmark(Entries(items), b.id) ==>
      ListText(SavedList(items, b))
      == "[" + (MergedText(Entries(items), b) + (if Entries(items) == [] then "" else ",") + BookmarkText(b)) + "]"
  {
    var done := Entries(items);
    if !HasBookmark(done, b.id) {
      ReidAbsent(done, b);
      var texts := Map(done, BookmarkText);
      MapAppend(done, [b], BookmarkText);
      assert Map([b], BookmarkText) == [BookmarkText(b)];
      assert Map(done + [b], BookmarkText) == texts + [BookmarkText(b)];
      JoinSnoc(texts, BookmarkText(b));
      assert texts == [] <==> done == [];
    }
  }

  /** The merge loop of `saveBookmark`: each readable stored entry is
      written, those with the id as the bookmark, and the bookmark is
      appended when no entry had its id. */
  method MergedListText(items: seq<Json>, b: Bookmark) returns (json: string)
    ensures json == ListText(SavedList(items, b))
  {
    json := "[";
    var found := false;
    var first := true;
    ghost var done: seq<Bookmark> := [];
    for i := 0 to |items|
      invariant done == Entries(items[..i])
      invariant first <==> done == []
      invariant found <==> HasBookmark(done, b.id)
      invariant json == "[" + MergedText(done, b)
    {
      EntryStep(items, i);
      var entry := Entry(items[i]);
      if entry.None? {
        assert Entries(items[..i + 1]) == done + [] == done;
        continue;
      }
      var e := entry.value;
      assert Entries(items[..i + 1]) == done + [e];
      SaveStep(done, e, b);
      HasBookmarkSnoc(done, e, b.id);
      ghost var sep := if done == [] then "" else ",";
      ghost var text := BookmarkText(if e.id == b.id then b else e);
      ghost var merged := MergedText(done, b);
      assert MergedText(done + [e], b) == merged + sep + text;
      ghost var before := json;
      if !first {
        json := json + ",";
      }
      assert json == before + sep;
      if e.id == b.id {
        found := true;
        json := json + BookmarkText(b);
      } else {
        json := json + BookmarkText(e);
      }
      first := false;
      assert json == "[" + merged + sep + text;
      Regroup("[", merged, sep, text);
      done := done + [e];
    }
    assert items[..|items|] == items;
    SaveClose(items, b);
    ghost var merged := MergedText(done, b);
    if !found {
      ghost var sep := if done == [] then "" else ",";
      if !first {
        json := json + ",";
      }
      json := json + BookmarkText(b);
      assert json == "[" + merged + sep + BookmarkText(b);
      Regroup("[", merged, sep, BookmarkText(b));
      assert json == "[" + (merged + sep + BookmarkText(b));
    }
    json := json + "]";
  }

  /** `saveBookmark`: the three fields are required; the merge loop writes
      each readable entry, replacing those with the id, and appends the
      bookmark when none had it. Returns the text written (none when the
      request is rejected) and the response, which carries the error of
      the write when it fails. */
  method SaveBookmark(request: Result<Json>, stored: StoredFile, writeError: Option<string>)
    returns (written: Option<string>, response: string)
    ensures BookmarkOf(request).None? ==> written.None? && response == ErrorResponse(MissingBookmarkFields)
    ensures BookmarkOf(request).Some? ==>
      written == Some(ListText(SavedList(Existing(stored), BookmarkOf(request).value)))
      && response == (if writeError.Some? then ErrorResponse(writeError.value) else SuccessResponse(EmptyBody))
  {
    var bookmark := BookmarkOf(request);
    if bookmark.None? {
      return None, ErrorResponse(MissingBookmarkFields);
    }
    var b := bookmark.value;
    var json := MergedListText(Existing(stored), b);
    written := Some(json);
    response := if writeError.Some? then ErrorResponse(writeError.value) else SuccessResponse(EmptyBody);
  }

  lemma DeleteStep(items: seq<Json>, i: nat, id: string)
    requires i < |items|
    ensures Entry(items[i]).None? ==> DeletedList(items[..i + 1], id) == DeletedList(items[..i], id)
    ensures Entry(items[i]).Some? && Entry(items[i]).value.id == id ==>
      DeletedList(items[..i + 1], id) == DeletedList(items[..i], id)
    ensures Entry(items[i]).Some? && Entry(items[i]).value.id != id ==>
      DeletedList(items[..i + 1], id) == DeletedList(items[..i], id) + [Entry(items[i]).value]
  {
    EntryStep(items, i);
    var done := DeletedList(items[..i], id);
    FilterAppend(Entries(items[..i]), EntryList(items[i]), NotId(id));
    if Entry(items[i]).Some? {
      var e := Entry(items[i]).value;
      assert EntryList(items[i]) == [e];
      if e.id != id {
        assert Filter([e], NotId(id)) == [e];
      } else {
        assert Filter([e], NotId(id)) == [];
        assert done + [] == done;
      }
    } else {
      assert EntryList(items[i]) == [];
      assert Filter([], NotId(id)) == [];
      assert done + [] == done;
    }
  }

  /** The text of one more kept entry. */
  lemma KeptText(done: seq<Bookmark>, e: Bookmark)
    ensures Join(Map(done + [e], BookmarkText), ",")
         == Join(Map(done, BookmarkText), ",") + (if done == [] then "" else ",") + BookmarkText(e)
  {
    var texts := Map(done, BookmarkText);
    MapAppend(done, [e], BookmarkText);
    assert Map([e], BookmarkText) == [BookmarkText(e)];
    assert Map(done + [e], BookmarkText) == texts + [BookmarkText(e)];
    JoinSnoc(texts, BookmarkText(e));
    assert texts == [] <==> done == [];
  }

  /** The filter loop of `deleteBookmark`: each readable stored entry
      without the id is written. */
  method KeptListText(items: seq<Json>, id: string) returns (json: string)
    ensures json == ListText(DeletedList(items, id))
  {
    json := "[";
    var first := true;
    ghost var done: seq<Bookmark> := [];
    for i := 0 to |items|
      invariant done == DeletedList(items[..i], id)
      invariant first <==> done == []
      invariant json == "[" + Join(Map(done, BookmarkText), ",")
    {
      DeleteStep(items, i, id);
      var entry := Entry(items[i]);
      if entry.None? {
        continue;
      }
      var e := entry.value;
      if e.id != id {
        KeptText(done, e);
        ghost var sep := if done == [] then "" else ",";
        ghost var joined := Join(Map(done, BookmarkText), ",");
        ghost var before := json;
        if !first {
          json := json + ",";
        }
        assert json == before + sep;
        json := json + BookmarkText(e);
        first := false;
        Regroup("[", joined, sep, BookmarkText(e));
        done := done + [e];
      }
    }
    assert items[..|items|] == items;
    json := json + "]";
  }

  /** `deleteBookmark`: the id is required; a missing file is a success
      with nothing written; a read error is passed on; content that is not
      an array is rejected; otherwise the entries without the id are
      written back. */
  method DeleteBookmark(request: Result<Json>, stored: StoredFile, writeError: Option<string>)
    returns (written: Option<string>, response: string)
    ensures GetString(Fields(request), "id").None? ==> written.None? && response == ErrorResponse(MissingId)
    ensures GetString(Fields(request), "id").Some? ==>
      match stored
      case Missing => written.None? && response == SuccessResponse(EmptyBody)
      case Unreadable(error) => written.None? && response == ErrorResponse(error)
      case Read(doc) =>
        if doc.Ok? && doc.value.JArray? then
          written == Some(ListText(DeletedList(doc.value.items, GetString(Fields(request), "id").value)))
          && response == (if writeError.Some? then ErrorResponse(writeError.value) else SuccessResponse(EmptyBody))
        else written.None? && response == ErrorResponse(InvalidBookmarks)
  {
    var idResult := GetString(Fields(request), "id");
    if idResult.None? {
      return None, ErrorResponse(MissingId);
    }
    var id := idResult.value;
    if stored.Missing? {
      return None, SuccessResponse(EmptyBody);
    }
    if stored.Unreadable? {
      return None, ErrorResponse(stored.error);
    }
    if !(stored.doc.Ok? && stored.doc.value.JArray?) {
      return None, ErrorResponse(InvalidBookmarks);
    }
    var json := KeptListText(stored.doc.value.items, id);
    written := Some(json);
    response := if writeError.Some? then ErrorResponse(writeError.value) else SuccessResponse(EmptyBody);
  }
}
