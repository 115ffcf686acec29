/** The library page (`HomePage`): loading the list and deleting a storybook
    from it. */
module HomePage {
  import opened Common
  import opened Records
  import StorybookList

  /** `data || []`. */
  function LoadList(data: Option<seq<Storybook>>): seq<Storybook>
  {
    if data.Some? then data.value else []
  }

  /** A load that returns no data shows the empty library rather than a
      grid, and one that returns storybooks shows one card for each. */
  lemma LoadedListRendering(data: Option<seq<Storybook>>)
    ensures data.None? ==> StorybookList.Render(Some(LoadList(data)), false).EmptyState?
    ensures data.Some? && |data.value| > 0 ==> (&& StorybookList.Render(Some(LoadList(data)), false).Grid?
                                                && |StorybookList.Render(Some(LoadList(data)), false).cards| == |data.value|)
  {
  }

  /** `books.filter(book => book.id !== id)`. */
  function RemoveId(books: seq<Storybook>, id: string): (r: seq<Storybook>)
    ensures |r| <= |books|
    ensures forall k :: 0 <= k < |r| ==> r[k].id != id
    decreases |books|
  {
    if books == [] then []
    else (if books[0].id == id then [] else [books[0]]) + RemoveId(books[1..], id)
  }

  /** Removal distributes over concatenation, so the kept storybooks stay in
      their relative order. */
  lemma {:induction false} RemoveIdConcat(a: seq<Storybook>, b: seq<Storybook>, id: string)
    ensures RemoveId(a + b, id) == RemoveId(a, id) + RemoveId(b, id)
    decreases |a|
  {
    if a == [] {
      assert a + b == b;
    } else {
      var c := a + b;
      assert c[0] == a[0];
      assert c[1..] == a[1..] + b;
      RemoveIdConcat(a[1..], b, id);
      var h := if a[0].id == id then [] else [a[0]];
      assert RemoveId(c, id) == h + (RemoveId(a[1..], id) + RemoveId(b, id));
    }
  }

  /** Exactly the storybooks with the id are gone: every other one is kept as
      often as it occurred. */
  lemma {:induction false} RemoveIdCounts(books: seq<Storybook>, id: string)
    ensures forall b :: multiset(RemoveId(books, id))[b] == if b.id == id then 0 else multiset(books)[b]
    decreases |books|
  {
    if books != [] {
      RemoveIdCounts(books[1..], id);
      assert books == [books[0]] + books[1..];
    }
  }

  /** Deleting twice is deleting once; a list without the id is left as is. */
  lemma {:induction false} RemoveIdIdempotent(books: seq<Storybook>, id: string)
    ensures RemoveId(RemoveId(books, id), id) == RemoveId(books, id)
    ensures (forall k :: 0 <= k < |books| ==> books[k].id != id) ==> RemoveId(books, id) == books
    decreases |books|
  {
    if books != [] {
      RemoveIdIdempotent(books[1..], id);
      var h := if books[0].id == id then [] else [books[0]];
      RemoveIdConcat(h, RemoveId(books[1..], id), id);
    }
  }

  /** The list after a delete and the database writes issued. */
  datatype Deletion = Deletion(books: seq<Storybook>, writes: seq<DbWrite>)

  /** `handleDelete(id)` with the user's answer to the confirmation. An
      unconfirmed delete does nothing; a confirmed one deletes the row and
      drops the id from the list whatever the database answered. */
  function HandleDelete(books: seq<Storybook>, id: string, confirmed: bool): (d: Deletion)
    ensures !confirmed ==> d == Deletion(books, [])
    ensures confirmed ==> d.writes == [DeleteStorybook(id)]
    ensures confirmed ==> d.books == RemoveId(books, id)
    ensures confirmed ==> forall k :: 0 <= k < |d.books| ==> d.books[k].id != id
    ensures confirmed ==> forall k :: 0 <= k < |books| && books[k].id != id ==> books[k] in d.books
  {
    if confirmed then
      RemoveIdCounts(books, id);
      assert forall k :: 0 <= k < |books| ==> books[k] in multiset(books);
      Deletion(RemoveId(books, id), [DeleteStorybook(id)])
    else Deletion(books, [])
  }
}
