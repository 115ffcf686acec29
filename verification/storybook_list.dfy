/** The library grid (`StorybookList`): which of spinner, empty state and
    grid is shown, and which actions each storybook's card offers. */
module StorybookList {
  import opened Common
  import opened Records

  /** A card action: a link to a route, or the delete button. */
  datatype Action = View(path: string) | Edit(path: string) | ViewProgress(path: string) | Delete(id: string)

  datatype Card = Card(book: Storybook, actions: seq<Action>)

  datatype ListView = Spinner | EmptyState | Grid(cards: seq<Card>)

  function StoryPath(id: string): string
  {
    "/story/" + id
  }

  function EditPath(id: string): string
  {
    "/edit/" + id
  }

  /** The actions of one card, by status: a finished story can be read,
      edited and deleted; one being generated can be watched and deleted;
      any other can only be deleted. */
  function ActionsFor(book: Storybook): (a: seq<Action>)
    ensures |a| > 0 && a[|a| - 1] == Delete(book.id)
    ensures forall k :: 0 <= k < |a| - 1 ==> !a[k].Delete?
    ensures (exists k :: 0 <= k < |a| && a[k].View?) <==> book.status == Ready
    ensures (exists k :: 0 <= k < |a| && a[k].Edit?) <==> book.status == Ready
    ensures (exists k :: 0 <= k < |a| && a[k].ViewProgress?) <==> book.status == Generating
    ensures |a| == 1 <==> book.status != Ready && book.status != Generating
    ensures forall k :: 0 <= k < |a| && a[k].View? ==> a[k].path == StoryPath(book.id)
    ensures forall k :: 0 <= k < |a| && (a[k].Edit? || a[k].ViewProgress?) ==> a[k].path == EditPath(book.id)
  {
    if book.status == Ready then
      var a := [View(StoryPath(book.id)), Edit(EditPath(book.id)), Delete(book.id)];
      assert a[0].View? && a[1].Edit?;
      a
    else if book.status == Generating then
      var a := [ViewProgress(EditPath(book.id)), Delete(book.id)];
      assert a[0].ViewProgress?;
      a
    else [Delete(book.id)]
  }

  /** The list view: the spinner whenever loading, the empty state for a
      missing or empty list, otherwise one card per storybook in list
      order. */
  function Render(books: Option<seq<Storybook>>, loading: bool): (v: ListView)
    ensures loading ==> v.Spinner?
    ensures !loading && (books.None? || books.value == []) ==> v.EmptyState?
    ensures !loading && books.Some? && |books.value| > 0 ==> v.Grid?
    ensures v.Grid? ==> (&& !loading && books.Some?
                         && |v.cards| == |books.value| > 0
                         && forall k :: 0 <= k < |books.value| ==>
                              v.cards[k].book == books.value[k] && v.cards[k].actions == ActionsFor(books.value[k]))
  {
    if loading then Spinner
    else if books.None? || |books.value| == 0 then EmptyState
    else Grid(seq(|books.value|, k requires 0 <= k < |books.value| => Card(books.value[k], ActionsFor(books.value[k]))))
  }

  /** Every card that is shown can be deleted, and deleting it names its own
      storybook. */
  lemma EveryCardCanBeDeleted(books: seq<Storybook>, k: nat)
    requires k < |books|
    ensures Render(Some(books), false).Grid?
    ensures Delete(books[k].id) in Render(Some(books), false).cards[k].actions
  {
    var a := ActionsFor(books[k]);
    assert a[|a| - 1] == Delete(books[k].id);
  }
}
