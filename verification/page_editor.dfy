/** One page's card in the editor (`PageEditor`): which of its two
    regenerations is in progress, read off the editor's single busy key, and
    what the card shows. */
module PageEditor {
  import opened Common
  import opened Records

  /** The busy key of an image regeneration of page `id`. */
  function ImageKey(id: string): string
  {
    "image-" + id
  }

  /** The busy key of a text regeneration of page `id`. */
  function TextKey(id: string): string
  {
    "text-" + id
  }

  /** Keys name their page: equal keys of one kind have equal ids, and an
      image key is never a text key. */
  lemma KeysAreDistinct(a: string, b: string)
    ensures ImageKey(a) == ImageKey(b) <==> a == b
    ensures TextKey(a) == TextKey(b) <==> a == b
    ensures ImageKey(a) != TextKey(b)
  {
    if ImageKey(a) == ImageKey(b) {
      assert a == ImageKey(a)[6..] && b == ImageKey(b)[6..];
    }
    if TextKey(a) == TextKey(b) {
      assert a == TextKey(a)[5..] && b == TextKey(b)[5..];
    }
    assert ImageKey(a)[0] != TextKey(b)[0];
  }

  /** What fills the picture area. */
  datatype Picture = Placeholder | Image(url: string)

  /** The card of one page: its picture, whether the picture is covered by a
      spinner, its text (`None` while a spinner replaces it), and whether the
      two regenerate buttons are disabled. */
  datatype Card = Card(picture: Picture, pictureBusy: bool, text: Option<string>, buttonsDisabled: bool)

  /** The card of `page` while the editor's busy key is `busy` (`null` is
      `None`). */
  function CardOf(page: Page, busy: Option<string>): (c: Card)
    ensures c.pictureBusy <==> busy == Some(ImageKey(page.id))
    ensures c.text.None? <==> busy == Some(TextKey(page.id))
    ensures c.text.Some? ==> c.text.value == page.textContent
    ensures c.buttonsDisabled <==> c.pictureBusy || c.text.None?
    ensures c.picture.Placeholder? <==> page.imageUrl.None? || page.imageUrl == Some("")
    ensures c.picture.Image? ==> page.imageUrl == Some(c.picture.url)
  {
    var imageBusy := busy == Some(ImageKey(page.id));
    var textBusy := busy == Some(TextKey(page.id));
    Card(if page.imageUrl.Some? && page.imageUrl.value != "" then Image(page.imageUrl.value) else Placeholder,
         imageBusy,
         if textBusy then None else Some(page.textContent),
         imageBusy || textBusy)
  }

  /** A card never shows both regenerations in progress. */
  lemma NeverBothBusy(page: Page, busy: Option<string>)
    ensures !(CardOf(page, busy).pictureBusy && CardOf(page, busy).text.None?)
  {
    if busy.Some? {
      KeysAreDistinct(page.id, page.id);
    }
  }

  /** A regeneration of another page leaves this card's buttons enabled,
      its picture uncovered and its text shown. */
  lemma OtherPageNeverBlocks(page: Page, other: string)
    requires other != page.id
    ensures var c := CardOf(page, Some(ImageKey(other)));
      !c.buttonsDisabled && !c.pictureBusy && c.text.Some?
    ensures var c := CardOf(page, Some(TextKey(other)));
      !c.buttonsDisabled && !c.pictureBusy && c.text.Some?
  {
    KeysAreDistinct(other, page.id);
    KeysAreDistinct(page.id, other);
  }
}
