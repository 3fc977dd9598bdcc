/** The tags page (src/app/components/tags-page/tags-page.ts). */
module TagsPaging {

  /**
   * A tag object.  Only the two members the page uses are modelled; the
   * page flips `priority` on the object itself, which may be the same object
   * that sits in the page's list.
   */
  class Tag {
    const id: string
    var priority: bool

    constructor (id: string, priority: bool)
      ensures this.id == id && this.priority == priority
    {
      this.id := id;
      this.priority := priority;
    }
  }

  /** `tags.findIndex((t) => t.id === id)`: the first index with that id, or -1. */
  function FindIndex(tags: seq<Tag>, id: string): (i: int)
    ensures -1 <= i < |tags|
    ensures i >= 0 ==> tags[i].id == id
    ensures forall j :: 0 <= j < |tags| && (i == -1 || j < i) ==> tags[j].id != id
    decreases |tags|
  {
    if |tags| == 0 then -1
    else if tags[0].id == id then 0
    else
      var k := FindIndex(tags[1..], id);
      if k == -1 then -1 else k + 1
  }

  /**
   * The list the page keeps once the update resolves: a copy with the tag at
   * the first index holding its id.  With no such index the source assigns
   * to the property "-1" of the copy, which is not an element, so the
   * elements stay as they were.
   */
  function ReplacedById(tags: seq<Tag>, tag: Tag): (r: seq<Tag>)
    ensures |r| == |tags|
    ensures forall j :: 0 <= j < |tags| ==>
      r[j] == if j == FindIndex(tags, tag.id) then tag else tags[j]
    ensures FindIndex(tags, tag.id) == -1 ==> r == tags
  {
    var index := FindIndex(tags, tag.id);
    if index >= 0 then tags[index := tag] else tags
  }

  /** Replacing again with the same tag changes nothing more. */
  lemma ReplaceIdempotent(tags: seq<Tag>, tag: Tag)
    ensures ReplacedById(ReplacedById(tags, tag), tag) == ReplacedById(tags, tag)
  {
    var index := FindIndex(tags, tag.id);
    var once := ReplacedById(tags, tag);
    if index >= 0 {
      assert forall j :: 0 <= j < index ==> once[j] == tags[j];
      assert FindIndex(once, tag.id) == index;
    }
  }

  /** When the list already holds this very object at its index, the list is unchanged. */
  lemma ReplaceAliasedTag(tags: seq<Tag>, tag: Tag)
    requires FindIndex(tags, tag.id) >= 0 && tags[FindIndex(tags, tag.id)] == tag
    ensures ReplacedById(tags, tag) == tags
  {
  }

  class TagsPage {
    /** The `tags` signal's array, as a sequence of tag objects. */
    var tags: seq<Tag>

    constructor ()
      ensures tags == []
    {
      tags := [];
    }

    /** The constructor's `getAll()` resolves. */
    method TagsLoaded(loaded: seq<Tag>)
      modifies this
      ensures tags == loaded
    {
      tags := loaded;
    }

    /** `updateTagPriority`, before its request settles: the flag is flipped at once. */
    method UpdateTagPriority(tag: Tag)
      modifies tag
      ensures tag.priority == !old(tag.priority)
    {
      tag.priority := !tag.priority;
    }

    /** The `.then` of `updateTagPriority`, once `tagService.update` resolves. */
    method TagUpdateResolved(tag: Tag)
      modifies this
      ensures tags == ReplacedById(old(tags), tag)
      ensures |tags| == |old(tags)|
    {
      var index := FindIndex(tags, tag.id);
      var updatedTags := tags;
      if index >= 0 {
        updatedTags := updatedTags[index := tag];
      }
      tags := updatedTags;
    }
  }
}
