/**
 * The directive-tag resolver of the image-metadata plugin (`processTags`): it reads
 * the "Update Performers" and "Update Studio" directive tags off an item's tag list
 * and, outside dry-run, writes the list back without them.
 */
module DirectiveTags {
  import opened Records
  import opened Store

  /** The id a directive tag resolves to when the library has no tag of that name. */
  const Unset: int := -1

  /** A pair of decisions: whether to set performers and whether to set the studio. */
  datatype Flags = Flags(performers: bool, studio: bool)

  /**
   * The directives an item's tags carry. The performer tag is tested first, so a tag
   * equal to both ids counts for performers only.
   */
  function Directives(tags: Option<seq<Id>>, performerTag: int, studioTag: int): (r: Flags)
    ensures performerTag == Unset ==> !r.performers
    ensures studioTag == Unset ==> !r.studio
    ensures r.studio ==> studioTag != performerTag
    ensures TagList(tags) == [] ==> r == Flags(false, false)
  {
    Flags(performerTag in TagList(tags), studioTag in TagList(tags) && studioTag != performerTag)
  }

  /** The tag ids other than the two directive ids, in their original order. */
  function Strip(tags: seq<Id>, performerTag: int, studioTag: int): (r: seq<Id>)
    ensures forall t :: t in r <==> t in tags && t != performerTag && t != studioTag
    ensures |r| <= |tags|
  {
    if tags == [] then []
    else
      var front, t := tags[..|tags| - 1], tags[|tags| - 1];
      assert tags == front + [t];
      Strip(front, performerTag, studioTag) + (if t == performerTag || t == studioTag then [] else [t])
  }

  /** Stripping is a filter: it keeps the relative order of what it keeps. */
  lemma {:induction false} StripAppend(a: seq<Id>, b: seq<Id>, performerTag: int, studioTag: int)
    ensures Strip(a + b, performerTag, studioTag) == Strip(a, performerTag, studioTag) + Strip(b, performerTag, studioTag)
    decreases |b|
  {
    if b == [] {
      assert a + b == a;
    } else {
      var front, t := b[..|b| - 1], b[|b| - 1];
      assert b == front + [t];
      assert a + b == (a + front) + [t];
      StripAppend(a, front, performerTag, studioTag);
    }
  }

  /** A list without directive ids is written back unchanged. */
  lemma {:induction false} StripUnchanged(tags: seq<Id>, performerTag: int, studioTag: int)
    requires performerTag !in tags && studioTag !in tags
    ensures Strip(tags, performerTag, studioTag) == tags
  {
    if tags != [] {
      var front := tags[..|tags| - 1];
      assert tags == front + [tags[|tags| - 1]];
      StripUnchanged(front, performerTag, studioTag);
    }
  }

  /**
   * Stripping consumes the directives exactly once: the retained list carries no
   * directive, and stripping it again changes nothing.
   */
  lemma StripIdempotent(tags: seq<Id>, performerTag: int, studioTag: int)
    ensures Directives(Some(Strip(tags, performerTag, studioTag)), performerTag, studioTag) == Flags(false, false)
    ensures Strip(Strip(tags, performerTag, studioTag), performerTag, studioTag) == Strip(tags, performerTag, studioTag)
  {
    StripUnchanged(Strip(tags, performerTag, studioTag), performerTag, studioTag);
  }

  /** The loop of `processTags` over an item's tags. */
  method ScanTags(tags: seq<Id>, performerTag: int, studioTag: int)
    returns (updatePerformers: bool, updateStudio: bool, kept: seq<Id>)
    ensures updatePerformers <==> performerTag in tags
    ensures updateStudio <==> studioTag in tags && studioTag != performerTag
    ensures kept == Strip(tags, performerTag, studioTag)
  {
    updatePerformers, updateStudio, kept := false, false, [];
    for i := 0 to |tags|
      invariant updatePerformers <==> performerTag in tags[..i]
      invariant updateStudio <==> studioTag in tags[..i] && studioTag != performerTag
      invariant kept == Strip(tags[..i], performerTag, studioTag)
    {
      var tagId := tags[i];
      assert tags[..i + 1] == tags[..i] + [tagId];
      if tagId == performerTag {
        updatePerformers := true;
      } else if tagId == studioTag {
        updateStudio := true;
      } else {
        kept := kept + [tagId];
      }
    }
    assert tags[..|tags|] == tags;
  }

  /** The tag write `processTags` issues: none in dry-run or for an item without tags. */
  function TagWrite(itemId: Id, tags: Option<seq<Id>>, performerTag: int, studioTag: int, dryrun: bool, isGallery: bool): (r: seq<Command>)
    ensures |r| <= 1 && (dryrun ==> r == [])
    ensures |r| == 1 ==>
              && r[0].Update? && r[0].id == itemId && r[0].patch.tagIds.Some?
              && r[0].patch.performerIds.None? && r[0].patch.studioId.None?
              && performerTag !in r[0].patch.tagIds.value && studioTag !in r[0].patch.tagIds.value
  {
    if dryrun || TagList(tags) == [] then []
    else [Update(if isGallery then GalleryKind else ImageKind, itemId, Patch(Some(Strip(TagList(tags), performerTag, studioTag)), None, None))]
  }

  /**
   * `processTags`: resolves the two directives from the item's tags and, outside
   * dry-run, writes the retained tag ids back to the gallery or image.
   */
  method ProcessTags(stash: Stash, itemId: Id, tags: Option<seq<Id>>, performerTag: int, studioTag: int, dryrun: bool, isGallery: bool)
    returns (flags: Flags)
    modifies stash
    ensures flags.performers <==> performerTag in TagList(tags)
    ensures flags.studio <==> studioTag in TagList(tags) && studioTag != performerTag
    ensures dryrun || TagList(tags) == [] ==> stash.log == old(stash.log)
    ensures !dryrun && TagList(tags) != [] ==>
      stash.log == old(stash.log) + [Update(if isGallery then GalleryKind else ImageKind, itemId,
                                            Patch(Some(Strip(TagList(tags), performerTag, studioTag)), None, None))]
  {
    if tags.None? || |tags.value| == 0 {
      return Flags(false, false);
    }
    var updatePerformers, updateStudio, tagIds := ScanTags(tags.value, performerTag, studioTag);
    if !dryrun {
      var patch := Patch(Some(tagIds), None, None);
      if isGallery {
        stash.UpdateGallery(itemId, patch);
      } else {
        stash.UpdateImage(itemId, patch);
      }
    }
    flags := Flags(updatePerformers, updateStudio);
  }
}
