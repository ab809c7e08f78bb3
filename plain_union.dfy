/**
 * The image-performers plugin (imagePerformersFromGallery): for every image listed
 * under a gallery, the union of the performers of all the image's galleries,
 * written to the image in "update" mode.
 */
module PlainUnion {
  import opened Records
  import opened Store
  import opened Sequences

  /** The mode value under which the plugin writes. */
  const UpdateMode: string := "update"

  /** The performer ids of the galleries, gallery by gallery, repeats included. */
  function AllPerformers(gs: seq<Gallery>): seq<Id>
  {
    if gs == [] then [] else AllPerformers(gs[..|gs| - 1]) + gs[|gs| - 1].performers
  }

  lemma {:induction false} AllPerformersMembers(gs: seq<Gallery>)
    ensures forall x :: x in AllPerformers(gs) <==> exists k :: 0 <= k < |gs| && x in gs[k].performers
  {
    if gs != [] {
      var front := gs[..|gs| - 1];
      AllPerformersMembers(front);
      assert forall k :: 0 <= k < |front| ==> front[k] == gs[k];
    }
  }

  /** The loop that unions the performers of an image's galleries. */
  method CollectAllPerformers(gs: seq<Gallery>) returns (performerIds: seq<Id>)
    ensures performerIds == Dedup(AllPerformers(gs))
    ensures NoDup(performerIds)
    ensures forall x :: x in performerIds <==> exists k :: 0 <= k < |gs| && x in gs[k].performers
  {
    performerIds := [];
    for k := 0 to |gs|
      invariant performerIds == Dedup(AllPerformers(gs[..k]))
    {
      var before := AllPerformers(gs[..k]);
      assert gs[..k + 1][..k] == gs[..k];
      performerIds := AppendNew(performerIds, gs[k].performers, before);
    }
    assert gs[..|gs|] == gs;
    AllPerformersMembers(gs);
  }

  /** The images the per-gallery queries return, gallery by gallery. */
  function ListedImages(galleryIds: seq<Id>, findImages: Id -> seq<Image>): seq<Image>
  {
    if galleryIds == [] then []
    else ListedImages(galleryIds[..|galleryIds| - 1], findImages) + findImages(galleryIds[|galleryIds| - 1])
  }

  /** One update per image, setting its performers to the union over its galleries. */
  function UnionUpdates(images: seq<Image>): (r: seq<Command>)
    ensures |r| == |images|
    ensures forall i :: 0 <= i < |images| ==>
              && r[i].Update? && r[i].kind == ImageKind && r[i].id == images[i].id
              && r[i].patch.tagIds.None? && r[i].patch.studioId.None? && r[i].patch.performerIds.Some?
              && NoDup(r[i].patch.performerIds.value)
  {
    seq(|images|, i requires 0 <= i < |images| =>
      Update(ImageKind, images[i].id, Patch(None, Some(Dedup(AllPerformers(images[i].galleries))), None)))
  }

  /**
   * `main`: counts every listed image in every mode, and in "update" mode writes
   * each listed image's performer union, in listing order.
   */
  method Run(stash: Stash, galleryIds: seq<Id>, findImages: Id -> seq<Image>, mode: string)
    returns (imagetotal: nat)
    modifies stash
    ensures imagetotal == |ListedImages(galleryIds, findImages)|
    ensures mode != UpdateMode ==> stash.log == old(stash.log)
    ensures mode == UpdateMode ==> stash.log == old(stash.log) + UnionUpdates(ListedImages(galleryIds, findImages))
  {
    imagetotal := 0;
    ghost var listed: seq<Image> := [];
    for i := 0 to |galleryIds|
      invariant listed == ListedImages(galleryIds[..i], findImages)
      invariant imagetotal == |listed|
      invariant mode != UpdateMode ==> stash.log == old(stash.log)
      invariant mode == UpdateMode ==> stash.log == old(stash.log) + UnionUpdates(listed)
    {
      var galleryId := galleryIds[i];
      assert galleryIds[..i + 1][..i] == galleryIds[..i];
      var imageList := findImages(galleryId);
      imagetotal := imagetotal + |imageList|;
      if mode == UpdateMode {
        for j := 0 to |imageList|
          invariant stash.log == old(stash.log) + UnionUpdates(listed + imageList[..j])
        {
          var image := imageList[j];
          var performerIds := CollectAllPerformers(image.galleries);
          stash.UpdateImage(image.id, Patch(None, Some(performerIds), None));
          assert listed + imageList[..j + 1] == (listed + imageList[..j]) + [image];
          assert UnionUpdates((listed + imageList[..j]) + [image])
              == UnionUpdates(listed + imageList[..j]) + [Update(ImageKind, image.id, Patch(None, Some(performerIds), None))];
        }
        assert imageList[..|imageList|] == imageList;
      }
      listed := listed + imageList;
    }
    assert galleryIds[..|galleryIds|] == galleryIds;
  }
}
