/**
 * The image-metadata plugin (imageMetadataFromGallery): for each gallery, plans an
 * update of each of its images (performers unioned over the image's qualifying
 * galleries, studio from the gallery), then strips the directive tags from the galleries.
 */
module Propagation {
  import opened Records
  import opened Store
  import opened Sequences
  import opened DirectiveTags
  import PlainUnion

  /**
   * `setGalleryMetadataFlags`: whether this gallery may give its performers and its
   * studio to images. Every call site passes dryrun=True, so the tag resolution
   * inside it never writes, and it is a function here.
   */
  function GalleryFlags(g: Gallery, tagged: bool, performerTag: int, studioTag: int): (r: Flags)
    ensures r.performers <==> |g.performers| > 0 && (!tagged || performerTag in TagList(g.tags))
    ensures r.studio <==> g.studio.Some? && (!tagged || (studioTag in TagList(g.tags) && studioTag != performerTag))
  {
    var directives := Directives(g.tags, performerTag, studioTag);
    var setStudio := if g.studio.None? then false else if !tagged then true else directives.studio;
    var setPerformers := if |g.performers| == 0 then false else if !tagged then true else directives.performers;
    Flags(setPerformers, setStudio)
  }

  /**
   * The decision of `setImageMetadataFlags`: an image takes performers when it has
   * none or carries the performer directive, and a studio when it has none or
   * carries the studio directive, whatever the mode.
   */
  function ImageFlags(img: Image, performerTag: int, studioTag: int): (r: Flags)
    ensures r.performers <==> |img.performers| == 0 || performerTag in TagList(img.tags)
    ensures r.studio <==> img.studio.None? || (studioTag in TagList(img.tags) && studioTag != performerTag)
  {
    var directives := Directives(img.tags, performerTag, studioTag);
    Flags(if |img.performers| == 0 then true else directives.performers,
          if img.studio.None? then true else directives.studio)
  }

  /** `setImageMetadataFlags`, with the tag write its `processTags` call makes outside dry-run. */
  method SetImageMetadataFlags(stash: Stash, img: Image, performerTag: int, studioTag: int, dryrun: bool)
    returns (flags: Flags)
    modifies stash
    ensures flags == ImageFlags(img, performerTag, studioTag)
    ensures stash.log == old(stash.log) + TagWrite(img.id, img.tags, performerTag, studioTag, dryrun, false)
  {
    flags := ProcessTags(stash, img.id, img.tags, performerTag, studioTag, dryrun, false);
    if img.studio.None? {
      flags := flags.(studio := true);
    }
    if |img.performers| == 0 {
      flags := flags.(performers := true);
    }
  }

  /** The performer ids of the galleries whose performer flag holds, gallery by gallery, repeats included. */
  function QualifyingPerformers(gs: seq<Gallery>, tagged: bool, performerTag: int, studioTag: int): seq<Id>
  {
    if gs == [] then []
    else
      var g := gs[|gs| - 1];
      QualifyingPerformers(gs[..|gs| - 1], tagged, performerTag, studioTag)
        + (if GalleryFlags(g, tagged, performerTag, studioTag).performers then g.performers else [])
  }

  lemma {:induction false} QualifyingPerformersMembers(gs: seq<Gallery>, tagged: bool, performerTag: int, studioTag: int)
    ensures forall x :: x in QualifyingPerformers(gs, tagged, performerTag, studioTag) <==>
      exists k :: 0 <= k < |gs| && GalleryFlags(gs[k], tagged, performerTag, studioTag).performers && x in gs[k].performers
  {
    if gs != [] {
      var front := gs[..|gs| - 1];
      QualifyingPerformersMembers(front, tagged, performerTag, studioTag);
      assert forall k :: 0 <= k < |front| ==> front[k] == gs[k];
    }
  }

  /**
   * In untagged mode the gating drops only galleries without performers, so the
   * union is the one the image-performers plugin computes.
   */
  lemma {:induction false} UntaggedUnionIsPlainUnion(gs: seq<Gallery>, performerTag: int, studioTag: int)
    ensures QualifyingPerformers(gs, false, performerTag, studioTag) == PlainUnion.AllPerformers(gs)
  {
    if gs != [] {
      UntaggedUnionIsPlainUnion(gs[..|gs| - 1], performerTag, studioTag);
    }
  }

  /** The loop of `main` that unions the performers of the image's qualifying galleries. */
  method CollectPerformers(gs: seq<Gallery>, tagged: bool, performerTag: int, studioTag: int)
    returns (performerIds: seq<Id>)
    ensures performerIds == Dedup(QualifyingPerformers(gs, tagged, performerTag, studioTag))
    ensures NoDup(performerIds)
    ensures forall x :: x in performerIds <==>
      exists k :: 0 <= k < |gs| && GalleryFlags(gs[k], tagged, performerTag, studioTag).performers && x in gs[k].performers
  {
    performerIds := [];
    for k := 0 to |gs|
      invariant performerIds == Dedup(QualifyingPerformers(gs[..k], tagged, performerTag, studioTag))
    {
      var before := QualifyingPerformers(gs[..k], tagged, performerTag, studioTag);
      assert gs[..k + 1][..k] == gs[..k];
      if GalleryFlags(gs[k], tagged, performerTag, studioTag).performers {
        performerIds := AppendNew(performerIds, gs[k].performers, before);
      } else {
        assert before + [] == before;
      }
    }
    assert gs[..|gs|] == gs;
    QualifyingPerformersMembers(gs, tagged, performerTag, studioTag);
  }

  /** An image as returned by the query for one gallery: the visit of `image` from `gallery`. */
  datatype Visit = Visit(gallery: Gallery, image: Image)

  /**
   * The update `main` plans for a visited image: the performer union when the image
   * takes performers and some gallery of it qualifies, and the visited gallery's
   * studio when both the gallery and the image allow a studio.
   */
  function ImagePatch(v: Visit, tagged: bool, performerTag: int, studioTag: int): (r: Patch)
    ensures r.tagIds.None?
    ensures r.studioId.Some? ==> r.studioId == v.gallery.studio
  {
    var flags := ImageFlags(v.image, performerTag, studioTag);
    var performerIds := Dedup(QualifyingPerformers(v.image.galleries, tagged, performerTag, studioTag));
    var setStudio := GalleryFlags(v.gallery, tagged, performerTag, studioTag).studio && flags.studio;
    PatchFrom(flags.performers, performerIds, setStudio, v.gallery.studio)
  }

  /** The image update: the performer list when it is wanted and non-empty, the studio when wanted; never tags. */
  function PatchFrom(setPerformers: bool, performerIds: seq<Id>, setStudio: bool, studio: Option<Id>): Patch
    requires setStudio ==> studio.Some?
  {
    Patch(None,
          if setPerformers && |performerIds| > 0 then Some(performerIds) else None,
          if setStudio then Some(studio.value) else None)
  }

  /**
   * What the planned update holds: performers iff the image takes performers and
   * some gallery of it qualifies, and then exactly the qualifying galleries'
   * performers without repeats; a studio iff both the gallery and the image allow
   * one.
   */
  lemma ImagePatchSpec(v: Visit, tagged: bool, performerTag: int, studioTag: int)
    ensures var r := ImagePatch(v, tagged, performerTag, studioTag);
      && (r.performerIds.Some? <==>
            ImageFlags(v.image, performerTag, studioTag).performers &&
            exists k :: 0 <= k < |v.image.galleries| && GalleryFlags(v.image.galleries[k], tagged, performerTag, studioTag).performers)
      && (r.performerIds.Some? ==> NoDup(r.performerIds.value))
      && (r.performerIds.Some? ==> forall x :: x in r.performerIds.value <==>
            exists k :: 0 <= k < |v.image.galleries| &&
              GalleryFlags(v.image.galleries[k], tagged, performerTag, studioTag).performers && x in v.image.galleries[k].performers)
      && (r.studioId.Some? <==>
            GalleryFlags(v.gallery, tagged, performerTag, studioTag).studio && ImageFlags(v.image, performerTag, studioTag).studio)
  {
    var gs := v.image.galleries;
    var performerIds := Dedup(QualifyingPerformers(gs, tagged, performerTag, studioTag));
    QualifyingPerformersMembers(gs, tagged, performerTag, studioTag);
    assert (exists k :: 0 <= k < |gs| && GalleryFlags(gs[k], tagged, performerTag, studioTag).performers) ==> |performerIds| > 0 by {
      if k :| 0 <= k < |gs| && GalleryFlags(gs[k], tagged, performerTag, studioTag).performers {
        assert gs[k].performers[0] in performerIds;
      }
    }
    assert |performerIds| > 0 ==> performerIds[0] in QualifyingPerformers(gs, tagged, performerTag, studioTag);
  }

  /** The visits of one gallery's images, in query order. */
  function GalleryVisits(g: Gallery, images: seq<Image>): seq<Visit>
  {
    if images == [] then [] else GalleryVisits(g, images[..|images| - 1]) + [Visit(g, images[|images| - 1])]
  }

  /** Every visit the loop of `main` makes, gallery by gallery. */
  function Visits(gs: seq<Gallery>, findImages: Id -> seq<Image>): seq<Visit>
  {
    if gs == [] then []
    else
      var g := gs[|gs| - 1];
      Visits(gs[..|gs| - 1], findImages) + GalleryVisits(g, findImages(g.id))
  }

  /** The ids of the visited images: the set `completedImgs`. */
  function VisitedImageIds(vs: seq<Visit>): set<Id>
  {
    if vs == [] then {} else VisitedImageIds(vs[..|vs| - 1]) + {vs[|vs| - 1].image.id}
  }

  lemma {:induction false} VisitedImageIdsMembers(vs: seq<Visit>)
    ensures forall id :: id in VisitedImageIds(vs) <==> exists k :: 0 <= k < |vs| && vs[k].image.id == id
  {
    if vs != [] {
      var front := vs[..|vs| - 1];
      VisitedImageIdsMembers(front);
      assert forall k :: 0 <= k < |front| ==> front[k] == vs[k];
    }
  }

  /** The visits that are planned: the first visit of each image id. */
  function FirstVisits(vs: seq<Visit>): (r: seq<Visit>)
    ensures |r| <= |vs|
  {
    if vs == [] then []
    else
      var front, v := vs[..|vs| - 1], vs[|vs| - 1];
      if v.image.id in VisitedImageIds(front) then FirstVisits(front) else FirstVisits(front) + [v]
  }

  /** Every visited image is planned. */
  lemma {:induction false} FirstVisitsCoverVisits(vs: seq<Visit>)
    ensures VisitedImageIds(FirstVisits(vs)) == VisitedImageIds(vs)
  {
    if vs != [] {
      var front, v := vs[..|vs| - 1], vs[|vs| - 1];
      FirstVisitsCoverVisits(front);
      var f := FirstVisits(front);
      if v.image.id !in VisitedImageIds(front) {
        assert (f + [v])[..|f|] == f;
      }
    }
  }

  /** Each image is planned at most once per run. */
  lemma {:induction false} FirstVisitsOncePerImage(vs: seq<Visit>)
    ensures forall i, j :: 0 <= i < j < |FirstVisits(vs)| ==> FirstVisits(vs)[i].image.id != FirstVisits(vs)[j].image.id
  {
    if vs != [] {
      var front, v := vs[..|vs| - 1], vs[|vs| - 1];
      FirstVisitsOncePerImage(front);
      var f := FirstVisits(front);
      if v.image.id !in VisitedImageIds(front) {
        FirstVisitsCoverVisits(front);
        VisitedImageIdsMembers(f);
        var r := f + [v];
        assert FirstVisits(vs) == r;
        forall i, j | 0 <= i < j < |r|
          ensures r[i].image.id != r[j].image.id
        {
          assert r[i] == f[i];
          if j == |f| {
            assert f[i].image.id in VisitedImageIds(f);
          } else {
            assert r[j] == f[j];
          }
        }
      }
    }
  }

  /**
   * The visit planned for an image is its first visit: it comes from the first gallery
   * that returned the image, whose studio is the one written.
   */
  lemma {:induction false} FirstVisitsAreFirst(vs: seq<Visit>)
    ensures forall k :: 0 <= k < |FirstVisits(vs)| ==>
              exists m :: 0 <= m < |vs| && vs[m] == FirstVisits(vs)[k] &&
                forall m' :: 0 <= m' < m ==> vs[m'].image.id != vs[m].image.id
  {
    if vs != [] {
      var front, v := vs[..|vs| - 1], vs[|vs| - 1];
      FirstVisitsAreFirst(front);
      var f := FirstVisits(front);
      assert forall m :: 0 <= m < |front| ==> front[m] == vs[m];
      forall k | 0 <= k < |f|
        ensures exists m :: 0 <= m < |vs| && vs[m] == f[k] &&
                  forall m' :: 0 <= m' < m ==> vs[m'].image.id != vs[m].image.id
      {
        var m :| 0 <= m < |front| && front[m] == f[k] &&
                 forall m' :: 0 <= m' < m ==> front[m'].image.id != front[m].image.id;
        assert vs[m] == f[k];
      }
      if v.image.id !in VisitedImageIds(front) {
        VisitedImageIdsMembers(front);
        var r := f + [v];
        assert FirstVisits(vs) == r;
        forall k | 0 <= k < |r|
          ensures exists m :: 0 <= m < |vs| && vs[m] == r[k] &&
                    forall m' :: 0 <= m' < m ==> vs[m'].image.id != vs[m].image.id
        {
          if k == |f| {
            var m := |vs| - 1;
            assert vs[m] == r[k];
            assert forall m' :: 0 <= m' < m ==> vs[m'].image.id != vs[m].image.id;
          } else {
            assert r[k] == f[k];
          }
        }
      } else {
        assert FirstVisits(vs) == f;
      }
    } else {
      assert FirstVisits(vs) == [];
    }
  }

  /** A planned visit is one of the visits. */
  lemma {:induction false} FirstVisitsAreVisits(vs: seq<Visit>)
    ensures forall v :: v in FirstVisits(vs) ==> v in vs
  {
    if vs != [] {
      var front := vs[..|vs| - 1];
      FirstVisitsAreVisits(front);
      assert vs == front + [vs[|vs| - 1]];
    }
  }

  /** What handling one planned visit writes: the image's tag strip, then the image update. */
  function VisitLog(v: Visit, tagged: bool, dryrun: bool, performerTag: int, studioTag: int): seq<Command>
  {
    TagWrite(v.image.id, v.image.tags, performerTag, studioTag, dryrun, false)
      + (if dryrun then [] else [Update(ImageKind, v.image.id, ImagePatch(v, tagged, performerTag, studioTag))])
  }

  function ImagesLog(vs: seq<Visit>, tagged: bool, dryrun: bool, performerTag: int, studioTag: int): seq<Command>
  {
    if vs == [] then []
    else ImagesLog(vs[..|vs| - 1], tagged, dryrun, performerTag, studioTag) + VisitLog(vs[|vs| - 1], tagged, dryrun, performerTag, studioTag)
  }

  /** The final loop of `main`: the directive tags stripped from every gallery. */
  function GalleryTagsLog(gs: seq<Gallery>, performerTag: int, studioTag: int, dryrun: bool): seq<Command>
  {
    if gs == [] then []
    else
      var g := gs[|gs| - 1];
      GalleryTagsLog(gs[..|gs| - 1], performerTag, studioTag, dryrun) + TagWrite(g.id, g.tags, performerTag, studioTag, dryrun, true)
  }

  /** Everything a run of `main` writes, in order. */
  function RunLog(gs: seq<Gallery>, findImages: Id -> seq<Image>, tagged: bool, dryrun: bool, performerTag: int, studioTag: int): seq<Command>
  {
    ImagesLog(FirstVisits(Visits(gs, findImages)), tagged, dryrun, performerTag, studioTag)
      + GalleryTagsLog(gs, performerTag, studioTag, dryrun)
  }

  /** The counters `imagetotal`, `imgPerformerTotal` and `imgStudioTotal`. */
  datatype Totals = Totals(images: nat, performerUpdates: nat, studioUpdates: nat)

  /**
   * The counters after one more planned image whose update is `patch`: each of the
   * two field counters moves by at most one, and `imagetotal` moves exactly when one
   * of them does.
   */
  function Count(t: Totals, patch: Patch): (r: Totals)
    ensures t.performerUpdates <= r.performerUpdates <= t.performerUpdates + 1
    ensures t.studioUpdates <= r.studioUpdates <= t.studioUpdates + 1
    ensures t.images <= r.images <= t.images + 1
    ensures r.images == t.images ==> r.performerUpdates == t.performerUpdates && r.studioUpdates == t.studioUpdates
    ensures r.images == t.images + 1 <==> r.performerUpdates == t.performerUpdates + 1 || r.studioUpdates == t.studioUpdates + 1
  {
    Totals(t.images + (if patch.performerIds.Some? || patch.studioId.Some? then 1 else 0),
           t.performerUpdates + (if patch.performerIds.Some? then 1 else 0),
           t.studioUpdates + (if patch.studioId.Some? then 1 else 0))
  }

  /**
   * The counters after the planned visits `vs`: `imagetotal` lies between the larger
   * of the two other counters and their sum, and never exceeds the number of visits.
   */
  function Tally(vs: seq<Visit>, tagged: bool, performerTag: int, studioTag: int): (t: Totals)
    ensures t.performerUpdates <= t.images && t.studioUpdates <= t.images
    ensures t.images <= t.performerUpdates + t.studioUpdates && t.images <= |vs|
  {
    if vs == [] then Totals(0, 0, 0)
    else Count(Tally(vs[..|vs| - 1], tagged, performerTag, studioTag), ImagePatch(vs[|vs| - 1], tagged, performerTag, studioTag))
  }

  /**
   * The rest of the image loop's body for an image not seen before: its performer
   * union, its update and the counters, given its flags.
   */
  method PlanUpdate(gallery: Gallery, galSetStudio: bool, image: Image, flags: Flags,
                    tagged: bool, performerTag: int, studioTag: int, totals: Totals)
    returns (updateInput: Patch, totals': Totals)
    requires galSetStudio == GalleryFlags(gallery, tagged, performerTag, studioTag).studio
    requires flags == ImageFlags(image, performerTag, studioTag)
    ensures updateInput == ImagePatch(Visit(gallery, image), tagged, performerTag, studioTag)
    ensures totals' == Count(totals, updateInput)
  {
    var setStudio := galSetStudio && flags.studio;
    var performerIds: seq<Id> := [];
    if flags.performers {
      performerIds := CollectPerformers(image.galleries, tagged, performerTag, studioTag);
    }
    updateInput, totals' := BuildUpdate(flags.performers, performerIds, setStudio, gallery.studio, totals);
  }

  /** The update-building branches and their counters, given the performer union and the two flags. */
  method BuildUpdate(setPerformers: bool, performerIds: seq<Id>, setStudio: bool, studio: Option<Id>, totals: Totals)
    returns (updateInput: Patch, totals': Totals)
    requires setStudio ==> studio.Some?
    ensures updateInput == PatchFrom(setPerformers, performerIds, setStudio, studio)
    ensures totals' == Count(totals, updateInput)
  {
    var imagetotal, imgPerformerTotal, imgStudioTotal := totals.images, totals.performerUpdates, totals.studioUpdates;
    var updated := false;
    updateInput := Patch(None, None, None);
    if setPerformers && |performerIds| > 0 {
      imgPerformerTotal := imgPerformerTotal + 1;
      updated := true;
      updateInput := updateInput.(performerIds := Some(performerIds));
    }
    if setStudio {
      imgStudioTotal := imgStudioTotal + 1;
      updated := true;
      updateInput := updateInput.(studioId := Some(studio.value));
    }
    if updated {
      imagetotal := imagetotal + 1;
    }
    totals' := Totals(imagetotal, imgPerformerTotal, imgStudioTotal);
  }

  /**
   * The body of the image loop of `main` for an image not seen before: its flags
   * (with their tag strip), then its update outside dry-run, and the counters.
   */
  method HandleNewImage(stash: Stash, gallery: Gallery, galSetStudio: bool, image: Image,
                     tagged: bool, dryrun: bool, performerTag: int, studioTag: int, totals: Totals)
    returns (totals': Totals)
    requires galSetStudio == GalleryFlags(gallery, tagged, performerTag, studioTag).studio
    modifies stash
    ensures totals' == Count(totals, ImagePatch(Visit(gallery, image), tagged, performerTag, studioTag))
    ensures stash.log == old(stash.log) + VisitLog(Visit(gallery, image), tagged, dryrun, performerTag, studioTag)
  {
    var flags := SetImageMetadataFlags(stash, image, performerTag, studioTag, dryrun);
    var updateInput;
    updateInput, totals' := PlanUpdate(gallery, galSetStudio, image, flags, tagged, performerTag, studioTag, totals);
    if !dryrun {
      stash.UpdateImage(image.id, updateInput);
    }
  }

  /**
   * The body of the image loop of `main`: an image already handled for an earlier
   * gallery is skipped; any other is handled and counted.
   */
  method VisitImage(stash: Stash, gallery: Gallery, galSetStudio: bool, image: Image,
                    tagged: bool, dryrun: bool, performerTag: int, studioTag: int,
                    completedImgs: set<Id>, totals: Totals, ghost visited: seq<Visit>, ghost start: seq<Command>)
    returns (completedImgs': set<Id>, totals': Totals)
    requires galSetStudio == GalleryFlags(gallery, tagged, performerTag, studioTag).studio
    requires completedImgs == VisitedImageIds(visited)
    requires totals == Tally(FirstVisits(visited), tagged, performerTag, studioTag)
    requires stash.log == start + ImagesLog(FirstVisits(visited), tagged, dryrun, performerTag, studioTag)
    modifies stash
    ensures completedImgs' == VisitedImageIds(visited + [Visit(gallery, image)])
    ensures totals' == Tally(FirstVisits(visited + [Visit(gallery, image)]), tagged, performerTag, studioTag)
    ensures stash.log == start + ImagesLog(FirstVisits(visited + [Visit(gallery, image)]), tagged, dryrun, performerTag, studioTag)
  {
    ghost var v := Visit(gallery, image);
    RunStep(visited, v, tagged, dryrun, performerTag, studioTag);
    AppendAssoc(start, ImagesLog(FirstVisits(visited), tagged, dryrun, performerTag, studioTag),
                VisitLog(v, tagged, dryrun, performerTag, studioTag));
    completedImgs', totals' := completedImgs, totals;
    if image.id !in completedImgs {
      completedImgs' := completedImgs + {image.id};
      totals' := HandleNewImage(stash, gallery, galSetStudio, image, tagged, dryrun, performerTag, studioTag, totals);
    }
  }

  /** One more visit handled by the loop of `main`. */
  lemma RunStep(vs: seq<Visit>, v: Visit, tagged: bool, dryrun: bool, performerTag: int, studioTag: int)
    ensures FirstVisits(vs + [v]) == if v.image.id in VisitedImageIds(vs) then FirstVisits(vs) else FirstVisits(vs) + [v]
    ensures VisitedImageIds(vs + [v]) == VisitedImageIds(vs) + {v.image.id}
    ensures ImagesLog(FirstVisits(vs) + [v], tagged, dryrun, performerTag, studioTag)
         == ImagesLog(FirstVisits(vs), tagged, dryrun, performerTag, studioTag) + VisitLog(v, tagged, dryrun, performerTag, studioTag)
    ensures Tally(FirstVisits(vs) + [v], tagged, performerTag, studioTag)
         == Count(Tally(FirstVisits(vs), tagged, performerTag, studioTag), ImagePatch(v, tagged, performerTag, studioTag))
  {
    assert (vs + [v])[..|vs|] == vs;
    var f := FirstVisits(vs);
    assert (f + [v])[..|f|] == f;
  }

  /**
   * The gallery loop of `main`: visits the images of each gallery, plans each image
   * once, and writes its tag strip and its update outside dry-run.
   */
  method PlanImages(stash: Stash, galleries: seq<Gallery>, findImages: Id -> seq<Image>,
                    tagged: bool, dryrun: bool, performerTag: int, studioTag: int)
    returns (totals: Totals)
    modifies stash
    ensures stash.log == old(stash.log) + ImagesLog(FirstVisits(Visits(galleries, findImages)), tagged, dryrun, performerTag, studioTag)
    ensures totals == Tally(FirstVisits(Visits(galleries, findImages)), tagged, performerTag, studioTag)
  {
    totals := Totals(0, 0, 0);
    var completedImgs: set<Id> := {};
    ghost var visited: seq<Visit> := [];
    for i := 0 to |galleries|
      invariant visited == Visits(galleries[..i], findImages)
      invariant completedImgs == VisitedImageIds(visited)
      invariant stash.log == old(stash.log) + ImagesLog(FirstVisits(visited), tagged, dryrun, performerTag, studioTag)
      invariant totals == Tally(FirstVisits(visited), tagged, performerTag, studioTag)
    {
      var gallery := galleries[i];
      assert galleries[..i + 1][..i] == galleries[..i];
      var imageList := findImages(gallery.id);
      completedImgs, totals := VisitGallery(stash, gallery, imageList, tagged, dryrun, performerTag, studioTag,
                                            completedImgs, totals, visited, old(stash.log));
      visited := visited + GalleryVisits(gallery, imageList);
    }
    assert galleries[..|galleries|] == galleries;
  }

  /** The body of the gallery loop of `main`: the gallery's studio flag, then each of its images. */
  method VisitGallery(stash: Stash, gallery: Gallery, imageList: seq<Image>,
                      tagged: bool, dryrun: bool, performerTag: int, studioTag: int,
                      completedImgs: set<Id>, totals: Totals, ghost visited: seq<Visit>, ghost start: seq<Command>)
    returns (completedImgs': set<Id>, totals': Totals)
    requires completedImgs == VisitedImageIds(visited)
    requires totals == Tally(FirstVisits(visited), tagged, performerTag, studioTag)
    requires stash.log == start + ImagesLog(FirstVisits(visited), tagged, dryrun, performerTag, studioTag)
    modifies stash
    ensures completedImgs' == VisitedImageIds(visited + GalleryVisits(gallery, imageList))
    ensures totals' == Tally(FirstVisits(visited + GalleryVisits(gallery, imageList)), tagged, performerTag, studioTag)
    ensures stash.log == start + ImagesLog(FirstVisits(visited + GalleryVisits(gallery, imageList)), tagged, dryrun, performerTag, studioTag)
  {
    var galSetStudio := GalleryFlags(gallery, tagged, performerTag, studioTag).studio;
    completedImgs', totals' := completedImgs, totals;
    ghost var seen := visited;
    for j := 0 to |imageList|
      invariant seen == visited + GalleryVisits(gallery, imageList[..j])
      invariant completedImgs' == VisitedImageIds(seen)
      invariant stash.log == start + ImagesLog(FirstVisits(seen), tagged, dryrun, performerTag, studioTag)
      invariant totals' == Tally(FirstVisits(seen), tagged, performerTag, studioTag)
    {
      var image := imageList[j];
      completedImgs', totals' := VisitImage(stash, gallery, galSetStudio, image, tagged, dryrun, performerTag, studioTag,
                                            completedImgs', totals', seen, start);
      GalleryVisitsStep(visited, gallery, imageList, j);
      seen := seen + [Visit(gallery, image)];
    }
    assert imageList[..|imageList|] == imageList;
  }

  /** The visits so far grow by one visit per turn of the image loop. */
  lemma GalleryVisitsStep(visited: seq<Visit>, g: Gallery, images: seq<Image>, j: nat)
    requires j < |images|
    ensures visited + GalleryVisits(g, images[..j + 1]) == (visited + GalleryVisits(g, images[..j])) + [Visit(g, images[j])]
  {
    assert images[..j + 1][..j] == images[..j];
    AppendAssoc(visited, GalleryVisits(g, images[..j]), [Visit(g, images[j])]);
  }

  /** The last loop of `main`: `processTags` on every gallery, stripping its directive tags. */
  method StripGalleryTags(stash: Stash, galleries: seq<Gallery>, performerTag: int, studioTag: int, dryrun: bool)
    modifies stash
    ensures stash.log == old(stash.log) + GalleryTagsLog(galleries, performerTag, studioTag, dryrun)
  {
    for k := 0 to |galleries|
      invariant stash.log == old(stash.log) + GalleryTagsLog(galleries[..k], performerTag, studioTag, dryrun)
    {
      assert galleries[..k + 1][..k] == galleries[..k];
      AppendAssoc(old(stash.log), GalleryTagsLog(galleries[..k], performerTag, studioTag, dryrun),
                  TagWrite(galleries[k].id, galleries[k].tags, performerTag, studioTag, dryrun, true));
      var _ := ProcessTags(stash, galleries[k].id, galleries[k].tags, performerTag, studioTag, dryrun, true);
    }
    assert galleries[..|galleries|] == galleries;
  }

  /**
   * `main`: plans and writes the images of every gallery, and only then strips the
   * galleries' directive tags. The counters do not depend on `dryrun`.
   */
  method Run(stash: Stash, galleries: seq<Gallery>, findImages: Id -> seq<Image>,
             tagged: bool, dryrun: bool, performerTag: int, studioTag: int)
    returns (totals: Totals)
    modifies stash
    ensures stash.log == old(stash.log) + RunLog(galleries, findImages, tagged, dryrun, performerTag, studioTag)
    ensures totals == Tally(FirstVisits(Visits(galleries, findImages)), tagged, performerTag, studioTag)
  {
    AppendAssoc(stash.log, ImagesLog(FirstVisits(Visits(galleries, findImages)), tagged, dryrun, performerTag, studioTag),
                GalleryTagsLog(galleries, performerTag, studioTag, dryrun));
    totals := PlanImages(stash, galleries, findImages, tagged, dryrun, performerTag, studioTag);
    StripGalleryTags(stash, galleries, performerTag, studioTag, dryrun);
  }
}
