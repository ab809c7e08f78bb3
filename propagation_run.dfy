/**
 * Properties of a whole run of the gallery/image loop of imageMetadataFromGallery:
 * what it writes in dry-run, the order of its writes, how often each image is
 * updated, and how its counters relate to one another.
 */
module PropagationRun {
  import opened Records
  import opened Store
  import opened Sequences
  import opened DirectiveTags
  import opened Propagation

  predicate IsImageWrite(c: Command) { c.Update? && c.kind == ImageKind }

  predicate IsGalleryWrite(c: Command) { c.Update? && c.kind == GalleryKind }

  /** Everything the image loop writes goes to an image. */
  lemma {:induction false} ImagesLogWritesImages(vs: seq<Visit>, tagged: bool, dryrun: bool, performerTag: int, studioTag: int)
    ensures forall c :: c in ImagesLog(vs, tagged, dryrun, performerTag, studioTag) ==> IsImageWrite(c)
  {
    if vs != [] {
      ImagesLogWritesImages(vs[..|vs| - 1], tagged, dryrun, performerTag, studioTag);
    }
  }

  /** Everything the final loop writes goes to a gallery. */
  lemma {:induction false} GalleryTagsLogWritesGalleries(gs: seq<Gallery>, performerTag: int, studioTag: int, dryrun: bool)
    ensures forall c :: c in GalleryTagsLog(gs, performerTag, studioTag, dryrun) ==> IsGalleryWrite(c)
  {
    if gs != [] {
      GalleryTagsLogWritesGalleries(gs[..|gs| - 1], performerTag, studioTag, dryrun);
    }
  }

  /** Gallery tags are stripped only after every image write: no image write follows a gallery write. */
  lemma GalleryTagsStrippedLast(gs: seq<Gallery>, findImages: Id -> seq<Image>, tagged: bool, dryrun: bool,
                                performerTag: int, studioTag: int)
    ensures var log := RunLog(gs, findImages, tagged, dryrun, performerTag, studioTag);
            forall i, j :: 0 <= i < j < |log| && IsGalleryWrite(log[i]) ==> IsGalleryWrite(log[j])
  {
    var images := ImagesLog(FirstVisits(Visits(gs, findImages)), tagged, dryrun, performerTag, studioTag);
    var galleries := GalleryTagsLog(gs, performerTag, studioTag, dryrun);
    ImagesLogWritesImages(FirstVisits(Visits(gs, findImages)), tagged, dryrun, performerTag, studioTag);
    GalleryTagsLogWritesGalleries(gs, performerTag, studioTag, dryrun);
    var log := images + galleries;
    forall i | 0 <= i < |images|
      ensures !IsGalleryWrite(log[i])
    {
      assert log[i] == images[i];
      assert images[i] in images;
    }
    forall i, j | 0 <= i < j < |log| && IsGalleryWrite(log[i])
      ensures IsGalleryWrite(log[j])
    {
      assert log[j] == galleries[j - |images|];
      assert log[j] in galleries;
    }
  }

  lemma {:induction false} ImagesLogDryRun(vs: seq<Visit>, tagged: bool, performerTag: int, studioTag: int)
    ensures ImagesLog(vs, tagged, true, performerTag, studioTag) == []
  {
    if vs != [] {
      ImagesLogDryRun(vs[..|vs| - 1], tagged, performerTag, studioTag);
    }
  }

  lemma {:induction false} GalleryTagsLogDryRun(gs: seq<Gallery>, performerTag: int, studioTag: int)
    ensures GalleryTagsLog(gs, performerTag, studioTag, true) == []
  {
    if gs != [] {
      GalleryTagsLogDryRun(gs[..|gs| - 1], performerTag, studioTag);
    }
  }

  /** In dry-run no update call is issued at all. */
  lemma DryRunWritesNothing(gs: seq<Gallery>, findImages: Id -> seq<Image>, tagged: bool, performerTag: int, studioTag: int)
    ensures RunLog(gs, findImages, tagged, true, performerTag, studioTag) == []
  {
    ImagesLogDryRun(FirstVisits(Visits(gs, findImages)), tagged, performerTag, studioTag);
    GalleryTagsLogDryRun(gs, performerTag, studioTag);
  }

  /** The ids of the image updates that set performers or a studio (those that carry no tag list), in order. */
  function PlannedIds(log: seq<Command>): seq<Id>
  {
    if log == [] then []
    else
      var c := log[|log| - 1];
      PlannedIds(log[..|log| - 1]) + (if IsImageWrite(c) && c.patch.tagIds.None? then [c.id] else [])
  }

  lemma {:induction false} PlannedIdsAppend(a: seq<Command>, b: seq<Command>)
    ensures PlannedIds(a + b) == PlannedIds(a) + PlannedIds(b)
  {
    if b != [] {
      var front := b[..|b| - 1];
      PlannedIdsAppend(a, front);
      assert (a + b)[..|a + b| - 1] == a + front;
      var c := b[|b| - 1];
      assert (a + b)[|a + b| - 1] == c;
      AppendAssoc(PlannedIds(a), PlannedIds(front), if IsImageWrite(c) && c.patch.tagIds.None? then [c.id] else []);
    } else {
      assert a + b == a;
    }
  }

  /** The image ids of a sequence of visits. */
  function ImageIds(vs: seq<Visit>): (r: seq<Id>)
    ensures |r| == |vs|
    ensures forall k :: 0 <= k < |vs| ==> r[k] == vs[k].image.id
  {
    if vs == [] then [] else ImageIds(vs[..|vs| - 1]) + [vs[|vs| - 1].image.id]
  }

  /** Outside dry-run, each planned visit issues exactly one image update, in order. */
  lemma {:induction false} ImagesLogPlanned(vs: seq<Visit>, tagged: bool, performerTag: int, studioTag: int)
    ensures PlannedIds(ImagesLog(vs, tagged, false, performerTag, studioTag)) == ImageIds(vs)
  {
    if vs != [] {
      var front, v := vs[..|vs| - 1], vs[|vs| - 1];
      ImagesLogPlanned(front, tagged, performerTag, studioTag);
      var strip := TagWrite(v.image.id, v.image.tags, performerTag, studioTag, false, false);
      var update := Update(ImageKind, v.image.id, ImagePatch(v, tagged, performerTag, studioTag));
      PlannedIdsAppend(ImagesLog(front, tagged, false, performerTag, studioTag), strip + [update]);
      PlannedIdsAppend(strip, [update]);
      assert PlannedIds(strip) == [] by {
        if strip != [] {
          assert strip[..0] == [];
        }
      }
      assert PlannedIds([update]) == [v.image.id] by {
        assert [update][..0] == [];
      }
    }
  }

  lemma {:induction false} GalleryTagsLogPlanned(gs: seq<Gallery>, performerTag: int, studioTag: int, dryrun: bool)
    ensures PlannedIds(GalleryTagsLog(gs, performerTag, studioTag, dryrun)) == []
  {
    if gs != [] {
      var front, g := gs[..|gs| - 1], gs[|gs| - 1];
      GalleryTagsLogPlanned(front, performerTag, studioTag, dryrun);
      var strip := TagWrite(g.id, g.tags, performerTag, studioTag, dryrun, true);
      PlannedIdsAppend(GalleryTagsLog(front, performerTag, studioTag, dryrun), strip);
      if strip != [] {
        assert strip[..0] == [];
      }
    }
  }

  lemma {:induction false} GalleryVisitsMembers(g: Gallery, images: seq<Image>)
    ensures forall v :: v in GalleryVisits(g, images) <==> v.gallery == g && v.image in images
  {
    if images != [] {
      var front := images[..|images| - 1];
      GalleryVisitsMembers(g, front);
      assert images == front + [images[|images| - 1]];
    }
  }

  /** The loop visits exactly the images the query returns for each gallery. */
  lemma {:induction false} VisitsMembers(gs: seq<Gallery>, findImages: Id -> seq<Image>)
    ensures forall v :: v in Visits(gs, findImages) <==>
              exists i :: 0 <= i < |gs| && v.gallery == gs[i] && v.image in findImages(gs[i].id)
  {
    if gs != [] {
      var front, g := gs[..|gs| - 1], gs[|gs| - 1];
      VisitsMembers(front, findImages);
      GalleryVisitsMembers(g, findImages(g.id));
      assert Visits(gs, findImages) == Visits(front, findImages) + GalleryVisits(g, findImages(g.id));
      forall v | v in Visits(gs, findImages)
        ensures exists i :: 0 <= i < |gs| && v.gallery == gs[i] && v.image in findImages(gs[i].id)
      {
        if v in Visits(front, findImages) {
          var i :| 0 <= i < |front| && v.gallery == front[i] && v.image in findImages(front[i].id);
          assert gs[i] == front[i];
        } else {
          assert v.gallery == gs[|gs| - 1];
        }
      }
      forall v: Visit | exists i :: 0 <= i < |gs| && v.gallery == gs[i] && v.image in findImages(gs[i].id)
        ensures v in Visits(gs, findImages)
      {
        var i :| 0 <= i < |gs| && v.gallery == gs[i] && v.image in findImages(gs[i].id);
        if i < |front| {
          assert front[i] == gs[i];
        }
      }
    }
  }

  /** Outside dry-run, the image updates of a run are those of its planned visits, in order. */
  lemma RunPlannedIds(gs: seq<Gallery>, findImages: Id -> seq<Image>, tagged: bool, performerTag: int, studioTag: int)
    ensures PlannedIds(RunLog(gs, findImages, tagged, false, performerTag, studioTag)) == ImageIds(FirstVisits(Visits(gs, findImages)))
  {
    var f := FirstVisits(Visits(gs, findImages));
    PlannedIdsAppend(ImagesLog(f, tagged, false, performerTag, studioTag), GalleryTagsLog(gs, performerTag, studioTag, false));
    ImagesLogPlanned(f, tagged, performerTag, studioTag);
    GalleryTagsLogPlanned(gs, performerTag, studioTag, false);
  }

  /** The planned image ids are exactly the ids of the visited images. */
  lemma PlannedImageIdsMembers(vs: seq<Visit>)
    ensures forall id :: id in ImageIds(FirstVisits(vs)) <==> exists v :: v in vs && v.image.id == id
  {
    var f := FirstVisits(vs);
    FirstVisitsCoverVisits(vs);
    VisitedImageIdsMembers(f);
    VisitedImageIdsMembers(vs);
    forall id | id in ImageIds(f)
      ensures exists v :: v in vs && v.image.id == id
    {
      var k :| 0 <= k < |f| && ImageIds(f)[k] == id;
      assert id in VisitedImageIds(f);
      var m :| 0 <= m < |vs| && vs[m].image.id == id;
      assert vs[m] in vs;
    }
    forall id | exists v :: v in vs && v.image.id == id
      ensures id in ImageIds(f)
    {
      var v :| v in vs && v.image.id == id;
      var m :| 0 <= m < |vs| && vs[m] == v;
      assert id in VisitedImageIds(vs);
      var k :| 0 <= k < |f| && f[k].image.id == id;
      assert ImageIds(f)[k] == id;
    }
  }

  /**
   * The planned ids are the visited ids with repeats dropped, in the order they were
   * first returned, as `DedupFirstSeen` states of `Dedup`.
   */
  lemma {:induction false} PlannedIdsFirstSeen(vs: seq<Visit>)
    ensures ImageIds(FirstVisits(vs)) == Dedup(ImageIds(vs))
  {
    if vs != [] {
      var front, v := vs[..|vs| - 1], vs[|vs| - 1];
      PlannedIdsFirstSeen(front);
      var f := FirstVisits(front);
      assert ImageIds(vs) == ImageIds(front) + [v.image.id];
      DedupSnoc(ImageIds(front), v.image.id);
      VisitedImageIdsMembers(front);
      assert v.image.id in Dedup(ImageIds(front)) <==> v.image.id in VisitedImageIds(front);
      if v.image.id !in VisitedImageIds(front) {
        assert (f + [v])[..|f|] == f;
        assert ImageIds(f + [v]) == ImageIds(f) + [v.image.id];
      }
    } else {
      assert FirstVisits(vs) == [];
    }
  }

  /**
   * Outside dry-run, a run updates each image returned for some gallery exactly
   * once, even when several galleries return it.
   */
  lemma EachImageUpdatedOnce(gs: seq<Gallery>, findImages: Id -> seq<Image>, tagged: bool, performerTag: int, studioTag: int)
    ensures NoDup(PlannedIds(RunLog(gs, findImages, tagged, false, performerTag, studioTag)))
    ensures forall id :: id in PlannedIds(RunLog(gs, findImages, tagged, false, performerTag, studioTag)) <==>
              exists i, img :: 0 <= i < |gs| && img in findImages(gs[i].id) && img.id == id
  {
    var vs := Visits(gs, findImages);
    RunPlannedIds(gs, findImages, tagged, performerTag, studioTag);
    FirstVisitsOncePerImage(vs);
    PlannedImageIdsMembers(vs);
    VisitsMembers(gs, findImages);
    var ids := PlannedIds(RunLog(gs, findImages, tagged, false, performerTag, studioTag));
    forall id | id in ids
      ensures exists i, img :: 0 <= i < |gs| && img in findImages(gs[i].id) && img.id == id
    {
      var v :| v in vs && v.image.id == id;
      var i :| 0 <= i < |gs| && v.gallery == gs[i] && v.image in findImages(gs[i].id);
    }
    forall i, img | 0 <= i < |gs| && img in findImages(gs[i].id)
      ensures img.id in ids
    {
      assert Visit(gs[i], img) in vs;
    }
  }

}
