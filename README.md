# Stash metadata plugins, modelled in Dafny

This project models the decision logic of three Stash plugins:

- **imageMetadataFromGallery**. `processTags` reads the "Update Performers" and "Update Studio" directive tags off a gallery or image. Outside dry-run it writes the tag list back without them. `setGalleryMetadataFlags` and `setImageMetadataFlags` combine those directives with field emptiness and the tagged mode. `main` then walks every gallery and the images the server returns for it. It plans each image once, unions the performers of the image's qualifying galleries, and updates the image with that union and/or the visited gallery's studio. It counts the planned images, and strips the galleries' directive tags only at the end.
- **imagePerformersFromGallery**. The older, ungated form of the same union: every image listed under a gallery gets the performers of all its galleries, in "update" mode only.
- **performerMerger**. One destination performer (tag "Merge Into Performer") absorbs every source performer (tag "Merge From Performer"). The run:
  - rebuilds the performer references of each source's images, galleries and scenes;
  - folds the sources' fields into the destination's update;
  - destroys the sources;
  - updates the destination last.

The Stash server is a class `Store.Stash` whose ghost `log` records every update and destroy call, in order. Query results are parameters: functions from a gallery id, a tag id or a performer id to the records returned. Directive and merge tag ids are parameters too. A missing directive tag is `-1` (`DirectiveTags.Unset`, which matches no tag). A missing merge tag is `None`. Ids are natural numbers. Every loop of the source is a `method` with a `for` loop. Each is proved against a specification function, and the properties are lemmas about those functions.

Files:

| file | module | contents |
|---|---|---|
| records.dfy | `Records` | the records read from the server |
| store.dfy | `Store` | the `Stash` class and its command log |
| sequences.dfy | `Sequences` | `Dedup`, the "append if not already present" loop, and first-seen order |
| directive_tags.dfy | `DirectiveTags` | `processTags` |
| propagation.dfy | `Propagation` | the flags and `main` of imageMetadataFromGallery |
| propagation_run.dfy | `PropagationRun` | properties of a whole run of that `main` |
| plain_union.dfy | `PlainUnion` | imagePerformersFromGallery |
| consolidation.dfy | `Consolidation` | the merged performer record |
| performer_merge.dfy | `PerformerMerge` | the merge driver and its effects |

## Model

| member | source | states |
|---|---|---|
| Sequences.Dedup | plugins/imagePerformersFromGallery/imagePerformersFromGallery.py:57-65 | the appended list has no duplicates, holds exactly the ids of the input, and is no longer than it |
| Sequences.AppendNew | plugins/imagePerformersFromGallery/imagePerformersFromGallery.py:62-65 | the inner appending loop over one gallery's performers extends the deduplicated list of the ids seen before by that gallery's ids |
| Sequences.DedupFirstSeen | plugins/imagePerformersFromGallery/imagePerformersFromGallery.py:57-65 | the appended list is in first-seen order: an id that first occurs earlier in the input stands earlier in the list |
| DirectiveTags.Directives | plugins/imageMetadataFromGallery/imageMetadataFromGallery.py:258-268 | an unset (-1) directive id never fires; an item without tags yields (false, false); the studio directive never fires on the performer tag's id |
| DirectiveTags.Strip | plugins/imageMetadataFromGallery/imageMetadataFromGallery.py:261-269 | the retained list holds exactly the tag ids other than the two directive ids |
| DirectiveTags.StripAppend | plugins/imageMetadataFromGallery/imageMetadataFromGallery.py:261-269 | stripping is a filter: stripping a concatenation is concatenating the stripped parts, so the original order is kept |
| DirectiveTags.StripUnchanged | plugins/imageMetadataFromGallery/imageMetadataFromGallery.py:261-269 | a list without directive ids is written back unchanged |
| DirectiveTags.StripIdempotent | plugins/imageMetadataFromGallery/imageMetadataFromGallery.py:261-269 | the retained list carries no directive, so `processTags` on it yields (false, false), and stripping it again changes nothing |
| DirectiveTags.ScanTags | plugins/imageMetadataFromGallery/imageMetadataFromGallery.py:255-269 | the performer flag is set iff the performer id is among the tags; the studio flag iff the studio id is and differs from the performer id; the retained list is the stripped list |
| DirectiveTags.TagWrite | plugins/imageMetadataFromGallery/imageMetadataFromGallery.py:252-275 | at most one write, none in dry-run; it goes to the item itself, sets only its tag list, and that list holds neither directive id |
| DirectiveTags.ProcessTags | plugins/imageMetadataFromGallery/imageMetadataFromGallery.py:252-276 | the two flags as above; no write in dry-run or for absent or empty tags; otherwise exactly one write of the retained list, to a gallery if `isGallery` and to an image otherwise |
| PlainUnion.AllPerformersMembers | plugins/imagePerformersFromGallery/imagePerformersFromGallery.py:61-65 | the collected ids are exactly the performers of the image's galleries, with no gating |
| PlainUnion.CollectAllPerformers | plugins/imagePerformersFromGallery/imagePerformersFromGallery.py:57-65 | the nested loops produce the deduplicated, first-seen-order union of every gallery's performers |
| PlainUnion.UnionUpdates | plugins/imagePerformersFromGallery/imagePerformersFromGallery.py:56-68 | one image update per listed image, in listing order, each setting only a duplicate-free performer list |
| PlainUnion.Run | plugins/imagePerformersFromGallery/imagePerformersFromGallery.py:45-68 | `imagetotal` is the total length of the image lists in every mode; no write unless the mode is "update"; in "update" mode one update per listed image, in order, with that image's union |
| Propagation.GalleryFlags | plugins/imageMetadataFromGallery/imageMetadataFromGallery.py:210-232 | each flag is false when the gallery lacks the field; true when it has it and the mode is untagged; otherwise the directive from the gallery's tags |
| Propagation.ImageFlags | plugins/imageMetadataFromGallery/imageMetadataFromGallery.py:237-247 | each flag is true when the image lacks the field, and otherwise the directive from the image's own tags |
| Propagation.SetImageMetadataFlags | plugins/imageMetadataFromGallery/imageMetadataFromGallery.py:237-247 | returns the image flags and writes only the image's tag strip of `processTags` |
| Propagation.QualifyingPerformersMembers | plugins/imageMetadataFromGallery/imageMetadataFromGallery.py:130-137 | the collected ids are exactly the performers of those of the image's galleries whose performer flag holds |
| Propagation.UntaggedUnionIsPlainUnion | plugins/imageMetadataFromGallery/imageMetadataFromGallery.py:130-137 | in untagged mode the gated union is the ungated union of imagePerformersFromGallery |
| Propagation.CollectPerformers | plugins/imageMetadataFromGallery/imageMetadataFromGallery.py:130-137 | the gated union, without duplicates, in first-seen order, holding exactly the qualifying galleries' performers |
| Propagation.ImagePatch | plugins/imageMetadataFromGallery/imageMetadataFromGallery.py:139-149 | the planned update never sends tags, and any studio it sends is the visited gallery's |
| Propagation.ImagePatchSpec | plugins/imageMetadataFromGallery/imageMetadataFromGallery.py:122-149 | the update sets no tags; it has performers iff the image flag holds and some gallery qualifies, and then they are the duplicate-free qualifying union; it has a studio iff both the gallery and the image studio flags hold, and then it is the visited gallery's studio |
| Propagation.PlanUpdate | plugins/imageMetadataFromGallery/imageMetadataFromGallery.py:124-153 | the union loop and the update-building branches compute the planned update, and each counter grows by one exactly when its part of the update is set |
| Propagation.BuildUpdate | plugins/imageMetadataFromGallery/imageMetadataFromGallery.py:139-153 | the update-building branches produce `PatchFrom` of the union and the two flags, and the counters move as `Count` says for that update |
| Propagation.Count | plugins/imageMetadataFromGallery/imageMetadataFromGallery.py:139-153 | each field counter grows by at most one per planned image, and `imagetotal` grows exactly when one of them does |
| Propagation.Tally | plugins/imageMetadataFromGallery/imageMetadataFromGallery.py:139-153 | over a run, `imagetotal` is at least each of the two other counters, at most their sum, and at most the number of planned images |
| Propagation.VisitedImageIdsMembers | plugins/imageMetadataFromGallery/imageMetadataFromGallery.py:117-120 | `completedImgs` holds exactly the ids of the images visited so far |
| Propagation.FirstVisits | plugins/imageMetadataFromGallery/imageMetadataFromGallery.py:117-120 | planning keeps at most one visit per visit made; which visits it keeps, and in what order, is stated by the four lemmas below and by `PropagationRun.PlannedIdsFirstSeen` |
| Propagation.FirstVisitsCoverVisits | plugins/imageMetadataFromGallery/imageMetadataFromGallery.py:117-120 | every visited image id is planned |
| Propagation.FirstVisitsOncePerImage | plugins/imageMetadataFromGallery/imageMetadataFromGallery.py:117-120 | no image id is planned twice, even when several galleries return it |
| Propagation.FirstVisitsAreVisits | plugins/imageMetadataFromGallery/imageMetadataFromGallery.py:117-120 | a planned visit is one of the visits |
| Propagation.FirstVisitsAreFirst | plugins/imageMetadataFromGallery/imageMetadataFromGallery.py:117-120 | the visit planned for an image is its first visit, so the first gallery that returns an image is the one whose studio is written |
| Propagation.HandleNewImage | plugins/imageMetadataFromGallery/imageMetadataFromGallery.py:122-153 | a new image adds its update to the counters and writes its tag strip, then, outside dry-run, its update |
| Propagation.VisitImage | plugins/imageMetadataFromGallery/imageMetadataFromGallery.py:117-153 | one visit keeps `completedImgs`, the counters and the log equal to their specification over the visits so far |
| Propagation.VisitGallery | plugins/imageMetadataFromGallery/imageMetadataFromGallery.py:94-153 | one turn of the gallery loop, over all of the gallery's images, keeps `completedImgs`, the counters and the log equal to their specification over the visits so far |
| Propagation.PlanImages | plugins/imageMetadataFromGallery/imageMetadataFromGallery.py:89-156 | the gallery/image loop writes exactly the planned visits' writes, in order, and its counters are the tally of the planned updates |
| Propagation.StripGalleryTags | plugins/imageMetadataFromGallery/imageMetadataFromGallery.py:158-160 | the final loop writes each gallery's tag strip, in gallery order |
| Propagation.Run | plugins/imageMetadataFromGallery/imageMetadataFromGallery.py:89-160 | `main` writes the planned image writes followed by the gallery tag strips; its counters do not depend on dry-run |
| PropagationRun.ImagesLogWritesImages | plugins/imageMetadataFromGallery/imageMetadataFromGallery.py:122-151 | everything the image loop writes goes to an image |
| PropagationRun.GalleryTagsLogWritesGalleries | plugins/imageMetadataFromGallery/imageMetadataFromGallery.py:158-160 | everything the final loop writes goes to a gallery |
| PropagationRun.GalleryTagsStrippedLast | plugins/imageMetadataFromGallery/imageMetadataFromGallery.py:94-160 | no image write follows a gallery write: gallery tags are stripped only after every image is processed |
| PropagationRun.DryRunWritesNothing | plugins/imageMetadataFromGallery/imageMetadataFromGallery.py:98-99 | in dry-run no update call is issued at all, because the gallery flags are computed with `dryrun=True` and every other write is guarded |
| PropagationRun.ImagesLogPlanned | plugins/imageMetadataFromGallery/imageMetadataFromGallery.py:150-151 | outside dry-run each planned visit issues exactly one performer/studio update (an image update without a tag list), in planning order; the tag strips are not counted |
| PropagationRun.GalleryTagsLogPlanned | plugins/imageMetadataFromGallery/imageMetadataFromGallery.py:158-160 | the gallery tag strips issue no image update |
| PropagationRun.GalleryVisitsMembers | plugins/imageMetadataFromGallery/imageMetadataFromGallery.py:104-109 | the visits of one gallery are exactly its returned images |
| PropagationRun.VisitsMembers | plugins/imageMetadataFromGallery/imageMetadataFromGallery.py:94-109 | the loop visits exactly the images returned for each gallery |
| PropagationRun.RunPlannedIds | plugins/imageMetadataFromGallery/imageMetadataFromGallery.py:109-151 | the image updates of a run are those of its planned visits, in order |
| PropagationRun.PlannedIdsFirstSeen | plugins/imageMetadataFromGallery/imageMetadataFromGallery.py:109-120 | the planned image ids are the visited ids with repeats dropped, kept in the order they were first returned (`Dedup`, whose order `Sequences.DedupFirstSeen` states) |
| PropagationRun.PlannedImageIdsMembers | plugins/imageMetadataFromGallery/imageMetadataFromGallery.py:117-120 | the planned image ids are exactly the ids of the visited images |
| PropagationRun.EachImageUpdatedOnce | plugins/imageMetadataFromGallery/imageMetadataFromGallery.py:109-151 | outside dry-run, each image returned for some gallery gets exactly one performer/studio update, and no other image gets one; an image with tags also gets its tag-strip update, which is not counted here |
| Consolidation.Filled | plugins/performerMerger/performerMerger.py:193-195 | a field is set afterwards iff it was set, or it is one of the keys and the performer has it; a set field keeps its value |
| Consolidation.FillMissing | plugins/performerMerger/performerMerger.py:193-195 | the key loop computes `Filled` |
| Consolidation.InitialUpdate | plugins/performerMerger/performerMerger.py:176-189 | the starting update has the destination's id, name, favorite, aliases and stash ids, its non-null fields among the keys, and its tags other than the two merge tags |
| Consolidation.StartUpdate | plugins/performerMerger/performerMerger.py:176-189 | the destination's key loop and tag loop compute the starting update |
| Consolidation.Absorb | plugins/performerMerger/performerMerger.py:193-206 | one source keeps id and name and OR-s `favorite`; the aliases are the kept string (or else the source's), with `", " + name` appended exactly when the names differ and the name is not already a substring of it |
| Consolidation.AbsorbSource | plugins/performerMerger/performerMerger.py:193-206 | the loops over one source's fields, stash ids and tags compute `Absorb` |
| Consolidation.AbsorbAll | plugins/performerMerger/performerMerger.py:191-206 | folding all sources keeps id and name; there is an alias string iff the start or some source had one; a stash-id list iff the start had one |
| Consolidation.AbsorbAllSnoc | plugins/performerMerger/performerMerger.py:191-206 | folding one more source needs nothing beyond what folding all of them needs |
| Consolidation.FirstSourceValueSnoc | plugins/performerMerger/performerMerger.py:193-195 | the first source with a value for a field is found among the earlier sources, or else it is the next one |
| Consolidation.AbsorbAllAttrs | plugins/performerMerger/performerMerger.py:193-195 | a set field keeps its value; an unset key takes the first source, in order, that has a non-null value; other fields stay unset |
| Consolidation.AbsorbAllFavorite | plugins/performerMerger/performerMerger.py:196-197 | `favorite` is the starting value OR any source's |
| Consolidation.AbsorbAllStashIds | plugins/performerMerger/performerMerger.py:200-202 | `stash_ids` is the starting list followed by each source's list in order, not deduplicated |
| Consolidation.AbsorbAllTags | plugins/performerMerger/performerMerger.py:203-206 | `tag_ids` is the starting list followed by every source tag, none excluded |
| Consolidation.AbsorbAllAliases | plugins/performerMerger/performerMerger.py:198-199 | aliases only grow: the destination's alias string stays a prefix |
| Consolidation.AbsorbAllNames | plugins/performerMerger/performerMerger.py:198-199 | every source name other than the kept name ends up in the aliases |
| Consolidation.SharedNameAddedOnce | plugins/performerMerger/performerMerger.py:198-199 | a source whose name differs from the kept name and was already seen earlier in the fold, at any distance, leaves the aliases unchanged, so a shared name is appended at most once |
| Consolidation.ConsolidatedAttrs | plugins/performerMerger/performerMerger.py:177-195 | each key of the merged record comes from the destination, or else from the first source, in order, that has it; other fields are unset |
| Consolidation.ConsolidatedFields | plugins/performerMerger/performerMerger.py:170-206 | the merged record: destination id and name; each key from the destination or else the first source that has it; `favorite` OR-ed; `stash_ids` concatenated; tags = destination tags without the merge tags, then all source tags; every other source name among the aliases |
| Consolidation.Consolidated | plugins/performerMerger/performerMerger.py:170-206 | the merged record keeps the destination's id and name, and has a stash-id list iff the destination has one |
| PerformerMerge.Resolve | plugins/performerMerger/performerMerger.py:75-89 | the merge proceeds iff both merge tags exist, exactly one performer carries the "into" tag and at least one carries the "from" tag; a wrong destination count is reported with the count |
| PerformerMerge.Rebuilt | plugins/performerMerger/performerMerger.py:112-116 | the rebuilt list ends with the destination id and is at most one longer than the prior references |
| PerformerMerge.RebuiltSpec | plugins/performerMerger/performerMerger.py:112-116 | the rebuilt list is the prior references without repeats, every one kept, followed by the destination id as last element |
| PerformerMerge.RebuiltFirstSeen | plugins/performerMerger/performerMerger.py:112-116 | the prior references keep their first-seen order |
| PerformerMerge.RebuildReferences | plugins/performerMerger/performerMerger.py:112-116 | the appending loop computes `Rebuilt` |
| PerformerMerge.MediaLogEntries | plugins/performerMerger/performerMerger.py:110-123 | outside dry-run a reference loop issues one update per record, in query order, with its rebuilt list |
| PerformerMerge.DestroyLog | plugins/performerMerger/performerMerger.py:207-208 | outside dry-run one destroy per source, in source order; none in dry-run |
| PerformerMerge.RewriteMedia | plugins/performerMerger/performerMerger.py:110-125 | a reference loop writes the updates of `MediaLog` |
| PerformerMerge.RewriteSource | plugins/performerMerger/performerMerger.py:102-165 | one source's references are rewritten for its images, then its galleries, then its scenes |
| PerformerMerge.AbsorbSources | plugins/performerMerger/performerMerger.py:191-211 | the source loop computes the consolidated record and destroys the sources in order (none in dry-run) |
| PerformerMerge.FoldSources | plugins/performerMerger/performerMerger.py:191-211 | from any starting update, the source loop computes the fold of all sources and destroys them in order (none in dry-run) |
| PerformerMerge.FoldSource | plugins/performerMerger/performerMerger.py:191-211 | one turn folds in the next source and destroys it outside dry-run |
| PerformerMerge.Merge | plugins/performerMerger/performerMerger.py:67-216 | a failed check stops the run before any write with that error; otherwise the run writes the reference updates, the destroys and the destination update, in that order, and returns the consolidated record |
| PerformerMerge.MergeLog | plugins/performerMerger/performerMerger.py:95-214 | outside dry-run a merge writes more commands than there are sources, and its last command is the destination update with the consolidated record |
| PerformerMerge.MergeDryRunWritesNothing | plugins/performerMerger/performerMerger.py:207-216 | in dry-run a merge issues no update and no destroy |
| PerformerMerge.MediaLogMembers | plugins/performerMerger/performerMerger.py:110-123 | a reference loop writes exactly the re-pointing updates of the records it is given |
| PerformerMerge.SourceLogMembers | plugins/performerMerger/performerMerger.py:104-165 | the loops for one source write exactly the re-pointing updates of its images, galleries and scenes |
| PerformerMerge.ReferencesLogSound | plugins/performerMerger/performerMerger.py:95-168 | every reference update re-points a record returned for some source |
| PerformerMerge.ReferencesLogComplete | plugins/performerMerger/performerMerger.py:95-168 | outside dry-run every image, gallery and scene returned for a source gets its rebuilt list |
| PerformerMerge.ReferencesLogUpdates | plugins/performerMerger/performerMerger.py:95-168 | the reference loops issue record updates only |
| PerformerMerge.MergeEffectsOrdered | plugins/performerMerger/performerMerger.py:95-214 | no reference update follows a destroy or the destination update, and no destroy follows the destination update |
| PerformerMerge.MergeLogShape | plugins/performerMerger/performerMerger.py:207-214 | outside dry-run the destroys come right after the reference updates, in source order, and the destination update is the last command and is issued once |

## Behaviour as written

Where the code and the plugins' documented intent differ, the model follows the code:

- The reference rebuild (performerMerger.py:112-116) keeps each source id and appends the destination id. It does not replace the one with the other. If the destination is already referenced, its id appears twice (`PerformerMerge.Rebuilt`).
- Source tags are neither filtered nor deduplicated (performerMerger.py:203-206). The comparison there is between a tag record and an id, so it never excludes a tag.
- Outside dry-run, `main` of imageMetadataFromGallery sends `update_image` for every planned image, even when the update sets nothing (lines 150-151). It also rewrites the tag list of every image and gallery that has tags, even without directive tags (lines 270-275).
- The counters of imageMetadataFromGallery are the same in dry-run and in update mode.
- A tag id equal to both directive ids counts for performers only, because the performer test runs first (lines 263-265).
- The merge runs even if the destination also carries the "from" tag. It then counts among the sources and is destroyed.

## Left out

- Reading the plugin input from standard input, `StashInterface`, and the GraphQL fragments: the server is the command log of `Store.Stash`.
- Logging, progress reports and the `log.exit` texts. A merge that stops is an error value (`PerformerMerge.MergeError`).
- The filter dictionaries and their mutation in `setTagFilters` and `main`. Filtering happens on the server. Query results are arbitrary sequences and are not assumed to satisfy the filters.
- The tag-name lookups of both `setTagFilters` functions. The tag ids are parameters.
- Server state between queries. Each query is a function of its argument, fixed for the run. The model does not capture that a later query can see an update made earlier in the same run.
- The image, gallery and scene counters of performerMerger. They never change, because `updated` stays false.
- Ids are natural numbers compared by value. References are plain ids, not `{id}` records, and `int(...)` conversions of ids are not modelled.
- Performer fields outside the merge's `keys` list other than `name`, `favorite`, `stash_ids` and `tags` (for example `image_path`). The merge never sends them, so they are not modelled.
- Consolidation.Absorb: the `"aliases"` entry of the merge's key loop is kept as its own field (`aliases`) rather than in the field map. Its fallback is the same: keep the value if set, else take the source's.
- PerformerMerge.Merge: requires `Mergeable`, which has two parts. First, no alias check may meet a null alias string (performerMerger.py:198). Second, no stash id may be appended to a missing destination list (performerMerger.py:202). The source fails with an exception in those cases, and the model does not cover those runs.
- Consolidation.InitialUpdate: the destination's tag loop (performerMerger.py:186-189) calls `int(tag)` on each tag record `{id}`, which raises a TypeError in Python. The destination is selected by its "Merge Into" tag, so it always has a tag. As written, a run therefore stops at line 188 in every mode, after every reference update and before any destroy or destination update. The model does not capture that stop. It models the evidently intended comparison instead: the destination's tag ids other than the two merge tag ids are kept.
