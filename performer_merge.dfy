/**
 * The performer-merge plugin (performerMerger): one destination performer (tagged
 * "Merge Into Performer") absorbs every source performer (tagged "Merge From
 * Performer"). The references of the sources' images, galleries and scenes are
 * rebuilt first, then the sources are destroyed, then the destination is updated.
 */
module PerformerMerge {
  import opened Records
  import opened Store
  import opened Sequences
  import opened Consolidation

  /** Why a merge stops before any write. */
  datatype MergeError =
    | MissingMergeFromTag
    | MissingMergeIntoTag
    | NotExactlyOneDestination(found: nat)
    | NoSourcePerformers

  /** The merge tags and the performers they select. */
  datatype MergePlan = MergePlan(fromTag: Id, intoTag: Id, destination: Performer, sources: seq<Performer>)

  /**
   * The checks of `setTagFilters` and at the start of `main`: both merge tags exist,
   * exactly one performer carries the "into" tag, and at least one the "from" tag.
   */
  function Resolve(fromTag: Option<Id>, intoTag: Option<Id>, findPerformers: Id -> seq<Performer>): (r: Result<MergePlan, MergeError>)
    ensures r.Success? <==>
              fromTag.Some? && intoTag.Some? &&
              |findPerformers(intoTag.value)| == 1 && |findPerformers(fromTag.value)| > 0
    ensures r.Success? ==>
              r.value.fromTag == fromTag.value && r.value.intoTag == intoTag.value &&
              r.value.destination in findPerformers(intoTag.value) &&
              r.value.sources == findPerformers(fromTag.value)
    ensures r.Failure? && intoTag.Some? && fromTag.Some? && |findPerformers(intoTag.value)| != 1 ==>
              r.error == NotExactlyOneDestination(|findPerformers(intoTag.value)|)
  {
    if fromTag.None? then Failure(MissingMergeFromTag)
    else if intoTag.None? then Failure(MissingMergeIntoTag)
    else
      var destination := findPerformers(intoTag.value);
      if |destination| != 1 then Failure(NotExactlyOneDestination(|destination|))
      else
        var sources := findPerformers(fromTag.value);
        if |sources| == 0 then Failure(NoSourcePerformers)
        else Success(MergePlan(fromTag.value, intoTag.value, destination[0], sources))
  }

  /**
   * The rebuilt reference list of an image, gallery or scene: its prior references
   * without repeats, then the destination id. The source id is kept.
   */
  function Rebuilt(refs: seq<Id>, destinationId: Id): (r: seq<Id>)
    ensures 0 < |r| <= |refs| + 1 && r[|r| - 1] == destinationId
  {
    Dedup(refs) + [destinationId]
  }

  /**
   * The rebuilt list ends with the destination id; before it stand the prior
   * references, each once.
   */
  lemma RebuiltSpec(refs: seq<Id>, destinationId: Id)
    ensures var r := Rebuilt(refs, destinationId);
            && |r| > 0 && r[|r| - 1] == destinationId
            && NoDup(r[..|r| - 1])
            && (forall x :: x in r <==> x in refs || x == destinationId)
            && (forall x :: x in r[..|r| - 1] <==> x in refs)
  {
    var d := Dedup(refs);
    assert (d + [destinationId])[..|d|] == d;
  }

  /** The prior references keep their first-seen order. */
  lemma RebuiltFirstSeen(refs: seq<Id>, destinationId: Id)
    ensures var r := Rebuilt(refs, destinationId);
            forall i, j :: 0 <= i < j < |r| - 1 ==> FirstIndex(refs, r[i]) < FirstIndex(refs, r[j])
  {
    var d := Dedup(refs);
    DedupFirstSeen(refs);
    var r := Rebuilt(refs, destinationId);
    assert forall i :: 0 <= i < |r| - 1 ==> r[i] == d[i];
  }

  /** The `if id not in performers: performers.append(id)` loop over one record's references. */
  method RebuildReferences(refs: seq<Id>, destinationId: Id) returns (performers: seq<Id>)
    ensures performers == Rebuilt(refs, destinationId)
  {
    performers := [];
    for i := 0 to |refs|
      invariant performers == Dedup(refs[..i])
    {
      var id := refs[i];
      assert refs[..i + 1] == refs[..i] + [id];
      DedupSnoc(refs[..i], id);
      if id !in performers {
        performers := performers + [id];
      }
    }
    assert refs[..|refs|] == refs;
    performers := performers + [destinationId];
  }

  /** The update that re-points one record. */
  function ReferenceUpdate(kind: Kind, m: Media, destinationId: Id): Command
  {
    Update(kind, m.id, Patch(None, Some(Rebuilt(m.performers, destinationId)), None))
  }

  /** What one reference loop writes for the records of one kind. */
  function MediaLog(kind: Kind, ms: seq<Media>, destinationId: Id, dryrun: bool): (r: seq<Command>)
    ensures dryrun ==> r == []
    ensures !dryrun ==> |r| == |ms|
  {
    if ms == [] || dryrun then []
    else MediaLog(kind, ms[..|ms| - 1], destinationId, dryrun) + [ReferenceUpdate(kind, ms[|ms| - 1], destinationId)]
  }

  /** Outside dry-run, the reference loop issues one update per record, in query order. */
  lemma {:induction false} MediaLogEntries(kind: Kind, ms: seq<Media>, destinationId: Id)
    ensures forall k :: 0 <= k < |ms| ==> MediaLog(kind, ms, destinationId, false)[k] == ReferenceUpdate(kind, ms[k], destinationId)
  {
    if ms != [] {
      var front := ms[..|ms| - 1];
      MediaLogEntries(kind, front, destinationId);
      var l := MediaLog(kind, front, destinationId, false);
      var r := l + [ReferenceUpdate(kind, ms[|ms| - 1], destinationId)];
      assert MediaLog(kind, ms, destinationId, false) == r;
      forall k | 0 <= k < |ms|
        ensures r[k] == ReferenceUpdate(kind, ms[k], destinationId)
      {
        if k < |front| {
          assert r[k] == l[k] && ms[k] == front[k];
        }
      }
    }
  }

  /** The records of each kind that the queries return for a performer. */
  type MediaQuery = (Kind, Id) -> seq<Media>

  /** What the reference loops write for one source: its images, then its galleries, then its scenes. */
  function SourceLog(p: Performer, findMedia: MediaQuery, destinationId: Id, dryrun: bool): seq<Command>
  {
    MediaLog(ImageKind, findMedia(ImageKind, p.id), destinationId, dryrun)
      + MediaLog(GalleryKind, findMedia(GalleryKind, p.id), destinationId, dryrun)
      + MediaLog(SceneKind, findMedia(SceneKind, p.id), destinationId, dryrun)
  }

  /** The reference-rewriting loop over the sources. */
  function ReferencesLog(ps: seq<Performer>, findMedia: MediaQuery, destinationId: Id, dryrun: bool): seq<Command>
  {
    if ps == [] then []
    else ReferencesLog(ps[..|ps| - 1], findMedia, destinationId, dryrun) + SourceLog(ps[|ps| - 1], findMedia, destinationId, dryrun)
  }

  /** The `destroy_performer` calls of the source loop, in source order. */
  function DestroyLog(ps: seq<Performer>, dryrun: bool): (r: seq<Command>)
    ensures dryrun ==> r == []
    ensures !dryrun ==> |r| == |ps| && forall k :: 0 <= k < |ps| ==> r[k] == DestroyPerformer(ps[k].id)
  {
    if ps == [] || dryrun then []
    else DestroyLog(ps[..|ps| - 1], dryrun) + [DestroyPerformer(ps[|ps| - 1].id)]
  }

  /** The sources can be folded into the destination without a failing alias check or stash-id append. */
  predicate Mergeable(plan: MergePlan)
  {
    CanAbsorbAll(InitialUpdate(plan.destination, plan.fromTag, plan.intoTag), plan.sources)
  }

  /** The destination update a merge computes. */
  function Outcome(plan: MergePlan): PerformerUpdate
    requires Mergeable(plan)
  {
    Consolidated(plan.destination, plan.sources, plan.fromTag, plan.intoTag)
  }

  /** Everything a merge writes, in order. */
  function MergeLog(plan: MergePlan, findMedia: MediaQuery, dryrun: bool): (r: seq<Command>)
    requires Mergeable(plan)
    ensures !dryrun ==> |r| > |plan.sources| && r[|r| - 1] == UpdatePerformer(Outcome(plan))
  {
    ReferencesLog(plan.sources, findMedia, plan.destination.id, dryrun)
      + DestroyLog(plan.sources, dryrun)
      + (if dryrun then [] else [UpdatePerformer(Outcome(plan))])
  }

  /** One reference loop: over the source's images, galleries or scenes. */
  method RewriteMedia(stash: Stash, kind: Kind, ms: seq<Media>, destinationId: Id, dryrun: bool)
    modifies stash
    ensures stash.log == old(stash.log) + MediaLog(kind, ms, destinationId, dryrun)
  {
    for i := 0 to |ms|
      invariant stash.log == old(stash.log) + MediaLog(kind, ms[..i], destinationId, dryrun)
    {
      var m := ms[i];
      assert ms[..i + 1][..i] == ms[..i];
      var performers := RebuildReferences(m.performers, destinationId);
      var patch := Patch(None, Some(performers), None);
      if !dryrun {
        if kind == ImageKind {
          stash.UpdateImage(m.id, patch);
        } else if kind == GalleryKind {
          stash.UpdateGallery(m.id, patch);
        } else {
          stash.UpdateScene(m.id, patch);
        }
        AppendAssoc(old(stash.log), MediaLog(kind, ms[..i], destinationId, dryrun), [ReferenceUpdate(kind, m, destinationId)]);
      }
    }
    assert ms[..|ms|] == ms;
  }

  /** The body of the reference-rewriting loop for one source. */
  method RewriteSource(stash: Stash, p: Performer, findMedia: MediaQuery, destinationId: Id, dryrun: bool)
    modifies stash
    ensures stash.log == old(stash.log) + SourceLog(p, findMedia, destinationId, dryrun)
  {
    var imageList := findMedia(ImageKind, p.id);
    var sceneList := findMedia(SceneKind, p.id);
    var galleryList := findMedia(GalleryKind, p.id);
    ghost var images := MediaLog(ImageKind, imageList, destinationId, dryrun);
    ghost var galleries := MediaLog(GalleryKind, galleryList, destinationId, dryrun);
    ghost var scenes := MediaLog(SceneKind, sceneList, destinationId, dryrun);
    RewriteMedia(stash, ImageKind, imageList, destinationId, dryrun);
    RewriteMedia(stash, GalleryKind, galleryList, destinationId, dryrun);
    AppendAssoc(old(stash.log), images, galleries);
    RewriteMedia(stash, SceneKind, sceneList, destinationId, dryrun);
    AppendAssoc(old(stash.log), images + galleries, scenes);
  }

  /** The `for performer in source` loop: fold each source in and destroy it. */
  method AbsorbSources(stash: Stash, plan: MergePlan, dryrun: bool) returns (u: PerformerUpdate)
    requires Mergeable(plan)
    modifies stash
    ensures u == Outcome(plan)
    ensures stash.log == old(stash.log) + DestroyLog(plan.sources, dryrun)
  {
    u := StartUpdate(plan.destination, plan.fromTag, plan.intoTag);
    u := FoldSources(stash, u, plan.sources, dryrun);
  }

  /** The body of the source loop, from a given starting update. */
  method FoldSources(stash: Stash, u0: PerformerUpdate, sources: seq<Performer>, dryrun: bool)
    returns (u: PerformerUpdate)
    requires CanAbsorbAll(u0, sources)
    modifies stash
    ensures u == AbsorbAll(u0, sources)
    ensures stash.log == old(stash.log) + DestroyLog(sources, dryrun)
  {
    u := u0;
    for i := 0 to |sources|
      invariant CanAbsorbAll(u0, sources[..i]) && u == AbsorbAll(u0, sources[..i])
      invariant stash.log == old(stash.log) + DestroyLog(sources[..i], dryrun)
    {
      DestroyLogSnoc(sources, i, dryrun);
      AppendAssoc(old(stash.log), DestroyLog(sources[..i], dryrun),
                  if dryrun then [] else [DestroyPerformer(sources[i].id)]);
      u := FoldSource(stash, u0, sources, i, u, dryrun);
    }
    assert sources[..|sources|] == sources;
  }

  /** One turn of the source loop: fold in source `i`, then destroy it. */
  method FoldSource(stash: Stash, u0: PerformerUpdate, sources: seq<Performer>, i: nat,
                    u: PerformerUpdate, dryrun: bool)
    returns (u': PerformerUpdate)
    requires CanAbsorbAll(u0, sources) && i < |sources|
    requires CanAbsorbAll(u0, sources[..i]) && u == AbsorbAll(u0, sources[..i])
    modifies stash
    ensures CanAbsorbAll(u0, sources[..i + 1]) && u' == AbsorbAll(u0, sources[..i + 1])
    ensures stash.log == old(stash.log) + (if dryrun then [] else [DestroyPerformer(sources[i].id)])
  {
    AbsorbStep(u0, sources, i);
    u' := AbsorbSource(u, sources[i]);
    if !dryrun {
      stash.DestroyPerformer(sources[i].id);
    }
  }

  /** The destroys grow by the next source, outside dry-run. */
  lemma DestroyLogSnoc(sources: seq<Performer>, i: nat, dryrun: bool)
    requires i < |sources|
    ensures DestroyLog(sources[..i + 1], dryrun)
            == DestroyLog(sources[..i], dryrun) + (if dryrun then [] else [DestroyPerformer(sources[i].id)])
  {
    assert sources[..i + 1][..i] == sources[..i];
  }

  /**
   * `main`: stops with an error before any write when a check fails; otherwise
   * rebuilds every source's references, destroys the sources and updates the
   * destination, or, in dry-run, computes the update and writes nothing.
   */
  method Merge(stash: Stash, fromTag: Option<Id>, intoTag: Option<Id>, findPerformers: Id -> seq<Performer>,
               findMedia: MediaQuery, dryrun: bool)
    returns (outcome: Result<PerformerUpdate, MergeError>)
    requires Resolve(fromTag, intoTag, findPerformers).Success? ==> Mergeable(Resolve(fromTag, intoTag, findPerformers).value)
    modifies stash
    ensures outcome.Failure? <==> Resolve(fromTag, intoTag, findPerformers).Failure?
    ensures outcome.Failure? ==>
              outcome.error == Resolve(fromTag, intoTag, findPerformers).error && stash.log == old(stash.log)
    ensures outcome.Success? ==>
              var plan := Resolve(fromTag, intoTag, findPerformers).value;
              outcome.value == Outcome(plan) && stash.log == old(stash.log) + MergeLog(plan, findMedia, dryrun)
  {
    var resolved := Resolve(fromTag, intoTag, findPerformers);
    if resolved.Failure? {
      return Failure(resolved.error);
    }
    var plan := resolved.value;
    var destinationId := plan.destination.id;
    var sources := plan.sources;
    for i := 0 to |sources|
      invariant stash.log == old(stash.log) + ReferencesLog(sources[..i], findMedia, destinationId, dryrun)
    {
      assert sources[..i + 1][..i] == sources[..i];
      RewriteSource(stash, sources[i], findMedia, destinationId, dryrun);
      AppendAssoc(old(stash.log), ReferencesLog(sources[..i], findMedia, destinationId, dryrun),
                  SourceLog(sources[i], findMedia, destinationId, dryrun));
    }
    assert sources[..|sources|] == sources;
    ghost var references := ReferencesLog(sources, findMedia, destinationId, dryrun);
    var u := AbsorbSources(stash, plan, dryrun);
    AppendAssoc(old(stash.log), references, DestroyLog(sources, dryrun));
    if !dryrun {
      stash.UpdatePerformer(u);
      AppendAssoc(old(stash.log), references + DestroyLog(sources, dryrun), [UpdatePerformer(u)]);
    } else {
      assert references + DestroyLog(sources, dryrun) + [] == references + DestroyLog(sources, dryrun);
    }
    outcome := Success(u);
  }

  /** The rank of a command in the merge's order: reference updates, then destroys, then the destination update. */
  function Stage(c: Command): nat
  {
    match c
    case Update(_, _, _) => 0
    case DestroyPerformer(_) => 1
    case UpdatePerformer(_) => 2
  }

  lemma {:induction false} ReferencesLogDryRun(ps: seq<Performer>, findMedia: MediaQuery, destinationId: Id)
    ensures ReferencesLog(ps, findMedia, destinationId, true) == []
  {
    if ps != [] {
      ReferencesLogDryRun(ps[..|ps| - 1], findMedia, destinationId);
    }
  }

  /** In dry-run a merge issues no update and no destroy. */
  lemma MergeDryRunWritesNothing(plan: MergePlan, findMedia: MediaQuery)
    requires Mergeable(plan)
    ensures MergeLog(plan, findMedia, true) == []
  {
    ReferencesLogDryRun(plan.sources, findMedia, plan.destination.id);
  }

  /** A reference loop writes exactly the re-pointing updates of the records it is given. */
  lemma {:induction false} MediaLogMembers(kind: Kind, ms: seq<Media>, destinationId: Id, dryrun: bool)
    ensures forall c :: c in MediaLog(kind, ms, destinationId, dryrun) ==>
              exists m :: m in ms && c == ReferenceUpdate(kind, m, destinationId)
    ensures !dryrun ==> forall m :: m in ms ==> ReferenceUpdate(kind, m, destinationId) in MediaLog(kind, ms, destinationId, dryrun)
  {
    if ms != [] && !dryrun {
      var front := ms[..|ms| - 1];
      MediaLogMembers(kind, front, destinationId, dryrun);
      assert ms == front + [ms[|ms| - 1]];
    }
  }

  /** The reference loops for one source write the re-pointing updates of its images, galleries and scenes. */
  lemma SourceLogMembers(p: Performer, findMedia: MediaQuery, destinationId: Id, dryrun: bool)
    ensures forall c :: c in SourceLog(p, findMedia, destinationId, dryrun) ==>
              exists kind, m :: m in findMedia(kind, p.id) && c == ReferenceUpdate(kind, m, destinationId)
    ensures !dryrun ==> forall kind, m :: m in findMedia(kind, p.id) ==>
              ReferenceUpdate(kind, m, destinationId) in SourceLog(p, findMedia, destinationId, dryrun)
  {
    MediaLogMembers(ImageKind, findMedia(ImageKind, p.id), destinationId, dryrun);
    MediaLogMembers(GalleryKind, findMedia(GalleryKind, p.id), destinationId, dryrun);
    MediaLogMembers(SceneKind, findMedia(SceneKind, p.id), destinationId, dryrun);
    forall kind, m | !dryrun && m in findMedia(kind, p.id)
      ensures ReferenceUpdate(kind, m, destinationId) in SourceLog(p, findMedia, destinationId, dryrun)
    {
      match kind
      case ImageKind =>
      case GalleryKind =>
      case SceneKind =>
    }
  }

  /** What the reference loops write is an update of a record returned for some source, re-pointed to the destination. */
  lemma {:induction false} ReferencesLogSound(ps: seq<Performer>, findMedia: MediaQuery, destinationId: Id, dryrun: bool)
    ensures forall c :: c in ReferencesLog(ps, findMedia, destinationId, dryrun) ==>
              exists i, kind, m :: 0 <= i < |ps| && m in findMedia(kind, ps[i].id) && c == ReferenceUpdate(kind, m, destinationId)
  {
    if ps != [] {
      var front, p := ps[..|ps| - 1], ps[|ps| - 1];
      ReferencesLogSound(front, findMedia, destinationId, dryrun);
      SourceLogMembers(p, findMedia, destinationId, dryrun);
      forall c | c in ReferencesLog(ps, findMedia, destinationId, dryrun)
        ensures exists i, kind, m :: 0 <= i < |ps| && m in findMedia(kind, ps[i].id) && c == ReferenceUpdate(kind, m, destinationId)
      {
        if c in ReferencesLog(front, findMedia, destinationId, dryrun) {
          var i, kind, m :| 0 <= i < |front| && m in findMedia(kind, front[i].id) && c == ReferenceUpdate(kind, m, destinationId);
          assert ps[i] == front[i];
        } else {
          var kind, m :| m in findMedia(kind, p.id) && c == ReferenceUpdate(kind, m, destinationId);
          assert ps[|ps| - 1] == p;
        }
      }
    }
  }

  /** Outside dry-run, every image, gallery and scene returned for a source gets its rebuilt reference list. */
  lemma {:induction false} ReferencesLogComplete(ps: seq<Performer>, findMedia: MediaQuery, destinationId: Id)
    ensures forall i, kind, m :: 0 <= i < |ps| && m in findMedia(kind, ps[i].id) ==>
              ReferenceUpdate(kind, m, destinationId) in ReferencesLog(ps, findMedia, destinationId, false)
  {
    if ps != [] {
      var front, p := ps[..|ps| - 1], ps[|ps| - 1];
      ReferencesLogComplete(front, findMedia, destinationId);
      SourceLogMembers(p, findMedia, destinationId, false);
      forall i, kind, m | 0 <= i < |ps| && m in findMedia(kind, ps[i].id)
        ensures ReferenceUpdate(kind, m, destinationId) in ReferencesLog(ps, findMedia, destinationId, false)
      {
        if i < |front| {
          assert front[i] == ps[i];
        }
      }
    }
  }

  lemma {:induction false} MediaLogUpdates(kind: Kind, ms: seq<Media>, destinationId: Id, dryrun: bool)
    ensures forall c :: c in MediaLog(kind, ms, destinationId, dryrun) ==> c.Update?
  {
    if ms != [] && !dryrun {
      MediaLogUpdates(kind, ms[..|ms| - 1], destinationId, dryrun);
    }
  }

  /** The reference loops issue only record updates. */
  lemma {:induction false} ReferencesLogUpdates(ps: seq<Performer>, findMedia: MediaQuery, destinationId: Id, dryrun: bool)
    ensures forall c :: c in ReferencesLog(ps, findMedia, destinationId, dryrun) ==> c.Update?
  {
    if ps != [] {
      var p := ps[|ps| - 1];
      ReferencesLogUpdates(ps[..|ps| - 1], findMedia, destinationId, dryrun);
      MediaLogUpdates(ImageKind, findMedia(ImageKind, p.id), destinationId, dryrun);
      MediaLogUpdates(GalleryKind, findMedia(GalleryKind, p.id), destinationId, dryrun);
      MediaLogUpdates(SceneKind, findMedia(SceneKind, p.id), destinationId, dryrun);
    }
  }

  /** Three batches of stages 0, 1 and 2, one after the other, are in stage order. */
  lemma StagesInOrder(refs: seq<Command>, destroys: seq<Command>, last: seq<Command>)
    requires forall c :: c in refs ==> Stage(c) == 0
    requires forall c :: c in destroys ==> Stage(c) == 1
    requires forall c :: c in last ==> Stage(c) == 2
    ensures var log := refs + destroys + last;
            forall i, j :: 0 <= i < j < |log| ==> Stage(log[i]) <= Stage(log[j])
  {
    var log := refs + destroys + last;
    forall k | 0 <= k < |log|
      ensures Stage(log[k]) == if k < |refs| then 0 else if k < |refs| + |destroys| then 1 else 2
    {
      if k < |refs| {
        assert log[k] == refs[k];
        assert refs[k] in refs;
      } else if k < |refs| + |destroys| {
        assert log[k] == destroys[k - |refs|];
        assert destroys[k - |refs|] in destroys;
      } else {
        assert log[k] == last[k - |refs| - |destroys|];
        assert last[k - |refs| - |destroys|] in last;
      }
    }
  }

  /**
   * The order of a merge's effects: no reference update after a destroy or the
   * destination update, and no destroy after the destination update.
   */
  lemma MergeEffectsOrdered(plan: MergePlan, findMedia: MediaQuery, dryrun: bool)
    requires Mergeable(plan)
    ensures var log := MergeLog(plan, findMedia, dryrun);
            forall i, j :: 0 <= i < j < |log| ==> Stage(log[i]) <= Stage(log[j])
  {
    var refs := ReferencesLog(plan.sources, findMedia, plan.destination.id, dryrun);
    var destroys := DestroyLog(plan.sources, dryrun);
    var last: seq<Command> := if dryrun then [] else [UpdatePerformer(Outcome(plan))];
    ReferencesLogUpdates(plan.sources, findMedia, plan.destination.id, dryrun);
    forall c | c in destroys
      ensures Stage(c) == 1
    {
      var k :| 0 <= k < |destroys| && destroys[k] == c;
    }
    StagesInOrder(refs, destroys, last);
  }

  /**
   * Outside dry-run: the destroys follow source order, right after the reference
   * updates, and the destination update is the last command, issued once.
   */
  lemma MergeLogShape(plan: MergePlan, findMedia: MediaQuery)
    requires Mergeable(plan)
    ensures var log := MergeLog(plan, findMedia, false);
            var refs := ReferencesLog(plan.sources, findMedia, plan.destination.id, false);
            && |log| == |refs| + |plan.sources| + 1
            && (forall k :: 0 <= k < |plan.sources| ==> log[|refs| + k] == DestroyPerformer(plan.sources[k].id))
            && log[|log| - 1] == UpdatePerformer(Outcome(plan))
            && (forall k :: 0 <= k < |log| - 1 ==> !log[k].UpdatePerformer?)
  {
    var refs := ReferencesLog(plan.sources, findMedia, plan.destination.id, false);
    ReferencesLogUpdates(plan.sources, findMedia, plan.destination.id, false);
    LogShape(refs, plan.sources, UpdatePerformer(Outcome(plan)));
  }

  /** References, then one destroy per source, then the destination update. */
  lemma LogShape(refs: seq<Command>, sources: seq<Performer>, last: Command)
    requires forall c :: c in refs ==> c.Update?
    requires last.UpdatePerformer?
    ensures var log := refs + DestroyLog(sources, false) + [last];
            && |log| == |refs| + |sources| + 1
            && (forall k :: 0 <= k < |sources| ==> log[|refs| + k] == DestroyPerformer(sources[k].id))
            && log[|log| - 1] == last
            && (forall k :: 0 <= k < |log| - 1 ==> !log[k].UpdatePerformer?)
  {
    var destroys := DestroyLog(sources, false);
    var log := refs + destroys + [last];
    forall k | 0 <= k < |sources|
      ensures log[|refs| + k] == DestroyPerformer(sources[k].id)
    {
      assert log[|refs| + k] == destroys[k];
    }
    forall k | 0 <= k < |log| - 1
      ensures !log[k].UpdatePerformer?
    {
      if k < |refs| {
        assert log[k] == refs[k];
        assert refs[k] in refs;
      } else {
        assert log[k] == destroys[k - |refs|];
      }
    }
  }

}
