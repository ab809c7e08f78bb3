/**
 * The Stash server as the plugins see it: every update and destroy call they issue
 * is appended to a log, so that what is written, and in which order, can be stated.
 */
module Store {
  import opened Records

  /** The entity kinds whose records the plugins update. */
  datatype Kind = ImageKind | GalleryKind | SceneKind

  /** The fields of a partial update; None means the field is not sent and stays as it is. */
  datatype Patch = Patch(tagIds: Option<seq<Id>>, performerIds: Option<seq<Id>>, studioId: Option<Id>)

  datatype Command =
    | Update(kind: Kind, id: Id, patch: Patch)
    | DestroyPerformer(performer: Id)
    | UpdatePerformer(record: PerformerUpdate)

  /** The server connection; only the calls made through it are recorded. */
  class Stash {
    ghost var log: seq<Command>

    constructor ()
      ensures log == []
    {
      log := [];
    }

    method UpdateImage(id: Id, patch: Patch)
      modifies this
      ensures log == old(log) + [Update(ImageKind, id, patch)]
    {
      log := log + [Update(ImageKind, id, patch)];
    }

    method UpdateGallery(id: Id, patch: Patch)
      modifies this
      ensures log == old(log) + [Update(GalleryKind, id, patch)]
    {
      log := log + [Update(GalleryKind, id, patch)];
    }

    method UpdateScene(id: Id, patch: Patch)
      modifies this
      ensures log == old(log) + [Update(SceneKind, id, patch)]
    {
      log := log + [Update(SceneKind, id, patch)];
    }

    method DestroyPerformer(id: Id)
      modifies this
      ensures log == old(log) + [Command.DestroyPerformer(id)]
    {
      log := log + [Command.DestroyPerformer(id)];
    }

    method UpdatePerformer(record: PerformerUpdate)
      modifies this
      ensures log == old(log) + [Command.UpdatePerformer(record)]
    {
      log := log + [Command.UpdatePerformer(record)];
    }
  }
}
