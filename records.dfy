/** The records the three plugins read from the Stash server, reduced to the fields their logic inspects. */
module Records {

  datatype Option<+T> = None | Some(value: T)

  datatype Result<+T, +E> = Success(value: T) | Failure(error: E)

  /** Object ids of Stash entities: galleries, images, scenes, performers, studios and tags. */
  type Id = nat

  /** The tag ids of a record; a missing or null `tags` field reads as no tags. */
  function TagList(tags: Option<seq<Id>>): seq<Id>
  {
    if tags.Some? then tags.value else []
  }

  /**
   * A gallery: its own tags, its studio (None when missing or null) and its performers.
   * The galleries nested in an image record carry no studio, so theirs is None.
   */
  datatype Gallery = Gallery(id: Id, tags: Option<seq<Id>>, studio: Option<Id>, performers: seq<Id>)

  /** An image, with the galleries it belongs to (each with its own tags and performers). */
  datatype Image = Image(
    id: Id,
    galleries: seq<Gallery>,
    performers: seq<Id>,
    tags: Option<seq<Id>>,
    studio: Option<Id>)

  /** An image, gallery or scene as the performer merge sees it: an id and its performer references. */
  datatype Media = Media(id: Id, performers: seq<Id>)

  /** The name of a scalar performer field ("gender", "country", ...). */
  type Key = string

  /** A non-null value of a scalar performer field. */
  datatype Value = Text(text: string) | Number(number: int)

  /** An external cross-reference of a performer. */
  datatype StashId = StashId(endpoint: string, stashId: string)

  /**
   * A performer. `attrs` holds the scalar fields that are present and non-null;
   * `aliases` is the comma-separated alias string, None when null.
   */
  datatype Performer = Performer(
    id: Id,
    name: string,
    aliases: Option<string>,
    attrs: map<Key, Value>,
    favorite: bool,
    tags: seq<Id>,
    stashIds: Option<seq<StashId>>)

  /** The partial performer update the merge sends for the destination performer. */
  datatype PerformerUpdate = PerformerUpdate(
    id: Id,
    name: string,
    aliases: Option<string>,
    attrs: map<Key, Value>,
    favorite: bool,
    stashIds: Option<seq<StashId>>,
    tagIds: seq<Id>)
}
