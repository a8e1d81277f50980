/** The image store the route handlers call: an in-memory collection of
    image documents keyed by id. It offers four of the five store operations the
    handlers use (`getAllImages`, `getImageById`, `updateImageName`,
    `createImage`), each with the contract its call sites rely on; the
    search operation `getImages` is a parameter of the search route. */
module ImageStore {
  import opened JsValues

  /** The textual form of a document's `_id` (`image._id.toString()`). */
  type Id = string

  /** One stored document: `{src, name, authorId}`. */
  datatype ImageDoc = ImageDoc(src: string, name: string, authorId: string)

  /** A document together with its id, as `find().toArray()` returns it. */
  datatype StoredImage = StoredImage(id: Id, doc: ImageDoc)

  /** A string longer than every string in `ids`: the witness that a fresh
      id always exists, however many documents the store holds. */
  ghost function LongerThanAll(ids: set<Id>): (r: Id)
    ensures forall id :: id in ids ==> |id| < |r|
    decreases ids
  {
    if ids == {} then "0"
    else
      var k :| k in ids;
      var rest := LongerThanAll(ids - {k});
      if |k| < |rest| then rest else k + "0"
  }

  class ImageStore {
    /** The documents, by id. */
    var images: map<Id, ImageDoc>
    /** The ids in insertion order: the order this model lists them in. */
    var order: seq<Id>

    /** Every stored id is listed exactly once in `order`. */
    ghost predicate Valid()
      reads this
    {
      (forall i, j :: 0 <= i < j < |order| ==> order[i] != order[j]) &&
      (forall id :: id in images <==> id in order)
    }

    constructor ()
      ensures Valid() && images == map[] && order == []
    {
      images := map[];
      order := [];
    }

    /** `getAllImages`: every document exactly once, in the order this model
        lists them (insertion order). */
    function AllImages(): (all: seq<StoredImage>)
      reads this
      requires Valid()
      ensures |all| == |order|
      ensures forall i :: 0 <= i < |all| ==>
                all[i].id == order[i] && all[i].id in images && all[i].doc == images[all[i].id]
      ensures forall id :: id in images <==> exists i :: 0 <= i < |all| && all[i].id == id
    {
      seq(|order|, i requires 0 <= i < |order| reads this, `images, `order =>
        if order[i] in images then StoredImage(order[i], images[order[i]])
        else StoredImage(order[i], ImageDoc("", "", "")))
    }

    /** `getImageById`: the document with that id, or nothing. */
    method GetImageById(id: Id) returns (found: Option<ImageDoc>)
      ensures found.Some? <==> id in images
      ensures found.Some? ==> found.value == images[id]
    {
      if id in images {
        found := Some(images[id]);
      } else {
        found := None;
      }
    }

    /** `updateImageName`: sets the name of the document with that id and
        returns how many documents matched (0 or 1); nothing else changes. */
    method UpdateImageName(id: Id, newName: string) returns (matched: nat)
      requires Valid()
      modifies this
      ensures Valid() && order == old(order)
      ensures matched <= 1
      ensures matched == 1 <==> id in old(images)
      ensures matched == 1 ==>
                images == old(images)[id := old(images)[id].(name := newName)]
      ensures matched == 0 ==> images == old(images)
    {
      if id in images {
        images := images[id := images[id].(name := newName)];
        matched := 1;
      } else {
        matched := 0;
      }
    }

    /** `createImage`: adds exactly one document under an id not used before
        and returns that id. */
    method CreateImage(src: string, name: string, authorId: string) returns (id: Id)
      requires Valid()
      modifies this
      ensures Valid()
      ensures id !in old(images)
      ensures images == old(images)[id := ImageDoc(src, name, authorId)]
      ensures order == old(order) + [id]
    {
      ghost var longer := LongerThanAll(images.Keys);
      assert longer !in images;
      id :| id !in images;
      images := images[id := ImageDoc(src, name, authorId)];
      order := order + [id];
    }
  }
}
