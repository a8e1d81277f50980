/** The public shape of an image (`IApiImageData`) and the projection the
    list and search routes apply to every stored document. The author is not
    looked up anywhere: its id and username are both the document's
    `authorId`, and its email is derived from it. */
module ApiProjection {
  import opened ImageStore

  const EMAIL_DOMAIN := "@example.com"

  datatype ApiUser = ApiUser(id: string, username: string, email: string)

  datatype ApiImage = ApiImage(id: string, src: string, name: string, author: ApiUser)

  /** The projection of one document. */
  function ToApiImage(image: StoredImage): (r: ApiImage)
    ensures r.id == image.id && r.src == image.doc.src && r.name == image.doc.name
    ensures r.author.id == r.author.username == image.doc.authorId
    ensures r.author.email == image.doc.authorId + EMAIL_DOMAIN
  {
    var author := image.doc.authorId;
    ApiImage(image.id, image.doc.src, image.doc.name, ApiUser(author, author, author + EMAIL_DOMAIN))
  }

  /** `images.map(...)`: one API image per document, in the same order. */
  function Project(images: seq<StoredImage>): (r: seq<ApiImage>)
    ensures |r| == |images|
    ensures forall i :: 0 <= i < |images| ==> r[i] == ToApiImage(images[i])
  {
    if images == [] then [] else [ToApiImage(images[0])] + Project(images[1..])
  }

  /** The document an API image was projected from: the inverse of
      ToApiImage (the author is read back from `author.id`). */
  function FromApiImage(api: ApiImage): (r: StoredImage)
  {
    StoredImage(api.id, ImageDoc(api.src, api.name, api.author.id))
  }

  /** Projection loses nothing: every document is recovered from its API form. */
  lemma ToApiImageRoundTrip(image: StoredImage)
    ensures FromApiImage(ToApiImage(image)) == image
  {
  }

  /** The listing determines the documents it came from, and in order. */
  lemma ProjectInjective(a: seq<StoredImage>, b: seq<StoredImage>)
    requires Project(a) == Project(b)
    ensures a == b
  {
  }
}
