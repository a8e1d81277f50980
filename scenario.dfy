/** A walk through the catalog, derived from the handlers' contracts alone:
    alice's image "Cat" is listed with alice as its author, bob may not
    rename it, alice may, and the listing then shows the new name. */
module Scenario {
  import opened JsValues
  import opened ImageStore
  import opened ApiProjection
  import opened ImageRoutes

  method CatalogScenario() returns (codes: seq<nat>, names: seq<string>, authors: seq<string>)
    ensures codes == [403, 204]
    ensures names == ["Cat", "Cats"]
    ensures authors == ["alice", "alice"]
  {
    var anyId: Id -> bool := _ => true;
    var store := new ImageStore();
    var id := store.CreateImage("/uploads/x.png", "Cat", "alice");
    assert store.order == [id];

    var before := ListImages(store);
    assert |before.images| == 1;
    assert before.images[0] == ToApiImage(StoredImage(id, ImageDoc("/uploads/x.png", "Cat", "alice")));

    ghost var cat := store.images;
    assert AcceptableName(Str("Cats"));
    assert !IsOwner(Some("bob"), cat[id]) && IsOwner(Some("alice"), cat[id]);

    var byBob := Rename(store, id, Str("Cats"), Some("bob"), anyId);
    assert byBob == NOT_OWNER && store.images == cat;
    var byAlice := Rename(store, id, Str("Cats"), Some("alice"), anyId);
    assert byAlice == RENAMED;

    var after := ListImages(store);
    assert store.images[id] == ImageDoc("/uploads/x.png", "Cats", "alice");
    assert after.images[0] == ToApiImage(StoredImage(id, store.images[id]));

    codes := [byBob.code, byAlice.code];
    names := [before.images[0].name, after.images[0].name];
    authors := [before.images[0].author.id, after.images[0].author.username];
  }

  /** An upload without a logged-in user creates nothing, whatever it carries. */
  method AnonymousUploadScenario() returns (code: nat, count: nat)
    ensures code == 401 && count == 0
  {
    var store := new ImageStore();
    var reply, created := Upload(store, Some(UploadedFile("x.png")), Str("Cat"), None);
    code, count := reply.code, |store.order|;
  }
}
