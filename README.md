# Image catalog routes: a Dafny model

This project models the server-side image routes of an image gallery. Users
upload named images, list and search the shared gallery, and rename the
images they own. The model covers:

- the rename route (`PUT /api/images/:imageId`). It validates the name and
  the id, reads the document, checks ownership, updates the name and
  answers 204 or an error;
- the upload route (`POST /api/images`). It checks that a file is attached,
  that the name is set and that the caller is logged in, and then creates
  exactly one document;
- the guard of the search route, which rejects a missing or empty `q`;
- the projection of stored documents to the public `IApiImageData` shape
  used by the list and search routes;
- the image store those routes call, an in-memory class `ImageStore` that
  holds a map from id to `{src, name, authorId}` and the order in which it
  lists them.

Modules:

- `JsValues` (`js_values.dfy`) models the JavaScript semantics the guards
  rely on: truthiness of body fields, query parameters and the username,
  and `string.length` counted in UTF-16 code units.
- `ImageStore` (`image_store.dfy`) is the store class. It has four of the
  five store operations the routes call, each with the contract its call
  sites rely on. The fifth, the search `getImages`, is a parameter of
  `Search`.
- `ApiProjection` (`api_projection.dfy`) is the record-to-API projection.
  Its partner is the inverse `FromApiImage`, and the lemmas prove that the
  projection loses nothing.
- `ImageRoutes` (`image_routes.dfy`) holds the handlers. Each handler's
  decision is a pure function, for example `RenameValidation`,
  `OwnershipCheck`, `RenameSpec` and `UploadCheck`. The handler methods
  change the store and are proved to follow those functions.
- `Scenario` (`scenario.dfy`) has two client methods. They derive a full
  create / list / rename / list session and an anonymous upload from the
  contracts alone.

Behaviour of the code worth noting:

- Upload checks the file and then the name before it checks the caller. An
  anonymous request with no file gets 400, not 401 (`AnonymousUploadRefused`).
- Upload does not bound the name's length. Only rename enforces the
  100-unit limit, so a longer name can be stored (`UploadAcceptsLongName`).
  The store's own `createImage` is not part of this model. It may or may
  not reject such names.
- The list route does not look up authors. `author.id` and
  `author.username` are both the document's `authorId`, and the email is
  `authorId + "@example.com"`.
- A missing or empty search query is refused with 400. It is not treated
  as "list everything". `GET /api/images` ignores `q`.

## Model

| member | source | states |
|---|---|---|
| `JsValues.RequiredString` | packages/backend/src/routes/imageRoutes.ts:81 | the "missing or not a string" guard passes exactly for a non-empty string and yields that string |
| `JsValues.Caller` | packages/backend/src/routes/imageRoutes.ts:166-167 | `req.user?.username` counts as logged in exactly when it is present and non-empty |
| `JsValues.Utf16Length` | packages/backend/src/routes/imageRoutes.ts:89 | JS `length` lies between the number of characters and twice that, and equals it when every character is in the Basic Multilingual Plane |
| `ImageStore.ImageStore.AllImages` | packages/backend/src/ImageProvider.ts:22-24 | `getAllImages` lists every stored document exactly once, with its fields, in the order the model keeps (insertion order) |
| `ImageStore.ImageStore.GetImageById` | packages/backend/src/routes/imageRoutes.ts:106 | `getImageById` finds a document exactly when the id is stored, and returns that document |
| `ImageStore.ImageStore.UpdateImageName` | packages/backend/src/routes/imageRoutes.ts:128 | `updateImageName` returns a matched count of 0 or 1. The count is 1 exactly when the id is stored, and then only that document's name changes. With 0 nothing changes |
| `ImageStore.ImageStore.CreateImage` | packages/backend/src/routes/imageRoutes.ts:177 | `createImage` adds exactly one document under an unused id, appends it to the listing order and leaves the other documents as they were |
| `ApiProjection.ToApiImage` | packages/backend/src/routes/imageRoutes.ts:26-35 | one document's API form copies id, src and name, sets `author.id` and `author.username` to `authorId`, and sets the email to `authorId + "@example.com"` |
| `ApiProjection.Project` | packages/backend/src/routes/imageRoutes.ts:59-68 | `images.map(...)` keeps length and order: element i is the projection of document i |
| `ApiProjection.ToApiImageRoundTrip` | packages/backend/src/routes/imageRoutes.ts:26-35 | each document is recovered from its API form |
| `ApiProjection.ProjectInjective` | packages/backend/src/routes/imageRoutes.ts:26-35 | two document lists with the same projection are equal, so the listing loses nothing, order included |
| `ImageRoutes.ListImages` | packages/backend/src/routes/imageRoutes.ts:20-42 | the list route answers 200 with one projected entry per stored document, in the order the store lists them. An id appears exactly when it is stored |
| `ImageRoutes.Search` | packages/backend/src/routes/imageRoutes.ts:44-75 | the search route answers 400 with the "q is required" error exactly when `q` is missing or empty. Otherwise it answers 200 with the projection of what the store's search returned |
| `ImageRoutes.SearchGuardIgnoresStore` | packages/backend/src/routes/imageRoutes.ts:49-52 | with no query the reply is the same for every store search, so the store is not consulted |
| `JsValues.QueryPresent` | packages/backend/src/routes/imageRoutes.ts:45-49 | `!searchQuery` lets a query through exactly when it is neither missing nor the empty string. Arrays and objects are truthy |
| `ImageRoutes.AcceptableName` | packages/backend/src/routes/imageRoutes.ts:81-95 | a name passes both rename guards exactly when it passes the string guard and is at most 100 UTF-16 units long |
| `ImageRoutes.RenameValidation` | packages/backend/src/routes/imageRoutes.ts:81-103 | the checks run in order: a missing or non-string name gives 400, then a name over 100 UTF-16 units gives 422, then a malformed id gives 404. The rename proceeds exactly for an acceptable name with a well-formed id. Length exactly 100 is accepted |
| `ImageRoutes.NameLengthBoundary` | packages/backend/src/routes/imageRoutes.ts:9 | the limit is inclusive: a 100-unit name passes when the id is well formed, and a 101-unit name gets 422 whatever the id |
| `ImageRoutes.IsOwner` | packages/backend/src/routes/imageRoutes.ts:116-120 | the ownership rule, the only authorization rule: the caller is present, non-empty and equal to the document's `authorId` |
| `ImageRoutes.OwnershipCheck` | packages/backend/src/routes/imageRoutes.ts:106-126 | a missing document gives 404. A caller who is anonymous, has an empty name or is not the author gives 403. Only the logged-in author proceeds |
| `ImageRoutes.RenameSpec` | packages/backend/src/routes/imageRoutes.ts:77-143 | the reply is one of 400/422/404/403/204. Validation errors are decided without the documents, and a malformed id and a missing document give the same 404. 204 comes exactly for the owner with a good name and id. Every refusal leaves the store unchanged. Success changes only that document's name, src and authorId are never changed, and the invariant that every src is under `/uploads/` with a non-empty author is kept |
| `ImageRoutes.ValidationHidesExistence` | packages/backend/src/routes/imageRoutes.ts:81-106 | when validation fails, two different stores give the same reply and neither store changes, so existence is not revealed |
| `ImageRoutes.RenameIdempotent` | packages/backend/src/routes/imageRoutes.ts:128-138 | renaming twice with the same request has the same outcome as renaming once |
| `ImageRoutes.CommitRename` | packages/backend/src/routes/imageRoutes.ts:128-138 | after the ownership check, a matched count of 0 gives 404 with the store unchanged, never 204. 204 comes exactly when the document was there, and then only its name changes |
| `ImageRoutes.Rename` | packages/backend/src/routes/imageRoutes.ts:77-143 | the handler validates before touching the store, reads the document once, checks ownership and commits. Its reply and the new store are those of `RenameSpec` |
| `ImageRoutes.UploadCheck` | packages/backend/src/routes/imageRoutes.ts:150-173 | the checks run in order: no file gives 400 "No image file uploaded", then a bad name gives 400 "Image name is required", then no logged-in user gives 401. On success the document has `src = "/uploads/" + filename`, the given name, and the logged-in username as `authorId` |
| `ImageRoutes.AnonymousUploadRefused` | packages/backend/src/routes/imageRoutes.ts:150-173 | an upload by a caller who is not logged in (no user, or an empty username) is always refused: with 401 when file and name are valid, with 400 otherwise |
| `ImageRoutes.UploadAcceptsLongName` | packages/backend/src/routes/imageRoutes.ts:157-164 | the upload guard accepts a name longer than the rename limit |
| `ImageRoutes.Upload` | packages/backend/src/routes/imageRoutes.ts:145-188 | a refused upload creates nothing. A successful one adds exactly one document under a fresh id, equal to `UploadCheck`'s document, and answers 201. The catalog invariant is kept |
| `Scenario.CatalogScenario` | packages/backend/src/routes/imageRoutes.ts:77-143 | alice's "Cat" is listed with author alice. bob's rename gets 403, alice's rename to "Cats" gets 204, and the listing then shows "Cats" |
| `Scenario.AnonymousUploadScenario` | packages/backend/src/routes/imageRoutes.ts:166-173 | a valid upload with no logged-in user gets 401 and the store stays empty |

## Left out

- Timing and logging: the artificial `waitDuration` delays and every `console.log`/`console.error` call.
- The 500 replies. Only a store exception leads to them, and the store here never fails.
- Concurrency between requests. Each handler runs with no other request in between. `CommitRename` is the step after the update's `await` on its own, which is where a document that has gone away gives the matched-count-0 404. `imageRoutes.ts` has no deletion route, so the composed `Rename` never takes that branch.
- `ObjectId.isValid` is foreign. It is the parameter `isValidId`, a predicate on id strings about which nothing is assumed.
- `ImageRoutes.Search`: `getImages` is not defined in `ImageProvider.ts`. It is an unconstrained parameter of `Search`, so which documents match a query is not modelled, and nothing ties its results to the documents in `ImageStore`.
- Id generation is MongoDB's. `CreateImage` picks any id not yet in the store.
- Id comparison: ids are compared as the exact strings `_id.toString()` produces. If the store's lookups build an `ObjectId` from the request's id, an upper-case hex spelling of a stored id would reach the same document. The model answers 404 for it instead.
- Ids that MongoDB generates always pass `ObjectId.isValid`. The model does not link `CreateImage`'s ids to `isValidId`. So the owner can rename an uploaded image only when that id passes `isValidId`, and `CatalogScenario` uses a predicate that accepts every id.
- Listing order: the model lists in insertion order. An unsorted `find()` returns MongoDB's unspecified natural order. So the "in order" part of `ListImages` holds for the order the model keeps, not for an order the program promises.
- Lone surrogates: a Dafny `char` is a Unicode scalar value. So a JSON name that holds an unpaired surrogate cannot be represented, although JS counts it as one unit of `.length`.
- The upload middleware (multer, `handleImageFileErrors`) and the authentication middleware. Their results are the inputs `file` (an optional file name) and `user` (an optional username).
- Express, the MongoDB connection, static file serving and the SPA fallback in `packages/backend/src/index.ts`.
- The MongoDB driver wrapper in `packages/backend/src/ImageProvider.ts`. The in-memory `ImageStore` class replaces it.
- All frontend files: upload form, routing and mock data, login page, image list and details views. `packages/backend/src/ProtectedRoute.tsx` is left out too, because its auth check is commented out. None of these holds logic that can be stated as a contract.
- `JsValues.Utf16Length`'s contract gives bounds only. The exact count is its definition, with astral characters counted as two units.
