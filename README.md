# yggapi-alldebrid, modelled in Dafny

This project models the server-side core of a small web app. The app searches
the yggapi torrent index and pushes a chosen torrent to the AllDebrid
"debrid" service, which turns it into direct download links. The core has
three parts:

- **The file-tree link extractor** (`searchAndAppend`). It walks a recursive
  `File` tree depth first, in pre-order, and pushes every truthy link into an
  array it is given, in place. The download handler folds it over the files of
  the first magnet, starting from `[]`. Module `LinkExtractor` holds the pure
  specification `Flatten`/`FlattenAll`. It also holds a pre-order reference
  definition, `PreOrder` with `LinksOf`, and the imperative `SearchAndAppend`
  and `CollectLinks`, which work over a mutable `LinkArray` object.
- **The unrestrict orchestrator** (the `/api/dl` POST handler). It is a
  sequential decision chain over four upstream replies: torrent detail, magnet
  upload, file listing and link save. It ends in `success`,
  `pending(magnetId)` or a 500 error whose message names the failing stage.
  Module `Download` holds this chain as the function `Unrestrict`, which returns
  the reply and the trace of upstream calls. It also holds the imperative
  `HandleDownload`, which uses the extractor and the `FormData` loop, and is
  proved equal to `Unrestrict`. The two variants of the handler differ in
  where the API key comes from. In server.ts it comes from the request body
  (`ServerDlPost`). In app/api/dl/route.ts it comes from the `ALLDEBRID_API_KEY`
  environment variable (`LoadDlRoute`, `RouteDlPost`).
- **The search paginator** (`recursiveYggSearch` and the `/api/search` POST
  handler). It fetches pages 1, 2, … with `per_page=100` and concatenates
  them up to the first empty page. This is module `Search`.

Module `Types` holds the JSON shapes. Module `Forms` holds the `FormData`
bodies. Every upstream endpoint is a parameter: a total function from the
request to `Fetched<T>`, which is either `Threw(exception)` or `Got(value)`.
Throwing covers a rejected `fetch`, a failing `res.json()`, and a TypeError
from reading a property of `undefined`.

## Model

| member | source | states |
|---|---|---|
| `LinkExtractor.SearchAndAppend` | server.ts:46-58 | Appends to the shared array in place and returns that same array. The old contents stay an unchanged prefix. What is appended is exactly `Flatten(file)`: the node's own truthy link, then each child's links in list order. |
| `LinkExtractor.CollectLinks` | server.ts:116-118 | Folding `searchAndAppend` over the files, starting from a fresh empty array, yields `FlattenAll(files)`: the links of each tree, tree after tree. |
| `LinkExtractor.FlattenIsPreOrderLinks` | app/api/dl/route.ts:20-32 | The extractor's output is the own links of the tree's nodes, taken in pre-order. A node comes before its descendants, and children come in list order. |
| `LinkExtractor.FlattenAllIsPreOrderLinks` | server.ts:116-118 | The links of a file list are the own links of the pre-order node lists of its trees, concatenated in file order. |
| `LinkExtractor.FlattenAllAppend` | server.ts:52-54 | The children are visited one after another. The links of `a + b` are the links of `a` followed by the links of `b`. |
| `LinkExtractor.LinksOfMembership` | server.ts:47-49 | A string is among the collected links exactly when some node in the list has it as a truthy link. |
| `LinkExtractor.LinkFoundIffSomeNodeCarriesIt` | server.ts:46-58 | A link is in a tree's output exactly when some node of the tree, at any depth, carries it as a truthy `l`. Nothing is invented or lost. |
| `LinkExtractor.RootLinkFirst` | server.ts:47-49 | A node's own truthy link is pushed before anything from its children. |
| `LinkExtractor.AbsentAndEmptyChildrenAgree` | server.ts:51 | An absent `e` and an empty `e` give the same output: only the node's own link. |
| `LinkExtractor.FalsyLinkStillVisitsChildren` | server.ts:47-55 | An absent `l` and an empty-string `l` behave the same. The node adds no link of its own, but its children are still visited: its output is exactly its children's links. |
| `LinkExtractor.TwoLinkExample` | app/api/dl/route.ts:68-70 | The tree `[{n:"a", l:"link1"}, {n:"folder", e:[{n:"b", l:"link2"}]}]` flattens to `["link1", "link2"]`. |
| `LinkExtractor.LinkArray.Push` | server.ts:48 | `links.push(l)` adds one element at the end. |
| `Forms.FormData.Append` | server.ts:122 | `f.append(name, value)` adds one entry at the end. |
| `Forms.BuildLinksForm` | app/api/dl/route.ts:72-75 | The `forEach` over the links fills a fresh form with exactly `LinksForm(links)`. |
| `Forms.LinksFormShape` | server.ts:120-123 | The save form has one entry per link. Each entry is named `links[]`, in link order. |
| `Forms.LinksFormRoundTrip` | server.ts:121-123 | Reading `links[]` back from the save form (`getAll`) gives exactly the links that were put in, in order. |
| `Download.HandleDownload` | server.ts:85-151 | The handler, run step by step with the mutable link array and form, returns exactly the reply and the call trace of the decision chain `Unrestrict`. |
| `Download.ErrorRepliesAre500` | server.ts:36-44 | Every error reply has status 500 and an `{error, details}` body. Every other reply is JSON with status 200. |
| `Download.StagesInOrder` | app/api/dl/route.ts:37-94 | The upstream calls are made in the fixed order detail, upload, listing, save. The chain stops at the first stage that ends the request, so there are 1 to 4 calls. The upload carries the hash from the torrent detail. Every AllDebrid call carries the given key. |
| `Download.DetailThrowIsParseFailure` | server.ts:149-150 | A throw while fetching or parsing the torrent detail, and only that, gives "Failed to parse yggapi response". No further call is made. |
| `Download.ThrowsReportedByStage` | app/api/dl/route.ts:95-100 | A caught exception gives "Failed to parse yggapi response" during the detail stage and "Failed to upload to AllDebrid" after it. That second message only ever reports an exception. Conversely, each of these ends the request at once with "Failed to upload to AllDebrid" and the caught error: a throw at the upload call (2 calls), a throw at the listing call (3 calls), the TypeError from `.files` of an empty listing (3 calls), and a throw at the save call (4 calls). |
| `Download.UploadErrorStops` | server.ts:95-97 | An upload reply with status "error" gives "Failed to upload magnet to AllDebrid" with the upstream data. No listing or save call is made. |
| `Download.EmptyUploadIsUploadFailure` | server.ts:99-101 | An accepted upload with an empty `magnets` list throws on `.ready`. The inner catch reports this as "Failed to upload to AllDebrid", after two calls. |
| `Download.NotReadyIsPending` | app/api/dl/route.ts:51-53 | A first magnet that is not ready gives `{status:"pending", magnetId}` with that magnet's id and status 200. No listing or save call is made. |
| `Download.ListingOnlyWhenReady` | server.ts:101-108 | The file listing is requested exactly when the upload was accepted and its first magnet is ready, and it is requested for that magnet's id. |
| `Download.ListingErrorStops` | server.ts:112-114 | A listing reply with status "error" gives "Failed to fetch magnet details from AllDebrid" with the upstream data, before any save. |
| `Download.SaveCarriesFlattenedLinks` | app/api/dl/route.ts:68-80 | Save is called exactly when the listing was accepted. It is called once, and its form carries one `links[]` entry per pre-order link of the first listed magnet's files, in order. |
| `Download.SuccessIffEveryStagePasses` | server.ts:112-139 | The reply is `{status:"success"}` exactly when every stage passed. Only the literal status "error" counts as a failure. |
| `Download.SaveErrorReported` | server.ts:134-136 | A save reply with status "error" gives "Failed to save links to AllDebrid" with the upstream data. |
| `Download.PendingExample` | server.ts:140-145 | Torrent 42, with hash "abc123" and a not-ready magnet 7, gives `pending(7)` after exactly two calls. |
| `Download.SuccessExample` | app/api/dl/route.ts:53-88 | A ready magnet whose files hold "link1" and, in a folder, "link2" is saved with exactly those two links and succeeds. |
| `Download.LoadDlRoute` | app/api/dl/route.ts:4-8 | The route module loads exactly when `ALLDEBRID_API_KEY` is present and non-empty. It then holds that key. Otherwise loading fails with "ALLDEBRID_API_KEY env is missing". |
| `Download.RouteUsesEnvironmentKey` | app/api/dl/route.ts:43-77 | A missing or empty environment key stops every request before any upstream call. Otherwise every AllDebrid call uses the environment's key, whatever the body says. |
| `Download.ServerUsesClientKey` | server.ts:83-126 | Every AllDebrid call uses the `alldebridApiKey` from the request body. A body that does not parse ends the request with no call. |
| `Search.SearchCollectsPagesUpToFirstEmpty` | app/api/search/route.ts:3-12 | Let `k` be the first page, from `page` on, that is empty or throws. Then exactly pages `page`..`k` are fetched, in order, each with the same `search` and `orderBy` and `per_page=100`. The result is pages `page`..`k-1` concatenated, or the exception if page `k` threw, so there is no partial result. |
| `Search.SearchPostFetchesFromPageOne` | app/api/search/route.ts:14-17 | The handler starts at page 1. With `k` the first stopping page, it replies 200 with pages 1..k-1 after exactly `k` fetches, or fails without a reply when page `k` threw. |
| `Search.EmptyFirstPage` | app/api/search/route.ts:7-11 | An empty first page gives `[]` after one fetch. |
| `Search.NonEmptyPageComesFirst` | server.ts:64-66 | A non-empty page's results come first, in upstream order, followed by everything the following pages give. A throw later on discards them. |

## Left out

- Search.RecursiveYggSearch: requires a page `last` that is empty or throws. With no such page the source never terminates, and the model does not cover that divergence.
- Search.SearchPost: requires the same stopping page, for the same reason.
- URL building and query interpolation are not modelled. The trace records the parameters each request carries, not the strings.
- The magnet id's `toString()` in the listing form is not modelled: `ListFiles` carries the id as a number.
- Malformed upstream shapes other than "throws" are not modelled. For example, a missing `hash` would be interpolated as `"undefined"`, and a non-array search page is not considered.
- `fetch`, `Response`, `FormData` internals and JSON parsing are foreign code. Each upstream endpoint is an abstract function, and every failure of such a call is an abstract exception value.
- async/await is not modelled: each chain is sequential. Bun's `serve` routing and the framework's handling of a rejected handler are not modelled either.
- Recursion depth is unbounded in the model. Call-stack exhaustion on very deep trees, and cyclic input, are not modelled; JSON trees are finite.
- How many fetches N results take depends on how the upstream pages its data, so it is not modelled. The model proves what the code itself guarantees: fetching stops at the first empty page.
- src/App.tsx and src/main.tsx (React UI, toasts, localStorage, `formatSize` floating point) are not part of this model.
- The error messages are the literal strings passed to `sendError`.
- An empty `magnets` list makes `.ready` or `.files` throw a TypeError inside the inner `try`. It is reported as "Failed to upload to AllDebrid".
