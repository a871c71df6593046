# ColPali document search — a functional model in Dafny

This project models the logic of the ColPali document-search application. The application has two halves:

- A FastAPI backend. It turns uploaded PDFs into page images and indexes them, either in memory or in Qdrant with MinIO object storage. It then answers searches and a retrieval-augmented chat through OpenAI's vision model.
- A Next.js frontend. It talks to that backend.

The model covers these parts:

- the upload-progress tracker with its subscriber queues and event stream;
- the indexing batch planner and its progress callbacks;
- the MinIO object-naming scheme and the id round trips through its URLs;
- the storage-agnostic service and the in-memory store;
- the ColPali and chat routes;
- the OpenAI message assembly;
- in the browser: the API client's token lookup and request shapes, the `useColPali` hook, the `ColPaliManager` component, the dashboard page's counters, the chat transcript and the dashboard's tab selection.

External services are parameters, never implementations. This covers the embedding model, scoring, Qdrant's remote query, the MinIO and OpenAI clients, `fetch`, PDF and image codecs, UUIDs and clocks. A raised exception or rejected promise is a `Failure`/`Threw` value. Every state change is a pure function over immutable datatypes. Progress percentages are `real`.

One module per source file:

| file | module | models |
|---|---|---|
| wrappers.dfy | Wrappers | `Option`, `Result` |
| strings.dfy | Strings | Python/JavaScript string operations: split/join, `replace`, `strip`, `lower`, `str(int)` |
| imaging.dfy | Imaging | PIL images with abstract pixels |
| batching.dfy | Batching | the `range(0, n, b)` batching shared by both indexers |
| progress.dfy | Progress | `services/progress_manager.py` |
| minio.dfy | Minio | `services/colpali/minio_service.py` |
| qdrant.dfy | Qdrant | `services/colpali/qdrant_service.py` |
| memory_store.dfy | MemoryStore | `services/colpali/memory_store.py` |
| colpali_service.dfy | ColPaliService | `services/colpali/colpali_service.py` |
| colpali_routes.dfy | ColPaliRoutes | `routes/colpali.py` |
| openai.dfy | OpenAi | `services/openai_service.py` |
| conversation.dfy | Conversation | `routes/conversation.py` |
| client_types.dfy | ClientTypes | shapes, messages and the PDF filter shared by the frontend |
| client_api.dfy | ClientApi | `lib/api/colpali.ts` |
| colpali_hook.dfy | ColPaliHook | `lib/hooks/useColPali.ts` |
| colpali_manager.dfy | ColPaliManager | `components/colpali/ColPaliManager.tsx` |
| colpali_dashboard.dfy | ColPaliDashboard | `components/colpali/page.tsx` |
| document_chat.dfy | DocumentChat | `components/document-chat.tsx` |
| dashboard_layout.dfy | DashboardLayout | `app/dashboard/layout.tsx` |

Quirks of the code are modelled as written, each with a lemma that states the consequence:

- The service's formatting loop unpacks pairs, but the Qdrant search yields triples. So every non-empty Qdrant search ends in an error (`ColPaliService.SearchDocuments`, `Conversation.ChatOverService`).
- The routes raise their own `HTTPException` inside a `try` whose generic `except` wraps it again (`ColPaliRoutes.IndexRouteWrapsServiceErrorTwice`).
- An upload whose body cannot be read leaves its temporary file behind (`ColPaliRoutes.IndexRouteLeaksOnlyUnreadUpload`).
- A cookie token holding '=' is cut at it (`ClientApi.CookieValueTruncated`).
- `list_images` lists one level below the prefix, so an image whose id holds '/' shows only as a folder (`Minio.NestedImageListedAsFolder`).
- The manager's message colour test is case-sensitive, so the search fallback "Search failed" shows as a success (`ClientTypes.SearchFallbackShownAsSuccess`).
- Deleting a file on the dashboard lowers the counters even when nothing is removed (`ColPaliDashboard.DeleteAbsentStillCounts`).

## Model

Paths are relative to the repository root, under `fastapi_backend/app/` and `nextjs-frontend/`.

| member | source | states |
|---|---|---|
| Batching.BatchCount | fastapi_backend/app/services/colpali/qdrant_service.py:114-118 | `(n + b - 1) // b` is the least number of batches of at most b pages that covers n pages, and is zero exactly when there are no pages |
| Batching.Batch | fastapi_backend/app/services/colpali/qdrant_service.py:121-124 | batch k holds between 1 and b pages, and its j-th page is page k·b + j; the slice clamps at the end |
| Batching.Batches | fastapi_backend/app/services/colpali/qdrant_service.py:121-124 | the loop visits exactly ceil(n / b) batches |
| Batching.BatchesPartition | fastapi_backend/app/services/colpali/qdrant_service.py:114-124 | concatenated in loop order the batches give back the page list; every batch is non-empty and at most b long, and every batch but the last is full |
| Batching.BatchSlice | fastapi_backend/app/services/colpali/qdrant_service.py:122 | batch k is the slice `images[k*b : (k+1)*b]` clamped to the list |
| Batching.LaterBatchesStartLater | fastapi_backend/app/services/colpali/qdrant_service.py:121 | every batch the loop visits starts inside the page list |
| Progress.NewManager | fastapi_backend/app/services/progress_manager.py:48-50 | a fresh tracker has no tasks and satisfies the tracker invariant |
| Progress.CreateTask | fastapi_backend/app/services/progress_manager.py:52-65 | the new id is in both maps with a PENDING record at 0% and 0 processed files, the given total, step "Initializing...", the clock reading as timestamp and no page count or error; its subscriber list is empty; other tasks are untouched; the invariant is kept |
| Progress.UpdateProgress | fastapi_backend/app/services/progress_manager.py:67-90 | an unknown id changes nothing; otherwise the record keeps its total, takes the new status, progress, step and error, and falls back to the old processed and indexed counts on None or 0; every subscriber is notified; key sets and other tasks are unchanged |
| Progress.Notify | fastapi_backend/app/services/progress_manager.py:92-104 | every non-full queue survives with the update appended, every survivor is such a queue, and the survivors keep their relative order |
| Progress.NotifyDropsFull | fastapi_backend/app/services/progress_manager.py:98-103 | a queue holding 100 items is dropped: no survivor is that queue with the update |
| Progress.NotifyBounded | fastapi_backend/app/services/progress_manager.py:111 | after a notification no surviving queue holds more than its capacity of 100 |
| Progress.Subscribe | fastapi_backend/app/services/progress_manager.py:106-121 | an unknown id gives None and no change; otherwise a fresh queue holding exactly the current record is appended to the task's list and returned; records and other lists are unchanged |
| Progress.GetProgress | fastapi_backend/app/services/progress_manager.py:123-125 | the stored record itself, present exactly for the tracked ids; on a well-formed tracker exactly the ids with a subscriber list, each record under its own id |
| Progress.UpdateThenGet | fastapi_backend/app/services/progress_manager.py:67-90 | reading a task right after an update gives the new status, progress, step and error with the old total |
| Progress.CleanupTask | fastapi_backend/app/services/progress_manager.py:127-132 | the id leaves both maps and every other entry stays as it was |
| Progress.Receive | fastapi_backend/app/services/progress_manager.py:144 | the stream consumer's `queue.get()`: the oldest update of the first queue with that identity is returned and removed, the rest of the list unchanged; an empty or unknown queue yields nothing and changes nothing; the invariant is kept |
| Progress.SubscribeThenReceive | fastapi_backend/app/services/progress_manager.py:106-144 | a fresh subscriber's first read is the task's current record |
| Progress.ReceiveKeepsSubscriber | fastapi_backend/app/services/progress_manager.py:92-104 | once a subscriber has read an update, the next update on the task keeps its queue and delivers to it |
| Progress.RunKeepsWellFormed | fastapi_backend/app/services/progress_manager.py:47-144 | after any sequence of create, update, subscribe, read and cleanup calls the task map and the subscriber map have the same keys, every record sits under its own id, and every queue stays within capacity |
| Progress.Stream | fastapi_backend/app/services/progress_manager.py:141-156 | frame i is `data: <json>` plus a blank line for the i-th update, or the heartbeat for a timeout; no frame but the last ends the stream; the stream stops early only right after a COMPLETED or ERROR update |
| Progress.SseStreamStartsWithCurrent | fastapi_backend/app/services/progress_manager.py:134-152 | a stream on a known task starts with the task's current record, and a task already COMPLETED or ERROR yields that single frame |
| Progress.SseStreamUnknownTask | fastapi_backend/app/services/progress_manager.py:136-138 | a stream on an unknown task is empty |
| Minio.ParseEndpoint | fastapi_backend/app/services/colpali/minio_service.py:24-28 | the connection is secure exactly when the URL starts with "https://", and the host is no longer than the URL |
| Minio.ParseHttpEndpoint | fastapi_backend/app/services/colpali/minio_service.py:24-28 | "http://" + host parses to that host over an insecure connection |
| Minio.ParseHttpsEndpoint | fastapi_backend/app/services/colpali/minio_service.py:24-28 | "https://" + host parses to that host over a secure connection |
| Minio.ImageObjectNameInjective | fastapi_backend/app/services/colpali/minio_service.py:106 | two ids share the object name `images/{id}.png` exactly when they are equal |
| Minio.ImageAndThumbNamesDiffer | fastapi_backend/app/services/colpali/minio_service.py:106-127 | a full image never shares its object name with a thumbnail |
| Minio.CentreOffset | fastapi_backend/app/services/colpali/minio_service.py:78-79 | `(W - w) // 2` puts an extent that fits inside the canvas, with the right margin equal to the left or one more |
| Minio.GenerateThumbnail | fastapi_backend/app/services/colpali/minio_service.py:60-83 | the thumbnail is a 300×200 RGB canvas holding the resized image, pasted inside it when it fits |
| Minio.StoreImage | fastapi_backend/app/services/colpali/minio_service.py:85-147 | a failed upload raises "Failed to store image: …"; otherwise the id is the given one or the fresh one, the image is under `images/{id}.png` at its public URL, the thumbnail URL is set exactly when a thumbnail was made and stored, and no other object changes |
| Minio.GetImage | fastapi_backend/app/services/colpali/minio_service.py:149-177 | the image comes back exactly when the call succeeds and `images/{id}.png` exists, and it is the stored one; every failure raises with the "Failed to retrieve image: " prefix |
| Minio.DeleteImage | fastapi_backend/app/services/colpali/minio_service.py:179-199 | a failure is reported as false and changes nothing; a success removes the image object and nothing else |
| Minio.ListImages | fastapi_backend/app/services/colpali/minio_service.py:264-283 | a failure yields no names; otherwise the non-recursive listing: exactly one entry per object under the prefix, the object's own name or, when a '/' follows the prefix, its first-level folder ending in '/' |
| Minio.NestedImageListedAsFolder | fastapi_backend/app/services/colpali/minio_service.py:274-276 | an image whose id holds a '/' is not listed under its own name, only as the folder of the id's first segment |
| Minio.PresignedUrl | fastapi_backend/app/services/colpali/minio_service.py:325-350 | the client signs the image's object name in the bucket; a failure raises with the "Failed to generate presigned URL: " prefix |
| Minio.StoreThenAccess | fastapi_backend/app/services/colpali/minio_service.py:106-190 | a stored image is read back unchanged, is listed under "images/" when its id holds no '/', and its presigned URL signs the same name |
| Minio.DeleteThenGet | fastapi_backend/app/services/colpali/minio_service.py:149-199 | after a delete the image cannot be read, and every other id reads as before |
| Minio.EnsureAscii | fastapi_backend/app/services/colpali/minio_service.py:213 | the serialiser's output is pure ASCII, and text below DEL passes through unchanged |
| Minio.Utf8LengthIsCharCount | fastapi_backend/app/services/colpali/minio_service.py:223 | a text's character count equals its UTF-8 byte count exactly when it is ASCII |
| Minio.StoreMetadata | fastapi_backend/app/services/colpali/minio_service.py:201-233 | a failure raises "Failed to store metadata: …"; otherwise the JSON text is stored under `metadata/{id}.json` with its character count as declared length, and its public URL is returned |
| Minio.MetadataLengthIsByteLength | fastapi_backend/app/services/colpali/minio_service.py:213-225 | because the text is ASCII-escaped, the declared length of stored metadata always equals its byte count |
| Minio.GetMetadata | fastapi_backend/app/services/colpali/minio_service.py:235-262 | the text comes back exactly when the call succeeds and a JSON object is stored under the metadata name; every failure raises with the "Failed to retrieve metadata: " prefix |
| Minio.StoreThenGetMetadata | fastapi_backend/app/services/colpali/minio_service.py:201-262 | stored metadata reads back as the escaped JSON text, and storing it leaves every image readable as before |
| Qdrant.Payloads | fastapi_backend/app/services/colpali/qdrant_service.py:169-181 | one payload per page |
| Qdrant.PayloadsIndexPages | fastapi_backend/app/services/colpali/qdrant_service.py:169-181 | payload i has index i, the page labels are pairwise distinct, and each payload carries its page's stored URL and thumbnail URL, None included |
| Qdrant.Callbacks | fastapi_backend/app/services/colpali/qdrant_service.py:132-204 | a complete run makes four callbacks per batch |
| Qdrant.CallbacksProgress | fastapi_backend/app/services/colpali/qdrant_service.py:128-204 | over the reals progress starts at 0, rises strictly with every callback and stays below 100; the processed count is the pre-batch total in a batch's first three callbacks and ends at the page count |
| Qdrant.ProgressOrder | fastapi_backend/app/services/colpali/qdrant_service.py:128-129 | `start + per_batch * {0, 0.4, 0.7, 0.9}` grows strictly in batch order and, within a batch, in step order |
| Qdrant.ProgressBelowHundred | fastapi_backend/app/services/colpali/qdrant_service.py:128-129 | every reported percentage lies in [0, 100) |
| Qdrant.AppendPlanned | fastapi_backend/app/services/colpali/qdrant_service.py:132-204 | the next callback extends a prefix of the planned sequence |
| Qdrant.UpsertBatch | fastapi_backend/app/services/colpali/qdrant_service.py:169-194 | pages are uploaded one by one in order as their payloads; an upload failure stops the loop at that page with its wrapped error |
| Qdrant.IndexBatch | fastapi_backend/app/services/colpali/qdrant_service.py:126-198 | one batch makes its four planned callbacks around embedding, MinIO storage and upload; a failing step raises its wrapped error, having uploaded exactly the pages before it |
| Qdrant.IndexDocuments | fastapi_backend/app/services/colpali/qdrant_service.py:112-206 | a zero batch size raises ZeroDivisionError and a negative one indexes nothing; otherwise the uploads are a prefix of the page payloads and the callbacks a prefix of the plan; the run fails exactly when a fault is reached, and a clean run uploads every payload, makes every callback and reports the page count |
| Qdrant.TakePrefix | fastapi_backend/app/services/colpali/qdrant_service.py:253 | `points[:k]` is an initial run of the points, of length min(k, n) for k ≥ 0 |
| Qdrant.PointError | fastapi_backend/app/services/colpali/qdrant_service.py:268-269 | every failure on a point is wrapped as "Error retrieving image from MinIO for point …" |
| Qdrant.SearchFrom | fastapi_backend/app/services/colpali/qdrant_service.py:255-269 | the loop succeeds exactly when every remaining point has a usable image URL whose image the store returns, with one hit per point |
| Qdrant.SearchFromHits | fastapi_backend/app/services/colpali/qdrant_service.py:255-269 | each hit is the fetched image, page label and thumbnail of its own point, in point order |
| Qdrant.Search | fastapi_backend/app/services/colpali/qdrant_service.py:245-271 | on success one hit per point of `points[:k]` (so min(k, n) hits for k >= 0), in the order of the points, each built from its point; the search succeeds exactly when every point of `points[:k]` is retrievable |
| Qdrant.ImageIdRoundTrip | fastapi_backend/app/services/colpali/qdrant_service.py:261 | for an id without '/' and ".png", the id extracted from its stored image URL is the id itself |
| Qdrant.SearchFetchesStoredId | fastapi_backend/app/services/colpali/qdrant_service.py:256-263 | searching a point that holds a stored image's URL fetches exactly that id |
| Qdrant.CreateCollection | fastapi_backend/app/services/colpali/qdrant_service.py:32-66 | creation succeeds exactly when there is no error or the lower-cased error mentions "already exists"; any other error is re-raised with the collection name |
| Qdrant.CreateCollectionIgnoresCase | fastapi_backend/app/services/colpali/qdrant_service.py:64-66 | any capitalisation of "already exists" in the error text is tolerated |
| Qdrant.ClearCollection | fastapi_backend/app/services/colpali/qdrant_service.py:273-280 | a failed delete or re-creation is raised as "Error clearing collection: …"; success re-creates the collection |
| MemoryStore.EmbedAll | fastapi_backend/app/services/colpali/memory_store.py:25-29 | one embedding per page |
| MemoryStore.EmbedAllConcat | fastapi_backend/app/services/colpali/memory_store.py:25-29 | embedding batch by batch equals embedding the whole list |
| MemoryStore.RunBatches | fastapi_backend/app/services/colpali/memory_store.py:18-29 | the batch loop appends each batch's embeddings in page order and stops at the first batch that raises |
| MemoryStore.IndexGpu | fastapi_backend/app/services/colpali/memory_store.py:13-30 | a batch size below 1 is rejected; without a failing batch every page's embedding is appended in order and "Uploaded and converted {n} pages" is returned; a failing batch raises after the earlier batches were appended |
| MemoryStore.UnchosenExists | fastapi_backend/app/services/colpali/memory_store.py:44 | fewer distinct positions than scores leave a position unchosen |
| MemoryStore.TopK | fastapi_backend/app/services/colpali/memory_store.py:43-44 | k distinct valid positions in non-increasing score order, none beaten by a position left out |
| MemoryStore.Search | fastapi_backend/app/services/colpali/memory_store.py:32-50 | k is clamped to the number of embeddings; a negative result raises as `topk` does; otherwise the hits are the top-k positions with "Page {idx}" labels, and a position with no image raises |
| MemoryStore.SearchAlignedStore | fastapi_backend/app/services/colpali/memory_store.py:34-48 | with an image for every embedding, the search returns exactly min(k, len(ds)) hits |
| ColPaliService.IndexDocuments | fastapi_backend/app/services/colpali/colpali_service.py:45-67 | a conversion failure is answered as "Error indexing documents: …"; memory mode appends the pages to the images and their embeddings to the store; a success reports the page count; Qdrant mode leaves local state alone and succeeds exactly when the remote indexer does; the images-before-embeddings invariant is kept |
| ColPaliService.FailedEmbedLeavesImagesAhead | fastapi_backend/app/services/colpali/colpali_service.py:53-54 | in memory mode a batch that fails to embed leaves more images than embeddings |
| ColPaliService.FormatResults | fastapi_backend/app/services/colpali/colpali_service.py:86-92 | result i has rank i + 1, its hit's page label and its image size; there is no image or thumbnail URL |
| ColPaliService.SearchDocuments | fastapi_backend/app/services/colpali/colpali_service.py:69-112 | an empty memory store answers "No documents indexed…"; `total_results` counts the results ranked 1..m; `ai_response` is present exactly when the key is non-blank; memory mode returns min(k, len(ds)) results with k defaulting to 5; a non-empty Qdrant result fails on the pair unpacking |
| ColPaliService.CollectionInfo | fastapi_backend/app/services/colpali/colpali_service.py:114-135 | memory mode reports the two list lengths; Qdrant mode reports the remote description or "Error getting collection info: …" |
| ColPaliService.ClearCollection | fastapi_backend/app/services/colpali/colpali_service.py:137-157 | memory mode empties both lists; Qdrant mode succeeds exactly when the remote clear does and otherwise prefixes its error |
| ColPaliService.ClearThenQuery | fastapi_backend/app/services/colpali/colpali_service.py:117-146 | after a memory-mode clear the info reports 0 documents and 0 images, and a search answers that nothing is indexed |
| ColPaliService.QdrantClearErrorDoublePrefix | fastapi_backend/app/services/colpali/colpali_service.py:147-157 | a failed remote clear carries "Error clearing collection: " twice |
| ColPaliRoutes.ServerErrorText | fastapi_backend/app/routes/colpali.py:70 | the text of a raised 500 is "500: " followed by its detail |
| ColPaliRoutes.FirstNonPdf | fastapi_backend/app/routes/colpali.py:43-48 | the first upload whose lower-cased name does not end in ".pdf", or none exactly when all are PDFs |
| ColPaliRoutes.SaveUploads | fastapi_backend/app/routes/colpali.py:50-57 | without read errors every upload gets a recorded temporary file; a read error stops the loop after creating, but not recording, that upload's file |
| ColPaliRoutes.IndexRoute | fastapi_backend/app/routes/colpali.py:32-81 | no files gives 400 "No files provided"; a non-PDF gives 400 naming it before any file is read; a success returns the service's response; a 500 detail starts with "Error indexing documents: "; the temporary files are cleaned up on both paths |
| ColPaliRoutes.IndexRouteLeaksOnlyUnreadUpload | fastapi_backend/app/routes/colpali.py:50-80 | every temporary file is unlinked, except the one created for an upload whose body could not be read |
| ColPaliRoutes.IndexRouteWrapsServiceErrorTwice | fastapi_backend/app/routes/colpali.py:69-81 | a service error reaches the client as "Error indexing documents: 500: Error indexing documents: …" |
| ColPaliRoutes.SearchRoute | fastapi_backend/app/routes/colpali.py:84-107 | a blank query gives 400 before the service runs; a success echoes the query and carries the service's ranked results (ranks 1.., total = count, min(k, stored) of them in memory mode, none from an empty Qdrant search) and the AI answer exactly when an API key is set; a service error becomes a doubly prefixed 500 |
| ColPaliRoutes.InfoRoute | fastapi_backend/app/routes/colpali.py:110-125 | 200 exactly when the service reports its collection; otherwise a doubly prefixed 500 |
| ColPaliRoutes.ClearRoute | fastapi_backend/app/routes/colpali.py:128-143 | the service's clear is applied; 200 exactly when it succeeds, otherwise a doubly prefixed 500 |
| ColPaliRoutes.HealthRoute | fastapi_backend/app/routes/colpali.py:146-152 | the health route always answers 200 "healthy" |
| OpenAi.NewClient | fastapi_backend/app/services/openai_service.py:17-23 | construction fails exactly when the API key is missing or empty |
| OpenAi.JpegReady | fastapi_backend/app/services/openai_service.py:31-33 | RGBA, LA and P images are converted to RGB of the same size; other images pass unchanged |
| OpenAi.EncodeImage | fastapi_backend/app/services/openai_service.py:25-50 | encoding succeeds exactly when the JPEG encoder accepts the RGB-ready image, giving a "data:image/jpeg;base64," URL; a failure raises "Failed to encode image: …" |
| OpenAi.EncodeImagePayload | fastapi_backend/app/services/openai_service.py:39-46 | the data URL's payload is exactly the encoder's output |
| OpenAi.EncodedPositions | fastapi_backend/app/services/openai_service.py:62-76 | the positions of exactly the images that encode, increasing |
| OpenAi.FormatImages | fastapi_backend/app/services/openai_service.py:52-78 | one image part per image that encodes, in input order; failures are skipped |
| OpenAi.FormatImagesAreDataUrls | fastapi_backend/app/services/openai_service.py:62-78 | every image part carries a JPEG data URL |
| OpenAi.BuildMessages | fastapi_backend/app/services/openai_service.py:111-128 | a system entry first exactly when a system message is truthy, then one user entry holding the prompt text followed by the image parts |
| OpenAi.AnalyzeImages | fastapi_backend/app/services/openai_service.py:80-150 | the checks run in order (no images, blank prompt, nothing encodable), each wrapped as "Failed to analyze images: …"; a request is sent exactly when all pass, with the assembled messages, and the outcome is the reading of the model's reply to them |
| OpenAi.Interpret | fastapi_backend/app/services/openai_service.py:140-150 | the first choice's text when it is non-empty, "No response generated" when it is missing or empty; no choice or no message fails with "No response received from OpenAI", an exception with its own text, both wrapped |
| OpenAi.EnhancedPrompt | fastapi_backend/app/services/openai_service.py:183-186 | with a truthy context the prompt is preceded by the context block; otherwise it is unchanged |
| OpenAi.EnhancedPromptNotBlank | fastapi_backend/app/services/openai_service.py:98-102 | with a context the enhanced prompt is never blank, so the blank-prompt check cannot fire |
| OpenAi.ConversationalAnalysis | fastapi_backend/app/services/openai_service.py:152-192 | the image analysis with the full conversation system message and the enhanced prompt: the no-images and nothing-encodable failures, the blank-prompt failure only without a context, and the outcome read from the model's reply |
| OpenAi.HealthCheck | fastapi_backend/app/services/openai_service.py:194-218 | healthy exactly when the probe returns at least one choice; an exception reads as unhealthy |
| Conversation.RetrieveThumbnails | fastapi_backend/app/routes/conversation.py:112-132 | each usable result contributes its image and thumbnail URL, in order; failed fetches are skipped; nothing is retrieved exactly when no result is usable |
| Conversation.RetrievedImagesMatchIds | fastapi_backend/app/routes/conversation.py:120-126 | every retrieved image is the one named by its thumbnail's id |
| Conversation.RetrieveInMemory | fastapi_backend/app/routes/conversation.py:100-110 | the first result with an image URL reaches the lookup the service does not define and fails; without one nothing is retrieved |
| Conversation.ContextEntries | fastapi_backend/app/routes/conversation.py:147-150 | entry i is "Image {i+1}: " followed by the result's page label, or "Image {i+1}" when the label is missing |
| Conversation.Context | fastapi_backend/app/routes/conversation.py:152 | the context is "Retrieved images: " followed by the entries joined by "; " |
| Conversation.ContextEntriesRecoverable | fastapi_backend/app/routes/conversation.py:147-152 | when no label contains ';', splitting the context on "; " gives back the entries |
| Conversation.Urls | fastapi_backend/app/routes/conversation.py:110 | the URL list pairs with the image list, one URL per image |
| Conversation.Images | fastapi_backend/app/routes/conversation.py:109 | the image list pairs with the URL list, one image per retrieved result |
| Conversation.Retrieve | fastapi_backend/app/routes/conversation.py:97-132 | the current storage mode retrieves at most one image per result |
| Conversation.Respond | fastapi_backend/app/routes/conversation.py:134-185 | results without a retrievable image give the "couldn't retrieve" error; a success carries the model's answer, the URLs of the retrieved images and their count; a failed retrieval or analysis gives status "error" with "Error processing request: " and the error text |
| Conversation.Chat | fastapi_backend/app/routes/conversation.py:62-185 | a blank prompt gives 400; a search error a singly prefixed 500; no results a success with 0 images; memory mode answers with the missing-lookup error (or "couldn't retrieve"); in Qdrant mode a success carries the model's answer and the thumbnail URLs, a failed analysis the "Error processing request: " message |
| Conversation.ChatAnswersWithModelText | fastapi_backend/app/routes/conversation.py:114-171 | in Qdrant mode, once a thumbnail is fetched and an image encodes, the body is a success carrying the model's first choice text, or "No response generated" when it is missing or empty, with the thumbnail URLs |
| Conversation.ThumbnailIdRoundTrip | fastapi_backend/app/routes/conversation.py:120-123 | for an id without '/' and '.', the id extracted from its stored thumbnail URL is the id itself |
| Conversation.StoredThumbnailIsRetrieved | fastapi_backend/app/routes/conversation.py:114-129 | a result carrying a stored thumbnail's URL is retrieved whenever the store returns that id |
| Conversation.AsEntries | fastapi_backend/app/services/colpali/colpali_service.py:88-92 | the service's results carry a page label but neither an image URL nor a thumbnail URL |
| Conversation.SearchStep | fastapi_backend/app/routes/conversation.py:70-81 | run against the service, the search yields results without image URLs or an error message |
| Conversation.ChatOverService | fastapi_backend/app/routes/conversation.py:65-185 | fed by the service, the chat never retrieves an image; a success only ever reports that nothing was found |
| Conversation.ChatHealth | fastapi_backend/app/routes/conversation.py:188-224 | 200 and "healthy" exactly when both the model endpoint and the collection are healthy, otherwise 503; each service's word reflects its own check |
| ClientApi.FindTokenRow | nextjs-frontend/lib/api/colpali.ts:54-55 | the position of the first cookie entry starting with "access_token=", or none exactly when there is none |
| ClientApi.GetAuthToken | nextjs-frontend/lib/api/colpali.ts:46-60 | no token outside a browser; otherwise local storage's `auth_token`, then `access_token`, then the cookie, with empty strings falling through; a token is never empty |
| ClientApi.EntryValueOf | nextjs-frontend/lib/api/colpali.ts:56 | an entry "access_token=" + v carries v up to its first '=' |
| ClientApi.TokenFromFirstEntry | nextjs-frontend/lib/api/colpali.ts:54-57 | the token is read from the first matching entry |
| ClientApi.CookieTokenReadsFirstEntry | nextjs-frontend/lib/api/colpali.ts:54-57 | in a "; "-joined cookie string whose entries hold no ';' the token is that of the first matching entry |
| ClientApi.CookieTokenRoundTrip | nextjs-frontend/lib/api/colpali.ts:54-57 | a token without '=' written into a "; "-joined cookie string is read back unchanged |
| ClientApi.CookieValueTruncated | nextjs-frontend/lib/api/colpali.ts:56 | a cookie value holding '=' is cut at its first '=' |
| ClientApi.CreateHeaders | nextjs-frontend/lib/api/colpali.ts:63-74 | the JSON content type always, and "Bearer {token}" exactly when a token is found |
| ClientApi.NewApi | nextjs-frontend/lib/api/colpali.ts:79-81 | an explicit base URL is used; without one the environment's, else "http://localhost:8000" |
| ClientApi.IndexRequest | nextjs-frontend/lib/api/colpali.ts:104-115 | the upload has no content type, Authorization exactly when a token is found, and one "files" entry per file in order |
| ClientApi.ImageUrl | nextjs-frontend/lib/api/colpali.ts:168-170 | an image URL is the base URL followed by "/colpali/image/" and the id |
| ClientApi.ImageUrlIdRoundTrip | nextjs-frontend/lib/api/colpali.ts:168-170 | an id without '/' is the last segment of its image URL |
| ClientApi.FailureMessage | nextjs-frontend/lib/api/colpali.ts:93-182 | a non-OK reply throws the operation's "… failed: " lead, the status and, except for the health probe, the body text |
| ClientApi.FailureMessageNamesOperation | nextjs-frontend/lib/api/colpali.ts:93-182 | different operations never throw the same message |
| ClientApi.Complete | nextjs-frontend/lib/api/colpali.ts:86-99 | an OK reply returns its JSON body; any other reply throws its failure message |
| ClientTypes.ThrownText | nextjs-frontend/lib/hooks/useColPali.ts:71 | a thrown Error gives its message, anything else the fallback |
| ClientTypes.OrText | nextjs-frontend/lib/hooks/useColPali.ts:66 | `s \|\| fallback`: a missing or empty string gives way to the fallback |
| ClientTypes.Filter | nextjs-frontend/components/colpali/ColPaliManager.tsx:30-31 | the kept elements are exactly the input elements that pass; nothing is dropped exactly when all pass |
| ClientTypes.FilterConcat | nextjs-frontend/components/colpali/ColPaliManager.tsx:30-31 | the filter distributes over concatenation, so kept elements keep their relative order |
| ClientTypes.FilterIdempotent | nextjs-frontend/components/colpali/ColPaliManager.tsx:30-31 | filtering twice with the same test changes nothing more |
| ClientTypes.FilterKeepsAll | nextjs-frontend/components/colpali/ColPaliManager.tsx:30-31 | when every element passes, the filter returns its input |
| ClientTypes.SelectFiles | nextjs-frontend/components/colpali/page.tsx:48-62 | the selection is exactly the PDF files in order, and the message is set exactly when some file was dropped |
| ClientTypes.SearchDoneText | nextjs-frontend/lib/hooks/useColPali.ts:97-101 | "Found N results" when the count is truthy, else "Search completed" |
| ClientTypes.ThrownMessage | nextjs-frontend/lib/hooks/useColPali.ts:70-72 | a thrown call's message starts with the action's lead |
| ClientTypes.IndexOutcome | nextjs-frontend/lib/hooks/useColPali.ts:52-76 | the index succeeds exactly on a "success" reply, with the page-count message; a failed reply shows its message or the fallback; a throw shows the lead and the error |
| ClientTypes.SearchOutcome | nextjs-frontend/lib/hooks/useColPali.ts:78-112 | the search succeeds exactly on a "success" reply, with the count message; failures as for indexing |
| ClientTypes.ClearOutcome | nextjs-frontend/lib/hooks/useColPali.ts:129-154 | the clear succeeds exactly on a "success" reply; failures as for indexing |
| ClientTypes.ErrorPrefixIsError | nextjs-frontend/components/colpali/ColPaliManager.tsx:332-337 | a message led by "Error" is drawn in the error colour |
| ClientTypes.FailedPrefixIsError | nextjs-frontend/components/colpali/ColPaliManager.tsx:332-337 | a message led by "Failed" is drawn in the error colour |
| ClientTypes.ErrorLeadShownAsError | nextjs-frontend/components/colpali/ColPaliManager.tsx:332-337 | any message whose lead starts with "Error" is drawn in the error colour |
| ClientTypes.ThrownMessagesShownAsErrors | nextjs-frontend/components/colpali/ColPaliManager.tsx:332-337 | the message of every action that threw is drawn in the error colour |
| ClientTypes.SearchFallbackShownAsSuccess | nextjs-frontend/components/colpali/ColPaliManager.tsx:332-337 | the fallback "Search failed" is drawn in the success colour |
| ClientTypes.OtherFallbacksShownAsErrors | nextjs-frontend/components/colpali/ColPaliManager.tsx:332-337 | the index and clear fallbacks are drawn in the error colour |
| ClientTypes.PlainTextShownAsSuccess | nextjs-frontend/components/colpali/ColPaliManager.tsx:332-337 | text without 'E' and 'F' is drawn in the success colour |
| ClientTypes.IndexedTextShownAsSuccess | nextjs-frontend/components/colpali/ColPaliManager.tsx:332-337 | a successful index's message is drawn in the success colour |
| ClientTypes.SearchDoneShownAsSuccess | nextjs-frontend/components/colpali/ColPaliManager.tsx:332-337 | a successful search's message is drawn in the success colour |
| ClientTypes.ClearedShownAsSuccess | nextjs-frontend/components/colpali/ColPaliManager.tsx:332-337 | a successful clear's message is drawn in the success colour |
| ClientTypes.FoundTextShownAsSuccess | nextjs-frontend/components/colpali/ColPaliManager.tsx:332-337 | "Found {n} results" starts with 'F' but is drawn in the success colour |
| ColPaliHook.SetMessage | nextjs-frontend/lib/hooks/useColPali.ts:36-42 | the message is set, the error is set to it exactly when flagged, and nothing else changes |
| ColPaliHook.ClearMessage | nextjs-frontend/lib/hooks/useColPali.ts:44-50 | no message and no error; nothing else changes |
| ColPaliHook.MessagesOverride | nextjs-frontend/lib/hooks/useColPali.ts:36-50 | a later message replaces an earlier one entirely, clearing forgets it, and clearing is idempotent |
| ColPaliHook.BeginIndex | nextjs-frontend/lib/hooks/useColPali.ts:52-58 | no files returns false with an error and leaves `indexing` alone; otherwise the message is cleared and `indexing` set |
| ColPaliHook.FinishIndex | nextjs-frontend/lib/hooks/useColPali.ts:59-76 | the outcome's message, an error exactly on failure, and `indexing` reset |
| ColPaliHook.BeginSearch | nextjs-frontend/lib/hooks/useColPali.ts:78-90 | a blank query returns false with an error; otherwise results and AI answer are cleared and `searching` set |
| ColPaliHook.FinishSearch | nextjs-frontend/lib/hooks/useColPali.ts:91-112 | on success the results (default none) and AI answer (default empty) are stored; the error is set exactly on failure; `searching` is reset |
| ColPaliHook.BeginInfo | nextjs-frontend/lib/hooks/useColPali.ts:114-116 | only `loading` is set |
| ColPaliHook.FinishInfo | nextjs-frontend/lib/hooks/useColPali.ts:117-127 | the info is stored and returned, or the thrown message shown as an error; `loading` is reset |
| ColPaliHook.BeginClear | nextjs-frontend/lib/hooks/useColPali.ts:129-132 | the message is cleared and `loading` set |
| ColPaliHook.FinishClear | nextjs-frontend/lib/hooks/useColPali.ts:133-154 | a success drops info, results and AI answer; the error is set exactly on failure; `loading` is reset |
| ColPaliHook.HealthCheck | nextjs-frontend/lib/hooks/useColPali.ts:156-164 | true exactly when the probe returns; otherwise "Health check failed: …" is shown as an error |
| ColPaliHook.SettledCallsAreIdle | nextjs-frontend/lib/hooks/useColPali.ts:52-154 | every action that goes out and settles leaves its busy flag cleared, and a throw leaves an error that reads as one |
| ColPaliHook.ClearThenSearchShowsNothing | nextjs-frontend/lib/hooks/useColPali.ts:78-154 | a successful clear followed by a search start shows no results, no AI answer and no info |
| ColPaliManager.SelectFiles | nextjs-frontend/components/colpali/ColPaliManager.tsx:29-38 | the selection is the PDF files; the message changes exactly when some file was dropped; nothing else changes |
| ColPaliManager.Refresh | nextjs-frontend/components/colpali/ColPaliManager.tsx:96-106 | the info is stored or the thrown message shown; `loading` ends false |
| ColPaliManager.BeginIndex | nextjs-frontend/components/colpali/ColPaliManager.tsx:40-46 | no selection sets "Please select PDF files to index" and makes no call |
| ColPaliManager.ApplyIndex | nextjs-frontend/components/colpali/ColPaliManager.tsx:47-63 | the outcome's message, and the selection emptied exactly on success |
| ColPaliManager.FinishIndex | nextjs-frontend/components/colpali/ColPaliManager.tsx:40-67 | a success empties the selection and refreshes; a failure only sets the message; `indexing` is reset |
| ColPaliManager.IndexMessageLostWhenRefreshFails | nextjs-frontend/components/colpali/ColPaliManager.tsx:52-58 | a successful index whose refresh throws shows the refresh's error instead of the page count |
| ColPaliManager.BeginSearch | nextjs-frontend/components/colpali/ColPaliManager.tsx:69-81 | a blank query sets a message and makes no call; otherwise message, results and AI answer are cleared and the query sent with k = 5 |
| ColPaliManager.FinishSearch | nextjs-frontend/components/colpali/ColPaliManager.tsx:82-94 | on success results and AI answer are stored, otherwise kept; the outcome's message; `searching` reset |
| ColPaliManager.BeginClear | nextjs-frontend/components/colpali/ColPaliManager.tsx:108-112 | a declined confirmation changes nothing |
| ColPaliManager.ApplyClear | nextjs-frontend/components/colpali/ColPaliManager.tsx:113-128 | a success drops info, results and AI answer; a failure only sets the message |
| ColPaliManager.FinishClear | nextjs-frontend/components/colpali/ColPaliManager.tsx:108-132 | a success ends with no results, no AI answer and the refreshed info; `loading` is reset |
| ColPaliManager.IndexMessageColour | nextjs-frontend/components/colpali/ColPaliManager.tsx:332-337 | a settled successful index reads as success, a thrown one as an error |
| ColPaliManager.SearchMessageColour | nextjs-frontend/components/colpali/ColPaliManager.tsx:332-337 | a settled successful search reads as success, a thrown one as an error |
| ColPaliManager.ClearMessageColour | nextjs-frontend/components/colpali/ColPaliManager.tsx:332-337 | a settled successful clear reads as success, a thrown one as an error |
| ColPaliDashboard.CountAfter | nextjs-frontend/components/colpali/page.tsx:158-163 | an absent field keeps the counter, a null one sets it to 0, a value replaces it |
| ColPaliDashboard.Refresh | nextjs-frontend/components/colpali/page.tsx:153-169 | the manager's refresh; on a returned info each present count replaces its counter; counters stay non-negative |
| ColPaliDashboard.FinishUpload | nextjs-frontend/components/colpali/page.tsx:64-109 | the manager's index completion followed, on success, by the page's refresh |
| ColPaliDashboard.FinishClear | nextjs-frontend/components/colpali/page.tsx:171-212 | on success the manager's clear, both counters set to 0, then the refresh |
| ColPaliDashboard.ClearWithoutCountsZeroes | nextjs-frontend/components/colpali/page.tsx:181-188 | a successful clear whose refresh reports no counts leaves both counters at 0 |
| ColPaliDashboard.DeleteFile | nextjs-frontend/components/colpali/page.tsx:214-222 | every file with the id is removed and the others kept; documents drop by 1 and storage by 0.5, neither below 0 |
| ColPaliDashboard.DeleteTwice | nextjs-frontend/components/colpali/page.tsx:214-217 | deleting the same id again removes nothing more but lowers the count again |
| ColPaliDashboard.DeleteAbsentStillCounts | nextjs-frontend/components/colpali/page.tsx:214-217 | deleting an unlisted id keeps the list but lowers the document count |
| ColPaliDashboard.DeleteKeepsOrder | nextjs-frontend/components/colpali/page.tsx:214-215 | deletion keeps the remaining files in their relative order |
| DocumentChat.BeginSend | nextjs-frontend/components/document-chat.tsx:67-80 | ignored exactly when the trimmed input is empty or a request is in flight; otherwise the trimmed text is appended as a user entry, the input cleared and the request sent |
| DocumentChat.AssistantReply | nextjs-frontend/components/document-chat.tsx:86-116 | an "error" status or a throw gives an error entry "Sorry, I encountered an error: …"; a success gives the answer or its fallback, the images (default none) and the count (default 0) |
| DocumentChat.Finish | nextjs-frontend/components/document-chat.tsx:101-120 | exactly one assistant entry is appended, the error set on failure, and the busy flag cleared |
| DocumentChat.SendAddsPromptAndAnswer | nextjs-frontend/components/document-chat.tsx:67-120 | a send adds exactly the user's trimmed text and the answer, and leaves the panel idle with an error exactly when the answer failed |
| DocumentChat.BeginRegenerate | nextjs-frontend/components/document-chat.tsx:180-198 | index 0 or a non-user entry before it is ignored; past the end it throws; otherwise the transcript is cut to its first `index` entries and that prompt asked again |
| DocumentChat.RegenerateReplacesTail | nextjs-frontend/components/document-chat.tsx:186-229 | the transcript up to the prompt is kept and one new answer follows it |
| DocumentChat.RegenerateLastAnswerKeepsLength | nextjs-frontend/components/document-chat.tsx:186-211 | regenerating the last answer leaves the transcript as long as it was |
| DocumentChat.ClearChat | nextjs-frontend/components/document-chat.tsx:165-168 | the transcript and error are emptied; input, busy flag and settings are kept |
| DocumentChat.DownloadFilename | nextjs-frontend/components/document-chat.tsx:150-151 | the last URL segment, or a time-stamped PNG name when it is empty |
| DocumentChat.ThumbnailDownloadName | nextjs-frontend/components/document-chat.tsx:150-151 | a stored thumbnail downloads as "{id}.png" |
| DocumentChat.TrailingSlashUsesFallback | nextjs-frontend/components/document-chat.tsx:150-151 | a URL ending in '/' downloads under the time-stamped name |
| DashboardLayout.TabOf | nextjs-frontend/app/dashboard/layout.tsx:19-28 | a segment names a tab exactly when it is one of the four tab names |
| DashboardLayout.TabOfName | nextjs-frontend/app/dashboard/layout.tsx:19-28 | every tab name is recognised as its tab |
| DashboardLayout.GetActiveTab | nextjs-frontend/app/dashboard/layout.tsx:16-32 | the tab the last segment names, search otherwise |
| DashboardLayout.PathSelectsTab | nextjs-frontend/app/dashboard/layout.tsx:17-28 | a path ending in a tab's name selects that tab, whatever precedes it |
| DashboardLayout.OnlyLastSegmentCounts | nextjs-frontend/app/dashboard/layout.tsx:17-18 | a tab name earlier in the path is ignored when a non-tab segment follows |
| DashboardLayout.TrailingSlashSelectsSearch | nextjs-frontend/app/dashboard/layout.tsx:29-30 | a trailing slash selects search |
| DashboardLayout.UploadSubpathSelectsSearch | nextjs-frontend/app/dashboard/layout.tsx:17-30 | "/dashboard/upload/x" selects search |
| Strings.SplitJoin | nextjs-frontend/lib/api/colpali.ts:54 | splitting a join of pieces that do not hold the separator's first character gives back the pieces |
| Strings.JoinSplit | fastapi_backend/app/routes/conversation.py:120 | joining a split with its separator gives back the text |
| Strings.LastSegmentAfter | fastapi_backend/app/services/colpali/qdrant_service.py:261 | the last segment of text ending in a separator-free piece is that piece |
| Strings.TrimBlank | fastapi_backend/app/routes/conversation.py:62 | the trimmed text is empty exactly when the text is blank |
| Strings.LowerKeepsContains | fastapi_backend/app/services/colpali/qdrant_service.py:64 | lower-cased text contains the lower-cased form of every pattern the text contains |
| Strings.ParseNatToString | fastapi_backend/app/services/colpali/qdrant_service.py:180 | `str(n)` parses back to n |
| Strings.NatToStringInjective | fastapi_backend/app/services/colpali/qdrant_service.py:180 | distinct numbers have distinct decimal texts |

## Left out

- Embedding, mean pooling, query embedding and scoring are abstract functions. The model supplies them as parameters (`embed`, `score`, `fault`) because they are tensor and floating-point library work.
- Qdrant's `_reranking_search_batch` and `get_collection_info` are remote queries. Their answers are parameters (`remote`, the point list given to `Qdrant.Search`).
- `uuid.uuid4()` and `time.time()` in the backend, and `Date.now()` in the browser, are parameters (`freshId`, `now`, `docIds`, `queueId`).
- PIL resizing and saving, PNG/JPEG encoding, base64 and `pdf2image` are left out. The bucket stores the image value itself. The resized thumbnail and the JPEG/base64 encoder (`jpeg`) are parameters; so are the page conversion (`pages`) and PIL truthiness of a fetched image (a fetched image always counts as present).
- MinIO `__init__` client wiring, `_create_bucket_if_not_exists`, `set_public_policy` and `health_check` are left out: they only call the client and log.
- The progress bar `tqdm` and every log line are left out.
- A queue dropped from a task's subscriber list is still drained by its stream, but the tracker no longer holds it, so `Progress.Receive` reads only queues still on the list.
- `generate_sse_stream`'s exception frame is left out: the modelled loop raises nothing. The 30-second wait is an event that is either an update or a timeout.
- `services/colpali/openai_service.py` (`query_openai`) is a single remote call. Its answer is the parameter `aiAnswer` of `ColPaliService.SearchDocuments`.
- `routes/conversation.py` imports `ConversationRequest` and `ConversationResponse` from `schemas.py`, which defines neither. The model takes the request to carry `prompt` and `top_k`, and the response the fields the route fills in.
- Whitespace is the ASCII set " \t\n\r\v\f" and lower-casing is ASCII only. Python's `str.strip` also strips the separators \x1c-\x1f and Unicode spaces such as \x85 and \xa0; `str.lower` and JavaScript's `trim` likewise act on characters beyond ASCII.
- `fetch`, Next.js server actions (`components/actions/colpali-action.ts`) and the forwarding wrapper `lib/colpali.ts` are left out. A reply or a thrown error is a parameter of each completion.
- Toasts, focus and scroll effects, `copyToClipboard`, the image modal and the keyboard handlers of the chat are presentation only.
- The dashboard page's `handleDownloadFile` only logs. Its `handleSearch` and upload run the same state changes as `ColPaliManager`, so they reuse that module's functions.
- `confirm()` in the clear handlers is a parameter (`confirmed`).
- The chat's `regenerateResponse` reading past the end of the transcript throws inside an async handler. It is modelled as `Crashed` with no state change.
- Qdrant.Payloads: its own contract states only the length; the per-page contents are stated by `Qdrant.PayloadsIndexPages`.
- Conversation.Retrieve: its contract states only the bound on the number of images; which images are retrieved is stated by `Conversation.RetrieveThumbnails` and `Conversation.RetrieveInMemory`.
- MemoryStore.SearchAlignedStore: states only the number of hits when the store is aligned; the content of each hit is stated by `MemoryStore.Search`.
