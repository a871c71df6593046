/** The ColPali dashboard page: the manager's state plus the counters and
    the stored-file list it shows. Selection, upload, search and clearing
    run the same handlers as the manager; the page adds counter updates
    on refresh and clear, and the deletion of a listed file. Toasts are
    left out. */
module ColPaliDashboard {
  import opened Wrappers
  import opened ClientTypes
  import M = ColPaliManager

  /** A row of the storage tab's file list. */
  datatype StoredFile = StoredFile(id: int, name: string)

  datatype Dashboard = Dashboard(core: M.ManagerState, indexedDocs: int, indexedImages: int,
                                 storageUsed: real, totalStorage: real, storedFiles: seq<StoredFile>)

  /** The counters the page shows are never negative. */
  predicate CountersNonNegative(d: Dashboard) {
    d.indexedDocs >= 0 && d.indexedImages >= 0 && d.storageUsed >= 0.0
  }

  function MaxInt(a: int, b: int): int {
    if a >= b then a else b
  }

  function MaxReal(a: real, b: real): real {
    if a >= b then a else b
  }

  /** A counter after a refresh: an absent field keeps the old value, a
      null one reads as 0. */
  function CountAfter(field: JsField<int>, previous: int): (n: int)
    ensures field.Undefined? ==> n == previous
    ensures field.Null? ==> n == 0
    ensures field.Defined? ==> n == field.value
  {
    match field
    case Undefined => previous
    case Null => 0
    case Defined(v) => v
  }

  /** `refreshCollectionInfo` completed: the manager's refresh, and on a
      returned info each counter whose field is present is replaced. */
  function Refresh(d: Dashboard, reply: Call<CollectionInfo>): (r: Dashboard)
    ensures r.core == M.Refresh(d.core, reply)
    ensures reply.Threw? ==> r.indexedDocs == d.indexedDocs && r.indexedImages == d.indexedImages
    ensures reply.Returned? ==>
      && r.indexedDocs == CountAfter(reply.value.indexedDocuments, d.indexedDocs)
      && r.indexedImages == CountAfter(reply.value.indexedImages, d.indexedImages)
    ensures r.storageUsed == d.storageUsed && r.storedFiles == d.storedFiles
    ensures CountersNonNegative(d) && (reply.Returned? ==> InfoCountsNonNegative(reply.value)) ==>
      CountersNonNegative(r)
  {
    var core := M.Refresh(d.core, reply);
    match reply
    case Threw(_) => d.(core := core)
    case Returned(info) =>
      d.(core := core,
         indexedDocs := CountAfter(info.indexedDocuments, d.indexedDocs),
         indexedImages := CountAfter(info.indexedImages, d.indexedImages))
  }

  /** The counts an info reply carries are not negative. */
  predicate InfoCountsNonNegative(info: CollectionInfo) {
    (info.indexedDocuments.Defined? ==> info.indexedDocuments.value >= 0)
    && (info.indexedImages.Defined? ==> info.indexedImages.value >= 0)
  }

  /** `handleFileUpload` completed: the manager's index completion, with
      the page's refresh after a success. */
  function FinishUpload(d: Dashboard, sent: nat, reply: Call<IndexResponse>, info: Call<CollectionInfo>): (r: Dashboard)
    ensures !r.core.indexing
    ensures r.core.message == (if IndexOutcome(reply, sent).succeeded && info.Threw?
                               then ThrownMessage(InfoErrorLead, info.error)
                               else IndexOutcome(reply, sent).message)
    ensures IndexOutcome(reply, sent).succeeded ==>
      && r.core.files == [] && !r.core.loading
      && r.indexedDocs == (if info.Returned? then CountAfter(info.value.indexedDocuments, d.indexedDocs) else d.indexedDocs)
      && r.indexedImages == (if info.Returned? then CountAfter(info.value.indexedImages, d.indexedImages) else d.indexedImages)
    ensures !IndexOutcome(reply, sent).succeeded ==> r == d.(core := M.FinishIndex(d.core, sent, reply, info))
  {
    var (t, ok) := M.ApplyIndex(d.core, sent, reply);
    var after := if ok then Refresh(d.(core := t), info) else d.(core := t);
    after.(core := after.core.(indexing := false))
  }

  /** `handleClearCollection` completed: on success the manager's clear,
      both counters set to 0, then the page's refresh. */
  function FinishClear(d: Dashboard, reply: Call<ClearResponse>, info: Call<CollectionInfo>): (r: Dashboard)
    ensures !r.core.loading
    ensures ClearOutcome(reply).succeeded ==>
      && r.core.searchResults == [] && r.core.aiResponse == ""
      && r.indexedDocs == (if info.Returned? then CountAfter(info.value.indexedDocuments, 0) else 0)
      && r.indexedImages == (if info.Returned? then CountAfter(info.value.indexedImages, 0) else 0)
    ensures !ClearOutcome(reply).succeeded ==> r == d.(core := M.FinishClear(d.core, reply, info))
    ensures r.storageUsed == d.storageUsed && r.storedFiles == d.storedFiles
  {
    var (t, ok) := M.ApplyClear(d.core, reply);
    var after := if ok then Refresh(d.(core := t, indexedDocs := 0, indexedImages := 0), info) else d.(core := t);
    after.(core := after.core.(loading := false))
  }

  /** A successful clear whose refresh reports no counts leaves both
      counters at 0. */
  lemma ClearWithoutCountsZeroes(d: Dashboard, reply: Call<ClearResponse>, info: CollectionInfo)
    requires ClearOutcome(reply).succeeded
    requires info.indexedDocuments.Undefined? || info.indexedDocuments.Null?
    requires info.indexedImages.Undefined? || info.indexedImages.Null?
    ensures FinishClear(d, reply, Returned(info)).indexedDocs == 0
    ensures FinishClear(d, reply, Returned(info)).indexedImages == 0
  {
  }

  // -----------------------------------------------------------------------
  // Deleting a listed file
  // -----------------------------------------------------------------------

  function OtherThan(id: int): StoredFile -> bool {
    (f: StoredFile) => f.id != id
  }

  /** `handleDeleteFile(id)`: every listed file with that id goes, the
      others stay in order; the document count drops by 1 and the storage
      figure by 0.5, neither below 0. */
  function DeleteFile(d: Dashboard, id: int): (r: Dashboard)
    ensures r.storedFiles == Filter(d.storedFiles, OtherThan(id))
    ensures forall f :: f in r.storedFiles ==> f.id != id && f in d.storedFiles
    ensures forall f :: f in d.storedFiles && f.id != id ==> f in r.storedFiles
    ensures r.indexedDocs >= 0 && r.storageUsed >= 0.0
    ensures d.indexedDocs >= 1 ==> r.indexedDocs == d.indexedDocs - 1
    ensures d.indexedDocs <= 1 ==> r.indexedDocs == 0
    ensures d.storageUsed >= 0.5 ==> r.storageUsed == d.storageUsed - 0.5
    ensures d.storageUsed <= 0.5 ==> r.storageUsed == 0.0
    ensures r.core == d.core && r.indexedImages == d.indexedImages && r.totalStorage == d.totalStorage
    ensures CountersNonNegative(d) ==> CountersNonNegative(r)
  {
    d.(storedFiles := Filter(d.storedFiles, OtherThan(id)),
       storageUsed := MaxReal(0.0, d.storageUsed - 0.5),
       indexedDocs := MaxInt(0, d.indexedDocs - 1))
  }

  /** Deleting an id a second time removes nothing more, yet the counters
      drop again: they are not tied to the list. */
  lemma DeleteTwice(d: Dashboard, id: int)
    requires d.indexedDocs >= 2
    ensures DeleteFile(DeleteFile(d, id), id).storedFiles == DeleteFile(d, id).storedFiles
    ensures DeleteFile(DeleteFile(d, id), id).indexedDocs == d.indexedDocs - 2
  {
    FilterIdempotent(d.storedFiles, OtherThan(id));
  }

  /** Deleting an id that is not listed keeps the list but still lowers
      the document count. */
  lemma DeleteAbsentStillCounts(d: Dashboard, id: int)
    requires forall i :: 0 <= i < |d.storedFiles| ==> d.storedFiles[i].id != id
    requires d.indexedDocs >= 1
    ensures DeleteFile(d, id).storedFiles == d.storedFiles
    ensures DeleteFile(d, id).indexedDocs == d.indexedDocs - 1
  {
    FilterKeepsAll(d.storedFiles, OtherThan(id));
  }

  /** Deleting keeps the relative order of the remaining files. */
  lemma DeleteKeepsOrder(d: Dashboard, id: int, a: seq<StoredFile>, b: seq<StoredFile>)
    requires d.storedFiles == a + b
    ensures DeleteFile(d, id).storedFiles == Filter(a, OtherThan(id)) + Filter(b, OtherThan(id))
  {
    FilterConcat(a, b, OtherThan(id));
  }
}
