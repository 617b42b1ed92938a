/** The storage handler of pkg/dao/handler.go over an in-memory store: the
    metadata collection is a map from record id to document, the GridFS bucket
    a map from blob id to bytes. Each driver call can fail; which one fails is
    an input (`Fault`), and every method states the store it leaves behind for
    each outcome. */
module Dao {
  import opened Outcomes
  import opened Models

  /** The driver calls the handler makes, each a point where it can fail.
      A GridFS delete is two: removing the files document, then the chunks. */
  datatype Step =
    | NewBucket
    | OpenUploadStream
    | WriteStream
    | InsertOne
    | FindOne
    | DownloadToStream
    | FindOneAndDelete
    | DeleteFilesDoc
    | DeleteChunks
    | FindOneAndUpdate
    | Find
    | CursorAll

  /** The failure injected into one handler call: none, a driver error at a
      step, or an insert that reports no inserted id. */
  datatype Fault = NoFault | FailAt(step: Step) | NoInsertedId

  /** The errors a handler call returns: no matching record
      (mongo.ErrNoDocuments), no such blob (gridfs.ErrFileNotFound), a record
      that does not decode, "no file inserted", an update of the immutable
      `_id`, or a driver error at a step. */
  datatype StoreError =
    | NoDocuments
    | FileNotFound
    | DecodeFailed
    | NoFileInserted
    | ImmutableIdField
    | Driver(step: Step)

  /** The update document `{"$set": fields}`. */
  datatype Update = Set(fields: Doc)

  /** The caller's `*models.FileRequest`, which UploadFile stamps in place. */
  class FileRequestRef {
    var record: FileRequest

    constructor(record: FileRequest)
      ensures this.record == record
    {
      this.record := record;
    }
  }

  // ---------------------------------------------------------------------
  // Filters and $set, as the store applies them

  /** One filter entry against the record stored under `id`: `_id` compares
      the record id; any other key compares the field, an absent field
      matching only null. */
  predicate FieldMatches(id: ObjectId, d: Doc, key: string, v: Value) {
    if key == IdKey then v == VObjectId(id)
    else if key in d then d[key] == v
    else v == VNull
  }

  /** A record matches a filter when it matches every entry. */
  predicate Matches(id: ObjectId, d: Doc, query: Doc) {
    forall key :: key in query ==> FieldMatches(id, d, key, query[key])
  }

  /** The ids from `n` up to `bound` of the records matching `query`, in
      ascending order. */
  function MatchingFrom(records: map<ObjectId, Doc>, query: Doc, n: nat, bound: nat): (ids: seq<ObjectId>)
    decreases bound - n
    ensures forall i :: 0 <= i < |ids| ==>
      ids[i] in records && Matches(ids[i], records[ids[i]], query) && n <= ids[i].n < bound
    ensures forall id :: id in records && n <= id.n < bound && Matches(id, records[id], query) ==> id in ids
    ensures forall i, j :: 0 <= i < j < |ids| ==> ids[i].n < ids[j].n
  {
    if n >= bound then []
    else
      var rest := MatchingFrom(records, query, n + 1, bound);
      if ObjectId(n) in records && Matches(ObjectId(n), records[ObjectId(n)], query) then [ObjectId(n)] + rest
      else rest
  }

  /** cursor.All: every listed record decoded, or nothing if one fails. */
  function DecodeAll(records: map<ObjectId, Doc>, ids: seq<ObjectId>): (r: Option<seq<FileResponse>>)
    requires forall i :: 0 <= i < |ids| ==> ids[i] in records
    ensures r.Some? <==> forall i :: 0 <= i < |ids| ==> DecodeFileResponse(ids[i], records[ids[i]]).Some?
    ensures r.Some? ==> |r.value| == |ids|
    ensures r.Some? ==> forall i :: 0 <= i < |ids| ==> r.value[i] == DecodeFileResponse(ids[i], records[ids[i]]).value
  {
    if ids == [] then Some([])
    else
      var first :- DecodeFileResponse(ids[0], records[ids[0]]);
      var rest :- DecodeAll(records, ids[1..]);
      Some([first] + rest)
  }

  /** The listing is missing only when some matching record does not
      decode. */
  lemma ListingFailsOnlyOnUndecodable(records: map<ObjectId, Doc>, query: Doc, bound: nat)
    requires DecodeAll(records, MatchingFrom(records, query, 1, bound)).None?
    ensures exists id :: id in records && Matches(id, records[id], query) && DecodeFileResponse(id, records[id]).None?
  {
    var ids := MatchingFrom(records, query, 1, bound);
    var i :| 0 <= i < |ids| && DecodeFileResponse(ids[i], records[ids[i]]).None?;
    var id := ids[i];
    assert id in records && Matches(id, records[id], query) && DecodeFileResponse(id, records[id]).None?;
  }

  /** When the listing is present every matching record decodes. */
  lemma ListingDecodesAllMatches(records: map<ObjectId, Doc>, query: Doc, bound: nat)
    requires forall id :: id in records ==> 0 < id.n < bound
    requires DecodeAll(records, MatchingFrom(records, query, 1, bound)).Some?
    ensures forall id :: id in records && Matches(id, records[id], query) ==> DecodeFileResponse(id, records[id]).Some?
  {
    var ids := MatchingFrom(records, query, 1, bound);
    forall id | id in records && Matches(id, records[id], query)
      ensures DecodeFileResponse(id, records[id]).Some?
    {
      var i :| 0 <= i < |ids| && ids[i] == id;
    }
  }

  /** The listing holds only matching records, each decoded under its own
      id, in ascending id order. */
  lemma ListingSound(records: map<ObjectId, Doc>, query: Doc, bound: nat)
    ensures var r := DecodeAll(records, MatchingFrom(records, query, 1, bound));
      && (r.Some? ==> forall i :: 0 <= i < |r.value| ==>
            && r.value[i].id in records && Matches(r.value[i].id, records[r.value[i].id], query)
            && r.value[i] == DecodeFileResponse(r.value[i].id, records[r.value[i].id]).value)
      && (r.Some? ==> forall i, j :: 0 <= i < j < |r.value| ==> r.value[i].id.n < r.value[j].id.n)
  {
    var ids := MatchingFrom(records, query, 1, bound);
    var r := DecodeAll(records, ids);
    if r.Some? {
      assert forall i :: 0 <= i < |ids| ==> r.value[i].id == ids[i];
    }
  }

  /** The listing holds every matching record. */
  lemma ListingComplete(records: map<ObjectId, Doc>, query: Doc, bound: nat)
    requires forall id :: id in records ==> 0 < id.n < bound
    ensures var r := DecodeAll(records, MatchingFrom(records, query, 1, bound));
      r.Some? ==> forall id :: id in records && Matches(id, records[id], query) ==>
        exists i :: 0 <= i < |r.value| && r.value[i].id == id
  {
    var ids := MatchingFrom(records, query, 1, bound);
    var r := DecodeAll(records, ids);
    if r.Some? {
      forall id | id in records && Matches(id, records[id], query)
        ensures exists i :: 0 <= i < |r.value| && r.value[i].id == id
      {
        var i :| 0 <= i < |ids| && ids[i] == id;
        assert r.value[i].id == id;
      }
    }
  }

  /** `$set` on a stored document: the fields are written over it; `_id`
      is not part of the stored document and is never written. */
  function ApplySet(d: Doc, fields: Doc): (e: Doc)
    ensures e.Keys == d.Keys + (fields.Keys - {IdKey})
    ensures forall key :: key in fields && key != IdKey ==> e[key] == fields[key]
    ensures forall key :: key in d && key !in fields ==> e[key] == d[key]
  {
    d + (fields - {IdKey})
  }

  /** Setting only fields outside the record's own leaves the decoded
      record as it was. */
  lemma ApplySetOtherFields(d: Doc, fields: Doc)
    requires fields.Keys !! RecordKeys
    ensures DecodeFileRequest(ApplySet(d, fields)) == DecodeFileRequest(d)
  {
    DecodeIgnoresOtherFields(d, fields - {IdKey});
  }

  /** The update body is not restricted to the record's editable fields: a
      `$set` of `fileBytes` points the record at another blob. */
  lemma ApplySetRetargetsBlob(d: Doc, other: ObjectId)
    requires DecodeFileRequest(d).Some?
    ensures DecodeFileRequest(ApplySet(d, map[FileBytesKey := VObjectId(other)]))
         == Some(DecodeFileRequest(d).value.(fileId := other))
  {
    assert ApplySet(d, map[FileBytesKey := VObjectId(other)]) == d[FileBytesKey := VObjectId(other)];
    SetFileBytesRetargets(d, other);
  }

  /** The update body comes from JSON, which has no ObjectID: a blob id
      sent as its hex string in `fileBytes` is stored as a string, which
      the decoder reads back as that id. */
  lemma ApplySetHexRetargetsBlob(d: Doc, other: ObjectId)
    requires DecodeFileRequest(d).Some? && other.n < ObjectIdBound
    ensures DecodeFileRequest(ApplySet(d, map[FileBytesKey := VString(ObjectIdHex(other))]))
         == Some(DecodeFileRequest(d).value.(fileId := other))
  {
    var hex := ObjectIdHex(other);
    assert ApplySet(d, map[FileBytesKey := VString(hex)]) == d[FileBytesKey := VString(hex)];
    ObjectIdFromHexOfHex(other);
    SetFileBytesToString(d, hex);
  }

  /** The record under `id` decodes and names a blob the bucket holds. */
  predicate NamesStoredBlob(records: map<ObjectId, Doc>, blobs: map<ObjectId, Bytes>, id: ObjectId) {
    id in records && DecodeFileRequest(records[id]).Some? && DecodeFileRequest(records[id]).value.fileId in blobs
  }

  /** The loop of UpdateFileInfo: copies every key and value of the request
      into the `$set` document, and nothing else. */
  method BuildSetUpdate(request: Doc) returns (update: Update)
    ensures update == Set(request)
  {
    var updates: Doc := map[];
    var pending := request.Keys;
    while pending != {}
      invariant pending <= request.Keys
      invariant updates.Keys == request.Keys - pending
      invariant forall key :: key in updates ==> updates[key] == request[key]
      decreases pending
    {
      var key :| key in pending;
      updates := updates[key := request[key]];
      pending := pending - {key};
    }
    update := Set(updates);
  }

  // ---------------------------------------------------------------------
  // The handler

  class Handler {
    /** The metadata collection: documents by record id. */
    var records: map<ObjectId, Doc>
    /** The GridFS bucket: file contents by blob id. */
    var blobs: map<ObjectId, Bytes>
    /** The next fresh ObjectID. */
    var nextId: nat

    /** Every id in use was issued before `nextId`, none is NilObjectID, and
        stored documents hold no `_id` of their own. */
    ghost predicate Valid()
      reads this
    {
      && 0 < nextId
      && (forall id :: id in records ==> 0 < id.n < nextId && IdKey !in records[id])
      && (forall id :: id in blobs ==> 0 < id.n < nextId)
    }

    constructor()
      ensures Valid()
      ensures records == map[] && blobs == map[] && nextId == 1
    {
      records := map[];
      blobs := map[];
      nextId := 1;
    }

    /** UploadFile: writes the blob under a fresh id, stamps that id into the
        caller's record, then inserts the record under another fresh id. A
        failure before the write leaves the store and the record as they
        were; a failed insert leaves the blob without a record. */
    method UploadFile(request: FileRequestRef, data: Bytes, fault: Fault) returns (err: Option<StoreError>)
      requires Valid()
      modifies this, request
      ensures Valid()
      ensures fault in {FailAt(NewBucket), FailAt(OpenUploadStream), FailAt(WriteStream)} ==>
        && err == Some(Driver(fault.step))
        && records == old(records) && blobs == old(blobs) && request.record == old(request.record)
      ensures fault !in {FailAt(NewBucket), FailAt(OpenUploadStream), FailAt(WriteStream)} ==>
        var blobId := ObjectId(old(nextId));
        && blobId !in old(blobs)
        && blobs == old(blobs)[blobId := data]
        && request.record == old(request.record).(fileId := blobId)
      ensures fault == FailAt(InsertOne) ==> err == Some(Driver(InsertOne)) && records == old(records)
      ensures fault == NoInsertedId ==> err == Some(NoFileInserted) && records == old(records)
      ensures nextId == old(nextId) + (
        if fault in {FailAt(NewBucket), FailAt(OpenUploadStream), FailAt(WriteStream)} then 0
        else if fault in {FailAt(InsertOne), NoInsertedId} then 1
        else 2)
      ensures !(fault.FailAt? && fault.step in {NewBucket, OpenUploadStream, WriteStream, InsertOne}) && fault != NoInsertedId ==>
        var recordId := ObjectId(old(nextId) + 1);
        && err == None
        && recordId !in old(records)
        && records == old(records)[recordId := EncodeFileRequest(request.record)]
    {
      if fault == FailAt(NewBucket) {
        return Some(Driver(NewBucket));
      }
      if fault == FailAt(OpenUploadStream) {
        return Some(Driver(OpenUploadStream));
      }
      if fault == FailAt(WriteStream) {
        return Some(Driver(WriteStream));
      }
      var blobId := PutBlob(data);
      request.record := request.record.(fileId := blobId);
      if fault == FailAt(InsertOne) {
        return Some(Driver(InsertOne));
      }
      if fault == NoInsertedId {
        return Some(NoFileInserted);
      }
      var recordId := InsertRecord(EncodeFileRequest(request.record));
      return None;
    }

    /** Stores `data` in the bucket under a fresh id. */
    method PutBlob(data: Bytes) returns (blobId: ObjectId)
      requires Valid()
      modifies this
      ensures Valid()
      ensures blobId == ObjectId(old(nextId)) && blobId !in old(blobs)
      ensures blobs == old(blobs)[blobId := data] && records == old(records) && nextId == old(nextId) + 1
    {
      blobId := ObjectId(nextId);
      blobs := blobs[blobId := data];
      nextId := nextId + 1;
    }

    /** Inserts the document `d` into the collection under a fresh id. */
    method InsertRecord(d: Doc) returns (recordId: ObjectId)
      requires Valid() && IdKey !in d
      modifies this
      ensures Valid()
      ensures recordId == ObjectId(old(nextId)) && recordId !in old(records)
      ensures records == old(records)[recordId := d] && blobs == old(blobs) && nextId == old(nextId) + 1
    {
      recordId := ObjectId(nextId);
      records := records[recordId := d];
      nextId := nextId + 1;
    }

    /** GetFile: looks the record up by its id, decodes it, and returns the
        blob its `fileBytes` names. A failed lookup returns its error without
        reading any blob. */
    method GetFile(id: ObjectId, fault: Fault) returns (data: Result<Bytes, StoreError>)
      requires Valid()
      ensures fault == FailAt(FindOne) ==> data == Err(Driver(FindOne))
      ensures fault != FailAt(FindOne) && id !in records ==> data == Err(NoDocuments)
      ensures fault != FailAt(FindOne) && id in records && DecodeFileRequest(records[id]).None? ==>
        data == Err(DecodeFailed)
      ensures data.Ok? <==>
        && fault !in {FailAt(FindOne), FailAt(NewBucket), FailAt(DownloadToStream)}
        && id in records && DecodeFileRequest(records[id]).Some?
        && DecodeFileRequest(records[id]).value.fileId in blobs
      ensures data.Ok? ==> data.value == blobs[DecodeFileRequest(records[id]).value.fileId]
      ensures fault != FailAt(FindOne) && id in records && DecodeFileRequest(records[id]).Some? && data.Err? ==>
        data.error == (
          if fault == FailAt(NewBucket) then Driver(NewBucket)
          else if fault == FailAt(DownloadToStream) then Driver(DownloadToStream)
          else FileNotFound)
    {
      if fault == FailAt(FindOne) {
        return Err(Driver(FindOne));
      }
      if id !in records {
        return Err(NoDocuments);
      }
      var decoded := DecodeFileRequest(records[id]);
      if decoded.None? {
        return Err(DecodeFailed);
      }
      if fault == FailAt(NewBucket) {
        return Err(Driver(NewBucket));
      }
      var fileId := decoded.value.fileId;
      if fault == FailAt(DownloadToStream) {
        return Err(Driver(DownloadToStream));
      }
      if fileId !in blobs {
        return Err(FileNotFound);
      }
      return Ok(blobs[fileId]);
    }

    /** DeleteFile: removes the record first, then the blob it names, whose
        files document GridFS removes before its chunks. Once the record is
        found it stays removed whatever follows; the blob is gone once its
        files document is, even when removing the chunks then fails. */
    method DeleteFile(id: ObjectId, fault: Fault) returns (err: Option<StoreError>)
      requires Valid()
      modifies this
      ensures Valid() && nextId == old(nextId)
      ensures fault == FailAt(FindOneAndDelete) ==>
        err == Some(Driver(FindOneAndDelete)) && records == old(records) && blobs == old(blobs)
      ensures fault != FailAt(FindOneAndDelete) && id !in old(records) ==>
        err == Some(NoDocuments) && records == old(records) && blobs == old(blobs)
      ensures fault != FailAt(FindOneAndDelete) && id in old(records) ==> records == old(records) - {id}
      ensures err.None? <==>
        && fault !in {FailAt(FindOneAndDelete), FailAt(NewBucket), FailAt(DeleteFilesDoc), FailAt(DeleteChunks)}
        && NamesStoredBlob(old(records), old(blobs), id)
      ensures fault == FailAt(DeleteChunks) && NamesStoredBlob(old(records), old(blobs), id) ==>
        err == Some(Driver(DeleteChunks))
      ensures fault !in {FailAt(FindOneAndDelete), FailAt(NewBucket), FailAt(DeleteFilesDoc)}
              && NamesStoredBlob(old(records), old(blobs), id) ==>
        blobs == old(blobs) - {DecodeFileRequest(old(records)[id]).value.fileId}
      ensures !(fault !in {FailAt(FindOneAndDelete), FailAt(NewBucket), FailAt(DeleteFilesDoc)}
                && NamesStoredBlob(old(records), old(blobs), id)) ==>
        blobs == old(blobs)
      ensures fault != FailAt(FindOneAndDelete) && id in old(records) ==>
        var decoded := DecodeFileRequest(old(records)[id]);
        err == (
          if decoded.None? then Some(DecodeFailed)
          else if fault == FailAt(NewBucket) then Some(Driver(NewBucket))
          else if fault == FailAt(DeleteFilesDoc) then Some(Driver(DeleteFilesDoc))
          else if decoded.value.fileId !in old(blobs) then Some(FileNotFound)
          else if fault == FailAt(DeleteChunks) then Some(Driver(DeleteChunks))
          else None)
    {
      if fault == FailAt(FindOneAndDelete) {
        return Some(Driver(FindOneAndDelete));
      }
      if id !in records {
        return Some(NoDocuments);
      }
      var removed := records[id];
      records := records - {id};
      var decoded := DecodeFileRequest(removed);
      if decoded.None? {
        return Some(DecodeFailed);
      }
      if fault == FailAt(NewBucket) {
        return Some(Driver(NewBucket));
      }
      var fileId := decoded.value.fileId;
      if fault == FailAt(DeleteFilesDoc) {
        return Some(Driver(DeleteFilesDoc));
      }
      if fileId !in blobs {
        return Some(FileNotFound);
      }
      blobs := blobs - {fileId};
      if fault == FailAt(DeleteChunks) {
        return Some(Driver(DeleteChunks));
      }
      return None;
    }

    /** UpdateFileInfo: copies the request into `{"$set": ...}` and applies
        it to the record with that id. A missing record, a change of `_id`
        and a driver error are returned; nothing else changes. */
    method UpdateFileInfo(id: ObjectId, request: Doc, fault: Fault) returns (err: Option<StoreError>)
      requires Valid()
      modifies this
      ensures Valid()
      ensures blobs == old(blobs) && nextId == old(nextId)
      ensures fault == FailAt(FindOneAndUpdate) ==> err == Some(Driver(FindOneAndUpdate))
      ensures fault != FailAt(FindOneAndUpdate) && id !in old(records) ==> err == Some(NoDocuments)
      ensures (fault != FailAt(FindOneAndUpdate) && id in old(records)
               && IdKey in request && request[IdKey] != VObjectId(id)) ==> err == Some(ImmutableIdField)
      ensures err.None? <==>
        && fault != FailAt(FindOneAndUpdate) && id in old(records)
        && (IdKey in request ==> request[IdKey] == VObjectId(id))
      ensures err.Some? ==> records == old(records)
      ensures err.None? ==> records == old(records)[id := ApplySet(old(records)[id], request)]
    {
      var update := BuildSetUpdate(request);
      if fault == FailAt(FindOneAndUpdate) {
        return Some(Driver(FindOneAndUpdate));
      }
      if id !in records {
        return Some(NoDocuments);
      }
      if IdKey in update.fields && update.fields[IdKey] != VObjectId(id) {
        return Some(ImmutableIdField);
      }
      records := records[id := ApplySet(records[id], update.fields)];
      return None;
    }

    /** GetFiles: the records matching the filter, as passed, in id order;
        an error from the find or from decoding returns no results. */
    method GetFiles(query: Doc, fault: Fault) returns (r: Result<seq<FileResponse>, StoreError>)
      requires Valid()
      ensures fault == FailAt(Find) ==> r == Err(Driver(Find))
      ensures fault == FailAt(CursorAll) ==> r == Err(Driver(CursorAll))
      ensures fault !in {FailAt(Find), FailAt(CursorAll)} && r.Err? ==> r == Err(DecodeFailed)
      ensures r.Ok? <==>
        && fault !in {FailAt(Find), FailAt(CursorAll)}
        && forall id :: id in records && Matches(id, records[id], query) ==> DecodeFileResponse(id, records[id]).Some?
      ensures r.Ok? ==> forall i :: 0 <= i < |r.value| ==>
        && r.value[i].id in records && Matches(r.value[i].id, records[r.value[i].id], query)
        && r.value[i] == DecodeFileResponse(r.value[i].id, records[r.value[i].id]).value
      ensures r.Ok? ==> forall id :: id in records && Matches(id, records[id], query) ==>
        exists i :: 0 <= i < |r.value| && r.value[i].id == id
      ensures r.Ok? ==> forall i, j :: 0 <= i < j < |r.value| ==> r.value[i].id.n < r.value[j].id.n
    {
      if fault == FailAt(Find) {
        return Err(Driver(Find));
      }
      var ids := MatchingFrom(records, query, 1, nextId);
      if fault == FailAt(CursorAll) {
        return Err(Driver(CursorAll));
      }
      var decoded := DecodeAll(records, ids);
      if decoded.None? {
        ListingFailsOnlyOnUndecodable(records, query, nextId);
      } else {
        ListingDecodesAllMatches(records, query, nextId);
      }
      ListingSound(records, query, nextId);
      ListingComplete(records, query, nextId);
      if decoded.None? {
        return Err(DecodeFailed);
      }
      return Ok(decoded.value);
    }
  }

  // ---------------------------------------------------------------------
  // Sequences of calls

  /** Uploading and then fetching the new record returns exactly the bytes
      written; if the upload failed there is no record to fetch. */
  method UploadThenDownload(h: Handler, request: FileRequestRef, data: Bytes, fault: Fault)
    returns (err: Option<StoreError>, got: Result<Bytes, StoreError>)
    requires h.Valid()
    modifies h, request
    ensures h.Valid()
    ensures err.None? ==> got == Ok(data)
    ensures err.Some? ==> got == Err(NoDocuments)
  {
    var recordId := ObjectId(h.nextId + 1);
    err := h.UploadFile(request, data, fault);
    if err.None? {
      DecodeEncode(request.record);
    }
    got := h.GetFile(recordId, NoFault);
  }

  /** Once DeleteFile has found the record, the record is gone, whether or
      not its blob could be removed. */
  method DeleteThenDownload(h: Handler, id: ObjectId, fault: Fault)
    returns (err: Option<StoreError>, got: Result<Bytes, StoreError>)
    requires h.Valid()
    modifies h
    ensures h.Valid()
    ensures fault != FailAt(FindOneAndDelete) ==> got == Err(NoDocuments)
  {
    err := h.DeleteFile(id, fault);
    got := h.GetFile(id, NoFault);
  }

  /** An update whose JSON body sets `fileBytes` to another blob's hex id
      repoints the record: fetching it then returns that blob's bytes. */
  method RetargetThenDownload(h: Handler, id: ObjectId, other: ObjectId)
    returns (err: Option<StoreError>, got: Result<Bytes, StoreError>)
    requires h.Valid()
    requires id in h.records && DecodeFileRequest(h.records[id]).Some?
    requires other in h.blobs && other.n < ObjectIdBound
    modifies h
    ensures h.Valid()
    ensures h.blobs == old(h.blobs) && err == None && got == Ok(old(h.blobs)[other])
  {
    var body := map[FileBytesKey := VString(ObjectIdHex(other))];
    ApplySetHexRetargetsBlob(h.records[id], other);
    err := h.UpdateFileInfo(id, body, NoFault);
    got := h.GetFile(id, NoFault);
  }
}
