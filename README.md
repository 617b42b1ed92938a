# content-service-api in Dafny

A model of the request handling and storage core of content-service-api, a
small Go HTTP service that stores uploaded files. The bytes go to a GridFS
bucket, a metadata record goes to a MongoDB collection, and every route but
the health check is gated by a bearer token that an external service validates.

The model has five modules:

- `Outcomes` (outcomes.dfy): `Option` and `Result`.
- `Models` (models.dfy): the `FileRequest` and `FileResponse` records of
  models/file.go, and the BSON document each is stored as, with the
  encode/decode pair between them. Times are stored as whole milliseconds,
  and the decoder reads a string naming an ObjectID as that id.
- `GoLib` (golib.dfy): the Go library functions the core depends on, stated
  exactly:
  - `strings.Split` on one character, with `strings.Join` as its partner;
  - `strconv.Atoi` for a 64-bit `int`, with `strconv.Itoa` as its partner;
  - `filepath.Ext` with `/` as the separator.
- `Api` (api.dfy): the pieces of pkg/api/api.go:
  - `getAuthToken`;
  - the `getFiles` filter loop, as the method `BuildFilter` proved against the
    function `QueryFilter`;
  - the upload record;
  - the six handlers. Each handler is a function from what its collaborators
    answer to the calls it makes and the response it writes. The token
    validator is a function `string -> Option<string>`. The store's replies,
    the id parse, the form read and the body decode are inputs. `Serve`
    dispatches a `Route` to its handler. `ChecksOf`, `Passes` and
    `FirstFailure` are an independent reference: each route's checks in order,
    the first that fails, the status it maps to, and the calls made up to it.
    `ServeFollowsCheckOrder` proves that every handler agrees with the
    reference.
- `Dao` (dao.dfy): the storage handler of pkg/dao/handler.go as a class
  `Handler` over the metadata collection (`records`, a map from record id to
  document) and the bucket (`blobs`, a map from blob id to bytes). Which
  driver call fails is an input (`Fault`). Every method states the store it
  leaves behind for each outcome.

Three behaviours of the code are worth knowing, and the model follows them:

- An update passes the request's keys to `$set` unfiltered;
  `models.FileUpdateRequest` is never used. An update can therefore repoint
  a record at another blob: `Dao.ApplySetHexRetargetsBlob` and
  `Dao.RetargetThenDownload` show it for a JSON body that sends the blob's
  hex id in `fileBytes`.
- Any error the token validator returns, an unreachable validation service
  included, answers 401 (pkg/api/api.go:107-110).
- `UploadFile` returns only an error. It stamps the new blob id into the
  caller's record (pkg/dao/handler.go:86), and no record id is returned.

## Model

| member | source | states |
|---|---|---|
| Models.EncodeFileRequest | models/file.go:9-16 | the stored document holds exactly the six bson fields of a FileRequest |
| Models.TruncateToMillis | models/file.go:11 | a stored time reads back rounded down to a whole millisecond: at most 1ms earlier, and unchanged when already whole |
| Models.ObjectIdFromString | pkg/dao/handler.go:46 | the decoder accepts a string for an ObjectID exactly when it is 24 hex digits or 12 bytes long, and the id it gives fits in twelve bytes |
| Models.ObjectIdFromHexOfHex | pkg/dao/handler.go:46 | the decoder reads back the hex form of every ObjectID |
| Models.DecodeFileRequest | pkg/dao/handler.go:46 | decoding succeeds exactly when each of the six fields is absent, null or of its own kind (for `fileBytes`, also a string naming an ObjectID); the record's blob reference is its `fileBytes` field |
| Models.DecodeFileResponse | models/file.go:26-34 | a listed record decodes exactly when its fields do, and carries the `_id` it is stored under |
| Models.DecodeEncode | models/file.go:9-16 | a stored FileRequest reads back as the record written, its timestamp rounded down to a whole millisecond |
| Models.EncodeDecodeEncode | models/file.go:9-16 | a record read back from the store is stored again as the same document |
| Models.DecodeIgnoresOtherFields | models/file.go:9-16 | fields outside the record's own do not change the decoded record |
| Models.SetFileBytesRetargets | models/file.go:14 | setting `fileBytes` to an ObjectID changes only the record's blob reference |
| Models.SetFileBytesToString | pkg/dao/handler.go:46-56 | setting `fileBytes` to a string that names an ObjectID repoints the record at that id and changes nothing else; any other string makes the record undecodable |
| GoLib.Split | pkg/api/api.go:384 | strings.Split on one character gives one more piece than there are separators, and no piece contains one |
| GoLib.JoinSplit | pkg/api/api.go:384 | joining the pieces with the separator gives back the string |
| GoLib.SplitWithoutSeparator | pkg/api/api.go:384 | a string without the separator splits into itself alone |
| GoLib.SplitAfterHead | pkg/api/api.go:384 | a separator-free head is split off as the first piece |
| GoLib.FormatNat | pkg/api/api.go:303 | the decimal form of a natural number is non-empty digits whose value is that number |
| GoLib.Atoi | pkg/api/api.go:303 | no contract of its own: strconv.Atoi's accepted forms and range are stated by its definition, and AtoiItoa and QueryFilterSpec state its properties |
| GoLib.AtoiItoa | pkg/api/api.go:303 | strconv.Atoi reads back every 64-bit integer strconv.Itoa writes |
| GoLib.ElementStart | pkg/api/api.go:142 | the final path element starts just after the last `/`, or at 0 |
| GoLib.DotIndex | pkg/api/api.go:142 | the backward scan finds the last `.` of the final element, or -1 exactly when it has none |
| GoLib.Ext | pkg/api/api.go:142 | no contract of its own: ExtSpec states what filepath.Ext returns |
| GoLib.ExtSpec | pkg/api/api.go:142 | filepath.Ext is empty exactly when the final element has no `.`, and is otherwise a suffix of that element that starts with its last `.` |
| Api.GetAuthToken | pkg/api/api.go:380-388 | an empty header fails with "no authorization header found"; any other failure is the format error; success holds exactly when the header is non-empty, has the `Bearer ` prefix if it is at least 7 long, and has exactly one space; the token is the space-free text after that space |
| Api.GetAuthTokenOfBearer | pkg/api/api.go:384-387 | every space-free token, the empty one included, comes back out of "Bearer <token>" |
| Api.ShortHeaderSkipsPrefixCheck | pkg/api/api.go:384 | "a b" is accepted with token "b": headers under 7 characters skip the prefix check |
| Api.DoubledSpaceRejected | pkg/api/api.go:384-385 | "Bearer  x" is rejected with the format error |
| Api.SpaceInTokenRejected | pkg/api/api.go:384-385 | "Bearer x y" is rejected with the format error |
| Api.QueryFilter | pkg/api/api.go:300-312 | no contract of its own: QueryFilterSpec states the filter it builds, and BuildFilter is the loop proved equal to it |
| Api.QueryFilterSpec | pkg/api/api.go:300-312 | the filter adds no keys; every key but `size` maps to its first value as a string; `size` is present exactly when Atoi accepts its first value, and then maps to that integer |
| Api.BuildFilter | pkg/api/api.go:300-312 | the loop over the query keys, in any order and with `continue`, builds exactly QueryFilter |
| Api.FilterOfTestQueries | pkg/api/api_test.go:434-464 | `size=1234&test=test` gives {size: 1234, test: "test"}; `size=test` gives an empty filter |
| Api.NewUploadRequest | pkg/api/api.go:139-144 | no contract of its own: UploadRequestFields states each field of the upload record |
| Api.UploadRequestFields | pkg/api/api.go:139-144 | the upload record has the part's file name and size, the given time, the file name's extension, is not hidden and has no blob id |
| Api.UploadRequestOfTestPng | pkg/api/api_test.go:105-130 | "test.png" gets the extension ".png" |
| Api.RespondWithError | pkg/api/api.go:357-367 | the status is the code given; the body is `{"error": message}`, or nothing when the message is empty |
| Api.Authorize | pkg/api/api.go:100-111 | no contract of its own: MalformedHeaderStopsFirst and RejectedTokenStopsSecond state its two checks |
| Api.CheckHealth | pkg/api/api.go:83-93 | no contract of its own: HealthNeedsNoToken and HealthCheckOrder state its behaviour |
| Api.UploadFile | pkg/api/api.go:95-156 | no contract of its own: UploadCheckOrder and ServeFollowsCheckOrder state its checks, calls and statuses |
| Api.DownloadFile | pkg/api/api.go:158-199 | no contract of its own: DownloadCheckOrder and ServeFollowsCheckOrder state its checks, calls and statuses, and SuccessResponse its 200 answer with the fetched bytes |
| Api.DeleteFile | pkg/api/api.go:201-236 | no contract of its own: DeleteCheckOrder and ServeFollowsCheckOrder state its checks, calls and statuses |
| Api.UpdateFileInfo | pkg/api/api.go:238-280 | no contract of its own: UpdateCheckOrder and ServeFollowsCheckOrder state its checks, calls and statuses |
| Api.GetFiles | pkg/api/api.go:282-325 | no contract of its own: ListCheckOrder and ServeFollowsCheckOrder state its checks, calls and statuses, and SuccessResponse its 200 answer with the store's results |
| Api.Serve | pkg/api/api.go:73-78 | no contract of its own: ServeFollowsCheckOrder states what every route it dispatches does |
| Api.ServeFollowsCheckOrder | pkg/api/api.go:83-325 | every handler calls exactly the collaborators of its checks up to the first that fails, and answers with that check's status, or 200 when all pass |
| Api.HealthCheckOrder | pkg/api/api.go:83-93 | checkHealth agrees with the reference: the ping is its only check |
| Api.RefusedCheckOrder | pkg/api/api.go:100-111 | each authenticated handler agrees with the reference when the header or the token fails |
| Api.AdmittedPrefix | pkg/api/api.go:100-111 | an admitted request passes the first two checks, calling only the validator |
| Api.UploadTail | pkg/api/api.go:113-150 | after the token, uploadFile's reference checks the form, then the store |
| Api.UploadCheckOrder | pkg/api/api.go:95-156 | uploadFile agrees with the reference for admitted requests |
| Api.DownloadTail | pkg/api/api.go:176-194 | after the token, downloadFile's reference checks the id, the store, then the write |
| Api.DownloadCheckOrder | pkg/api/api.go:158-199 | downloadFile agrees with the reference for admitted requests |
| Api.DeleteTail | pkg/api/api.go:219-230 | after the token, deleteFile's reference checks the id, then the store |
| Api.DeleteCheckOrder | pkg/api/api.go:201-236 | deleteFile agrees with the reference for admitted requests |
| Api.UpdateTail | pkg/api/api.go:256-274 | after the token, updateFileInfo's reference checks the id, the body, then the store |
| Api.UpdateCheckOrder | pkg/api/api.go:238-280 | updateFileInfo agrees with the reference for admitted requests |
| Api.ListTail | pkg/api/api.go:314-319 | after the token, getFiles's reference checks only the store |
| Api.ListCheckOrder | pkg/api/api.go:282-325 | getFiles agrees with the reference for admitted requests |
| Api.MalformedHeaderStopsFirst | pkg/api/api.go:100-105 | a bad or missing header answers 400 with getAuthToken's message and calls nothing |
| Api.RejectedTokenStopsSecond | pkg/api/api.go:107-111 | a rejected token answers 401 with the validator's message after calling only the validator |
| Api.BadRequestInputStopsBeforeStore | pkg/api/api.go:113-268 | an unreadable upload, an unparseable id or an undecodable body answers 400 with its message, and the store is never called |
| Api.StoreErrorIs500 | pkg/api/api.go:86-319 | with the token accepted and the inputs usable, the store is called once, last, and its error answers 500 with its message (a failed ping answers 500 with the fixed health message) |
| Api.OkExactlyWhenAllChecksPass | pkg/api/api.go:83-325 | a handler answers 200 exactly when none of its checks fails |
| Api.SuccessResponse | pkg/api/api.go:83-325 | when no check fails, the store call succeeded and the answer is 200 with the route's success body: the fetched bytes for a download (:190), the store's results for a listing (:322), and the fixed message for the health check, upload, delete and update (:90, :153, :233, :277) |
| Api.HealthNeedsNoToken | pkg/api/api.go:83-93 | the health check ignores the header and the validator, pings, and answers 500 exactly when the ping fails and 200 otherwise |
| Dao.MatchingFrom | pkg/dao/handler.go:138 | the matching record ids are listed in ascending order, and each matching record is listed |
| Dao.DecodeAll | pkg/dao/handler.go:143-147 | cursor.All gives every listed record decoded, in order, or nothing when one fails to decode |
| Dao.ListingFailsOnlyOnUndecodable | pkg/dao/handler.go:143-147 | the listing fails only when some matching record does not decode |
| Dao.ListingDecodesAllMatches | pkg/dao/handler.go:143-149 | when the listing succeeds every matching record decodes |
| Dao.ListingSound | pkg/dao/handler.go:137-150 | the listing holds only matching records, each decoded under its own id, in id order |
| Dao.ListingComplete | pkg/dao/handler.go:137-150 | the listing holds every matching record |
| Dao.ApplySet | pkg/dao/handler.go:127-129 | `$set` writes every requested field but `_id` over the stored document and keeps the rest |
| Dao.ApplySetOtherFields | pkg/dao/handler.go:122-135 | setting only unknown fields leaves the decoded record unchanged |
| Dao.ApplySetRetargetsBlob | pkg/dao/handler.go:122-135 | the unrestricted update can repoint a record at another blob |
| Dao.ApplySetHexRetargetsBlob | pkg/dao/handler.go:122-135 | a JSON update body that sends another blob's hex id in `fileBytes` repoints the record at that blob |
| Dao.BuildSetUpdate | pkg/dao/handler.go:123-127 | the copy loop puts exactly the request's keys and values into `$set`, so an empty request gives an empty `$set` |
| Dao.Handler.constructor | pkg/dao/handler.go:27-33 | a handler over an empty collection and an empty bucket, issuing ids from 1 |
| Dao.Handler.UploadFile | pkg/dao/handler.go:64-95 | a failure creating the bucket or stream or writing the bytes changes nothing; otherwise the blob is stored under a fresh id, which is stamped into the caller's record before the insert; a failed insert or a missing inserted id returns its error and leaves no record; success adds exactly the stamped record under a fresh id; the id counter advances by the number of ids issued |
| Dao.Handler.GetFile | pkg/dao/handler.go:39-62 | each failing call returns its own error, in the order of the calls: the lookup, no such record, the decode, the bucket, the download, then a missing blob; success holds exactly when the record is found and decodes and its blob exists, and returns the blob its `fileBytes` names |
| Dao.Handler.DeleteFile | pkg/dao/handler.go:97-120 | a failed or empty lookup changes nothing; once found, the record is removed whatever follows, and each later failing call returns its own error, in order: the decode, the bucket, the files document, a missing blob, the chunks; the blob the record names is removed once its files document is, so a failure deleting the chunks returns an error with the blob already gone; every earlier failure leaves every blob in place |
| Dao.Handler.UpdateFileInfo | pkg/dao/handler.go:122-135 | driver errors, a missing record and a change of `_id` are returned and change nothing; otherwise the record becomes the old one with the request's fields set; blobs never change |
| Dao.Handler.GetFiles | pkg/dao/handler.go:137-150 | a failing find or cursor returns its error; otherwise the result is the listing of the records matching the filter as given, or, when a matching record does not decode, the decode error with no results |
| Dao.UploadThenDownload | pkg/dao/handler.go:39-95 | fetching the record a successful upload inserted returns exactly the bytes written; after a failed upload there is no such record |
| Dao.DeleteThenDownload | pkg/dao/handler.go:39-101 | once a delete has found the record, fetching it answers no documents, whether or not its blob was removed |
| Dao.RetargetThenDownload | pkg/dao/handler.go:39-62 | after an update whose JSON body sends another stored blob's hex id in `fileBytes`, fetching the record returns that blob's bytes |

## Left out

- Server wiring is not modelled: the router, CORS, environment configuration, `mongo.Connect` and `ListenAndServe`. It is I/O set-up with no decisions in it.
- `shutdownGracefully` is left out. It is signal handling and a timeout in a goroutine.
- JSON encoding and decoding are not modelled. Multipart parsing, `io.Copy` and `closeRequestBody` are not either. Each appears as its outcome: `Api.Form` for the upload, `Result` for the update body, `copyError` for the download write.
- Logging is left out: it has no effect on any result.
- In the handlers, the id that `primitive.ObjectIDFromHex` parses from the URL is an input `Result<ObjectId, string>`. The same parse inside the store's decoder is modelled, by `Models.ObjectIdFromString`.
- New ObjectIDs come from a counter in `Dao.Handler`. Their timestamp, machine and process parts are not modelled, and the counter is not bounded to twelve bytes.
- The token validator lives in a package that is not part of this model. It is the function parameter `validate`.
- `time.Now()` is an input `Time`.
- `Handler.Ping` is a pass-through to the driver. Its outcome is the `pingError` input of the health route.
- `Handler`'s configuration fields are not modelled: client, database and collection names. The model has one collection and one bucket.
- Api.DownloadFile: when writing the bytes to the response fails, the model answers 500 as the handler asks. net/http keeps the status already sent with the first bytes, so a client would see 200 with a truncated body.
- Dao.Handler.UploadFile: the blob is counted as stored once `Write` succeeds. The driver's upload stream buffers its chunks and flushes them only when its buffer fills, so for a file smaller than that buffer both the chunks and the files document are written at the deferred `Close`, which runs after the insert. A failed `Close` is only logged. The real code can therefore leave a record that names a blob that was never stored; the model, which stores the blob before the record, does not represent that, nor chunks left behind by a failed write.
- Dao.Handler.UploadFile: the "no file inserted" path is modelled as leaving no record. Whether the driver inserted anything in that case is not visible to the code.
- Dao.Handler.UpdateFileInfo: the model treats an empty `$set` as success, as MongoDB 5.0 and later do. Older servers reject it.
- Dao.Handler.UpdateFileInfo: keys containing `.` or starting with `$` are treated as plain field names. The server's handling of them is not modelled.
- Dao.Handler.GetFiles: filter matching is equality per field. `_id` is compared with the record id. An absent field matches only null. Query operators, array membership and numeric equality across BSON number types are not modelled.
- Dao.Handler.GetFiles: results come in ascending record id order, which stands for the collection's natural order.
- Models.DecodeFileRequest: of the default decoders' conversions across kinds, only a string read as an ObjectID is modelled. The others are not:
  - into `int64`: doubles, 32-bit integers and bools;
  - into a string: an ObjectID (as its hex digits), a symbol or binary data;
  - into a bool: numbers;
  - into a `time.Time`: a string in ISO-8601 form, a 64-bit integer read as milliseconds, and a BSON timestamp.

  A document holding one of these decodes in the driver but not in the model. So after an update such as `{"timestamp": "2024-01-01T00:00:00Z"}`, the model's GetFile answers a decode error where the driver reads the record, and a listing that matches the record fails.
- Models.DecodeEncode: a time is the nanoseconds since the Unix epoch. Its location and monotonic clock reading are not modelled (the decoder returns UTC), nor are times whose milliseconds fall outside a 64-bit integer.
- Dao.Handler.DeleteFile: when removing the blob's files document fails, GridFS still tries to remove the chunks. The model keeps the blob whole in that case; a real store may be left with a files document whose chunks are gone.
- Strings are sequences of characters, each standing for one byte of the Go string. There is no UTF-8 decoding; none of the modelled code decodes UTF-8.
