# folio-s3-client, modelled in Dafny

folio-s3-client is a Java facade over S3-compatible object storage. It has
two implementations of one contract, `FolioS3Client`:

- `MinioS3Client`, over the MinIO SDK;
- `AwsS3Client`, over the AWS SDK. It overrides only `write` and `append`.

This project models the part of it that has real logic:

- the storage operations `MinioS3Client` builds on (write, read, getSize,
  list, remove, remove of many paths);
- the size-threshold `append` of both clients. A path that lists nothing is
  written. An object of at most 5 MiB (`MIN_MULTIPART_SIZE`) is read and
  written back followed by the new data. A larger object is extended on the
  server by a two-part multipart upload: part 1 copies the object and part 2
  is the data. An upload that was opened is aborted when the append fails;
- the translation of `PutObjectAdditionalOptions` into MinIO headers;
- the two temp-file writers, `RemoteStorageWriter` and
  `OptimizedFileWriter`. Each buffers text in a temp file and uploads it on
  close.

## Structure

- **The storage, `ObjectStore`.** The storage behind the contract is a pure
  `World` with these fields:
  - `objects`, the objects by key;
  - `sessions`, the multipart upload sessions by upload id (Initiated,
    Completed or Aborted, with their parts);
  - two counters, for upload ids and ETags;
  - `trace`, every request issued, with the error it got;
  - `faults`, a failure oracle: the request issued at position `i` of the
    trace meets a transport failure exactly when `i` is in it.

  Each S3 request is a step function from a `World` to a `Reply`. The
  well-formedness they keep (no empty keys, fresh upload ids) is stated on
  each. The class `Bucket` is the handle the clients mutate. Each of its
  methods is proved to leave the state its step function describes.
- **The clients, `Minio` and `Aws`.** Each client operation has two forms:
  - a method over the `Bucket`. `append` keeps its try/catch shape: a
    labelled block that is left at the first failure, the `uploadId` local,
    and the catch that aborts;
  - the `...Spec` function that method is proved equal to.

  The promised properties are lemmas about the functions, in `MinioLaws`,
  `AwsLaws` and `StoreLaws`.
- **The writers, `RemoteStorage` and `OptimizedFile`.** Each writer is a
  class whose field `tmp` is the temp file: its text while it exists, None
  once deleted. Its `Close` is proved equal to a `CloseSpec` function.
  `TempFile` holds what both writers share.

## Modelling decisions

- The code adds no sub-path prefix to keys, so none is modelled.
- The existence check of `append` lists with prefix `path` and a page
  size of 1 key. The MinIO iterator pages through every entry, so
  `ListStep` answers the whole one-level listing. Whether that listing
  is empty does not depend on the page size.
- A listing answers the immediate children of the prefix, in ascending
  character order: keys directly under it, and sub-directories ending in
  `/`. It also includes the prefix itself when that is a key.
- CompleteMultipartUpload applies S3's rules. The part list must be
  non-empty and ascending. Every part it lists must have been uploaded,
  with that ETag. Every part but the last must be at least 5 MiB.
- A multipart session's upload id and ETags are drawn from counters in the
  `World`.
- Exceptions are a datatype. `S3ClientException` carries a message and a
  cause. The writers also use `IOException`, `RuntimeException` and
  `IllegalArgumentException`. `SdkException` stands for the SDK's own error
  and carries an error code from the storage.
- The messages are the code's own. `new RuntimeException(ioe)` takes the
  cause's `toString()` as its message.
- MinIO dispatches parts 1 and 2 before awaiting either. The model issues
  them in dispatch order and reports part 1's failure first, as the awaits
  do. AWS sends part 2 only after the copy succeeded.
- File system failures are parameters of the writer methods: whether an
  append fails, or the message of a failed create, flush or delete.
- How text is encoded is the writer's `encode` parameter.

## Model

| member | source | states |
|---|---|---|
| `Keys.Ordered` | src/main/java/org/folio/s3/client/MinioS3Client.java:241-255 | a listing comes back in strictly ascending order. It holds every key of the set exactly once and nothing else. |
| `Keys.ListingIsOneLevel` | src/test/java/org/folio/s3/client/FolioS3ClientTest.java:122-126 | every listed entry is the prefix itself or an immediate child of it: a key directly under it, or a sub-directory that ends with `/` and has a key under it. |
| `Keys.ListingCovers` | src/test/java/org/folio/s3/client/FolioS3ClientTest.java:122-126 | every key under the prefix is represented in the listing, by itself or by its sub-directory. |
| `Keys.ListingEmpty` | src/main/java/org/folio/s3/client/MinioS3Client.java:241-246 | the listing of a prefix is empty exactly when no key starts with it. |
| `Keys.ListedItself` | src/main/java/org/folio/s3/client/MinioS3Client.java:244 | the prefix itself is listed exactly when it is a key. |
| `StoreLaws.CompletionOfNumbered` | src/main/java/org/folio/s3/client/FolioS3Client.java:199-215 | when the ETags of uploaded parts 1..n are listed with their positions as part numbers, the completion is accepted exactly when there is at least one part and every part but the last holds at least 5 MiB. |
| `ObjectStore.AssemblePair` | src/main/java/org/folio/s3/client/MinioS3Client.java:160-164 | completing with two parts stores the first part's content followed by the second's. |
| `ObjectStore.NumberedFrom` | src/main/java/org/folio/s3/client/FolioS3Client.java:162 | the i-th ETag of the list (from 0) becomes an entry for part first + i, and there is one entry per ETag. |
| `ObjectStore.Bucket.Put` | src/main/java/org/folio/s3/client/FolioS3Client.java:29-36 | the bucket is left in the state a PutObject of the data leaves, and the method answers what that request answers. |
| `ObjectStore.Bucket.Get` | src/main/java/org/folio/s3/client/FolioS3Client.java:63-70 | the bucket and the answer are those of a GetObject. |
| `ObjectStore.Bucket.Stat` | src/main/java/org/folio/s3/client/FolioS3Client.java:96-102 | the bucket and the answer are those of a HeadObject. |
| `ObjectStore.Bucket.List` | src/main/java/org/folio/s3/client/FolioS3Client.java:72-78 | the bucket and the answer are those of a one-level listing. |
| `ObjectStore.Bucket.Remove` | src/main/java/org/folio/s3/client/FolioS3Client.java:47-53 | the bucket and the answer are those of a DeleteObject. |
| `ObjectStore.Bucket.RemoveAll` | src/main/java/org/folio/s3/client/FolioS3Client.java:55-61 | the bucket and the answer are those of a DeleteObjects of all the keys. |
| `ObjectStore.Bucket.Create` | src/main/java/org/folio/s3/client/FolioS3Client.java:146-154 | the bucket and the answer are those of a CreateMultipartUpload. |
| `ObjectStore.Bucket.UploadPartData` | src/main/java/org/folio/s3/client/FolioS3Client.java:171-186 | the bucket and the answer are those of an UploadPart of the data. |
| `ObjectStore.Bucket.CopyPart` | src/main/java/org/folio/s3/client/MinioS3Client.java:156 | the bucket and the answer are those of an UploadPartCopy of the whole source object. |
| `ObjectStore.Bucket.Complete` | src/main/java/org/folio/s3/client/MinioS3Client.java:164 | the bucket and the answer are those of a CompleteMultipartUpload with the listed parts. |
| `ObjectStore.Bucket.CompleteWithETags` | src/main/java/org/folio/s3/client/FolioS3Client.java:199-215 | completion with a list of ETags, the i-th (from 0) naming part i + 1. |
| `ObjectStore.Bucket.Abort` | src/main/java/org/folio/s3/client/FolioS3Client.java:188-197 | the bucket and the answer are those of an AbortMultipartUpload. |
| `StoreLaws.WriteThenRead` | src/test/java/org/folio/s3/client/FolioS3ClientTest.java:128-138 | after a successful PutObject, reading the key gives back exactly the data, and its size is the data's length. |
| `StoreLaws.WriteSucceeds` | src/main/java/org/folio/s3/client/FolioS3Client.java:29-36 | a PutObject succeeds exactly when the key is not empty and the request meets no transport failure. |
| `StoreLaws.ListAnswer` | src/test/java/org/folio/s3/client/FolioS3ClientTest.java:122-126 | a successful listing is strictly ascending, holds only the prefix and its immediate children, represents every key under the prefix, and is empty exactly when no key starts with the prefix. |
| `StoreLaws.RemoveAllClearsListing` | src/test/java/org/folio/s3/client/FolioS3ClientTest.java:141-146 | once a DeleteObjects of every key under a prefix succeeds, the listing of the prefix is empty. |
| `StoreLaws.AssembleNumbered` | src/main/java/org/folio/s3/client/FolioS3Client.java:162 | numbering ETags from a first part number gives an ascending list. Every entry names its uploaded part, and the list assembles the parts' contents concatenated in order. |
| `StoreLaws.CompleteNumbered` | src/test/java/org/folio/s3/client/FolioS3ClientTest.java:428-459 | completing an open upload with the ETags of parts 1..n, in order, stores the concatenation of their contents under the key. |
| `StoreLaws.CompleteEmptyFails` | src/test/java/org/folio/s3/client/FolioS3ClientTest.java:585-588 | a completion with no parts fails and changes nothing but the trace. |
| `StoreLaws.TerminalSession` | src/test/java/org/folio/s3/client/FolioS3ClientTest.java:446-449 | once an upload is completed or aborted, uploading a part, copying a part, completing it and aborting it all fail and change nothing but the trace. |
| `StoreLaws.CreateRejectsEmptyKey` | src/test/java/org/folio/s3/client/FolioS3ClientTest.java:597-599 | opening an upload for the empty key fails. |
| `StoreLaws.SessionsKeepObjects` | src/test/java/org/folio/s3/client/FolioS3ClientTest.java:601-602 | opening an upload, uploading a part and aborting leave every object as it was. |
| `Minio.WriteSpec` | src/main/java/org/folio/s3/client/MinioS3Client.java:180-195 | write succeeds exactly when the path is not empty and the request meets no failure. It then returns the path and the object holds the data. Otherwise nothing changes and it throws "Cannot write stream: " + path. |
| `Minio.Write` | src/main/java/org/folio/s3/client/MinioS3Client.java:180-195 | the method leaves the bucket and answers as `WriteSpec` says. |
| `Minio.RemoveSpec` | src/main/java/org/folio/s3/client/MinioS3Client.java:199-211 | remove succeeds exactly when the path is not empty and the request meets no failure, returning the path with the object gone. Otherwise nothing changes and it throws "Error deleting file: ". |
| `Minio.Remove` | src/main/java/org/folio/s3/client/MinioS3Client.java:199-211 | the method leaves the bucket and answers as `RemoveSpec` says. |
| `Minio.RemoveAllSpec` | src/main/java/org/folio/s3/client/MinioS3Client.java:213-235 | no paths send no request and return an empty list, whatever the network does. Otherwise removing succeeds exactly when no path is empty and the request meets no failure, and then returns the paths as given, every one of them gone. Any failure, a per-object error or a failed request, throws "Error deleting file: " caused by "Error deleting". |
| `Minio.RemoveAll` | src/main/java/org/folio/s3/client/MinioS3Client.java:213-235 | the method leaves the bucket and answers as `RemoveAllSpec` says; with no paths it issues no request. |
| `Minio.ListSpec` | src/main/java/org/folio/s3/client/MinioS3Client.java:237-260 | list changes no object and succeeds unless the request fails. It then returns the one-level listing of the path in ascending order. On failure it throws "Error getting list of objects for path: " + path. |
| `Minio.List` | src/main/java/org/folio/s3/client/MinioS3Client.java:239-256 | the loop copies the items one by one, and the method answers as `ListSpec` says. |
| `Minio.ReadSpec` | src/main/java/org/folio/s3/client/MinioS3Client.java:264-275 | read changes no object and succeeds exactly when the object exists and the request meets no failure, returning its whole content. Otherwise it throws "Error creating input stream for path: " + path. |
| `Minio.Read` | src/main/java/org/folio/s3/client/MinioS3Client.java:264-275 | the method leaves the bucket and answers as `ReadSpec` says. |
| `Minio.SizeSpec` | src/main/java/org/folio/s3/client/MinioS3Client.java:279-291 | getSize changes no object and succeeds exactly when the object exists and the request meets no failure, returning its length. Otherwise it throws "Error getting size: " + path. |
| `Minio.GetSize` | src/main/java/org/folio/s3/client/MinioS3Client.java:279-291 | the method leaves the bucket and answers as `SizeSpec` says. |
| `Minio.Append` | src/main/java/org/folio/s3/client/MinioS3Client.java:133-176 | the method's labelled try block, `uploadId` local and catch block leave the bucket and answer as `AppendSpec` says. |
| `MinioLaws.AppendOutcome` | src/main/java/org/folio/s3/client/MinioS3Client.java:135-175 | a successful append returns the path, and the object holds its old content (none if absent) followed by the data. A failed append leaves every object as it was. It throws "Cannot append data for path: " + path, with a cause. |
| `MinioLaws.TryAppendOutcome` | src/main/java/org/folio/s3/client/MinioS3Client.java:137-165 | the try block succeeds with the path and the object extended by the data, or fails with no object changed. |
| `MinioLaws.ExistingOutcome` | src/main/java/org/folio/s3/client/MinioS3Client.java:143-165 | for a listed path, success means the object exists and now holds its old content followed by the data. Failure leaves every object as it was. |
| `MinioLaws.MultipartOutcome` | src/main/java/org/folio/s3/client/MinioS3Client.java:152-165 | the server-side branch, on success, stores the old content followed by the data. On failure it changes no object. |
| `MinioLaws.AppendRequests` | src/main/java/org/folio/s3/client/MinioS3Client.java:136-175 | the requests of one append are the try block's run, then its aborts. The run starts with the listing of the path. Every request in it concerns the object and none is an abort. The append succeeds exactly when every request of the run did. A failure has the first failed request's error as root cause. There is one abort, of the upload this append opened, exactly when the run opened an upload and failed, and none otherwise. |
| `MinioLaws.AppendLive` | src/main/java/org/folio/s3/client/FolioS3Client.java:19-27 | over a connection with no failures, an append of a non-empty path succeeds exactly when the object exists or no key starts with the path (see Findings). |
| `MinioLaws.ExistingLive` | src/main/java/org/folio/s3/client/MinioS3Client.java:143-165 | without failures, the branch for an existing object succeeds, below and above the threshold. |
| `MinioLaws.MultipartLive` | src/main/java/org/folio/s3/client/MinioS3Client.java:152-165 | without failures, the server-side branch succeeds: the copied part is large enough for the completion to be accepted. |
| `MinioLaws.AppendBesideLongerKey` | src/main/java/org/folio/s3/client/MinioS3Client.java:138-143 | with only "a.csv.bak" stored, an append to "a.csv" fails and stores nothing. |
| `MinioLaws.AppendIntendedCreates` | src/main/java/org/folio/s3/client/FolioS3Client.java:19-27 | the corrected append of a non-empty path, without failures, always succeeds. It creates the object with the data when absent, and otherwise extends it by the data. |
| `MinioLaws.NewObjectRequests` | src/main/java/org/folio/s3/client/MinioS3Client.java:138-141 | when the listing is empty the append issues exactly the listing and one write of the data: no size, read or multipart request. It succeeds exactly when that write does, and opens no upload session. |
| `MinioLaws.SmallObjectRequests` | src/main/java/org/folio/s3/client/MinioS3Client.java:143-150 | for an object of at most 5 MiB the append issues exactly listing, size, read, and one write of the old content followed by the data. It opens no upload session. |
| `MinioLaws.LargeObjectRequests` | src/main/java/org/folio/s3/client/MinioS3Client.java:152-165 | for an object above 5 MiB the append issues exactly: listing, size, one CreateMultipartUpload, a copy of the object at the same path as part 1, the data as part 2, and a completion listing parts 1 and 2 in that order with their ETags. Exactly one session is opened, it ends Completed, and the path is returned. |
| `MinioLaws.AppendTwice` | src/test/java/org/folio/s3/client/FolioS3ClientTest.java:242-249 | without failures, two appends to an appendable path both succeed. The object then holds its old content followed by the first data and then the second, so a new path holds first followed by second. |
| `MinioLaws.ClientWriteThenRead` | src/test/java/org/folio/s3/client/FolioS3ClientTest.java:110-138 | what write stores, read gives back exactly, and getSize reports its length. |
| `MinioLaws.RemoveAllThenList` | src/test/java/org/folio/s3/client/FolioS3ClientTest.java:141-146 | removing every path under a directory in one call returns the paths, and the listing of the directory is then empty. |
| `Aws.WriteSpec` | src/main/java/org/folio/s3/client/AwsS3Client.java:77-89 | write returns the path unchanged, with the object holding the data, exactly when the path is not empty and the request meets no failure. Otherwise nothing changes and it throws "Cannot write file: " + path. |
| `Aws.Write` | src/main/java/org/folio/s3/client/AwsS3Client.java:77-89 | the method leaves the bucket and answers as `WriteSpec` says. |
| `Aws.Append` | src/main/java/org/folio/s3/client/AwsS3Client.java:96-183 | the method's try block, `uploadId` local and catch block leave the bucket and answer as `Aws.AppendSpec` says. |
| `AwsLaws.PartsAgree` | src/main/java/org/folio/s3/client/AwsS3Client.java:133-160 | the sequential parts leave the same objects, upload id and outcome as MinIO's (same root cause on failure). |
| `AwsLaws.RewriteAgree` | src/main/java/org/folio/s3/client/AwsS3Client.java:162-166 | the read-and-write-back branch agrees with MinIO's. |
| `AwsLaws.ExistingAgree` | src/main/java/org/folio/s3/client/AwsS3Client.java:104-166 | the test `size > MIN_MULTIPART_SIZE` takes the same branch as MinIO's `size <= MIN_MULTIPART_SIZE` for every size, so both clients agree on existing objects. |
| `AwsLaws.AppendsAgree` | src/main/java/org/folio/s3/client/AwsS3Client.java:96-183 | both clients' appends leave the same objects, succeed together with the same result, and fail with the same root cause. |
| `AwsLaws.AppendOutcome` | src/main/java/org/folio/s3/client/AwsS3Client.java:96-183 | a successful append returns the key, with the object extended by the data. A failed one changes no object and throws "Cannot append data for path: " + path with a cause. |
| `AwsLaws.AppendLive` | src/main/java/org/folio/s3/client/AwsS3Client.java:100-104 | without failures an append of a non-empty path succeeds exactly when the object exists or no key starts with the path (see Findings). |
| `AwsLaws.AppendIntendedCreates` | src/main/java/org/folio/s3/client/AwsS3Client.java:96-102 | the corrected append of this client, without failures, creates a missing object with the data and extends an existing one. |
| `AwsLaws.CopiedFirstMeans` | src/main/java/org/folio/s3/client/AwsS3Client.java:133-137 | the recursive copied-first check holds exactly when every UploadPart of a run is preceded by a successful UploadPartCopy. |
| `AwsLaws.AppendRequests` | src/main/java/org/folio/s3/client/AwsS3Client.java:98-181 | as for MinIO: the run starts with the listing, concerns only the object, succeeds when all its requests do, and has the first failure as root cause. There is one abort exactly when an opened upload failed. In addition, no data part is sent before a copy of the object has succeeded. |
| `AwsLaws.FailedCopy` | src/main/java/org/folio/s3/client/AwsS3Client.java:133-137 | when the copy of part 1 fails, the AWS client sends no further part, so the copy is the last request before the catch block. The MinIO client has already sent the data part. |
| `Headers.ToMinioHeaders` | src/main/java/org/folio/s3/client/PutObjectAdditionalOptions.java:18-31 | null options give no headers. "Content-Disposition" is present exactly when the disposition is set, and "Content-Type" exactly when the type is set, each with its value. No other header appears. |
| `Headers.HeadersRoundTrip` | src/main/java/org/folio/s3/client/PutObjectAdditionalOptions.java:23-30 | the headers lose nothing: reading them back gives the options. |
| `Headers.HeaderCount` | src/test/java/org/folio/s3/client/PutObjectAdditionalOptionsTest.java:20-36 | there are as many headers as options set: none for empty options, two when both are set. |
| `TempFile.AfterNonEmptyWrites` | src/main/java/org/folio/s3/client/RemoteStorageWriter.java:37-40 | a temp file that receives only non-empty writes holds its text followed by all of them, in order. |
| `TempFile.AfterEmptyWrite` | src/main/java/org/folio/s3/client/RemoteStorageWriter.java:44-46 | once an empty or null write has deleted the temp file, it stays deleted whatever follows. |
| `TempFile.Upload` | src/main/java/org/folio/s3/client/RemoteStorageWriter.java:54 | the upload is the client's write. It succeeds exactly when the path is not empty and the request meets no failure, and then the object holds the data. Otherwise nothing changes and an S3ClientException is thrown. |
| `TempFile.UploadWith` | src/main/java/org/folio/s3/client/RemoteStorageWriter.java:54 | the method leaves the bucket and answers as `Upload` says. |
| `RemoteStorage.RemoteStorageWriter.Open` | src/main/java/org/folio/s3/client/RemoteStorageWriter.java:22-34 | the constructor succeeds exactly when the temp file is created and the size is positive, with an empty temp file. A create failure or a size of 0 or less throws an S3ClientException. |
| `RemoteStorage.RemoteStorageWriter.DeleteTmp` | src/main/java/org/folio/s3/client/RemoteStorageWriter.java:63-69 | the temp file is gone afterwards unless deleting it failed. That failure throws "Error in deleting file: " + message. |
| `RemoteStorage.RemoteStorageWriter.Write` | src/main/java/org/folio/s3/client/RemoteStorageWriter.java:36-47 | a non-empty write is appended to the temp file. An empty or null write, or a failed append, deletes it and throws only if the deletion fails. |
| `RemoteStorage.RemoteStorageWriter.Close` | src/main/java/org/folio/s3/client/RemoteStorageWriter.java:49-61 | the method leaves the bucket, the temp file and the exception as `CloseSpec` says: upload if the temp file exists, then always delete. |
| `RemoteStorage.CloseDeletes` | src/main/java/org/folio/s3/client/RemoteStorageWriter.java:58-60 | after close the temp file is gone, whether or not the upload succeeded, unless deleting it failed. That failure is then what close throws. |
| `RemoteStorage.CloseWithoutTmp` | src/main/java/org/folio/s3/client/RemoteStorageWriter.java:52 | without a temp file, close issues no request and throws nothing. |
| `RemoteStorage.CloseRethrows` | src/main/java/org/folio/s3/client/RemoteStorageWriter.java:56-57 | a failed upload changes no object and is rethrown as "Error while close(): " followed by the client's message. |
| `RemoteStorage.UploadsAllWrites` | src/test/java/org/folio/s3/client/FolioS3ClientTest.java:376-384 | a writer given only non-empty writes and closed without failures stores exactly their text, in order, at its path, and leaves no temp file. |
| `RemoteStorage.NoUploadAfterEmptyWrite` | src/main/java/org/folio/s3/client/RemoteStorageWriter.java:44-52 | once an empty or null write came, close changes nothing and throws nothing. |
| `OptimizedFile.OptimizedFileWriter.Open` | src/main/java/org/folio/s3/client/OptimizedFileWriter.java:17-28 | the constructor succeeds exactly when the temp file is created and the size is positive. A create failure throws a RuntimeException caused by the IOException. A bad size fails with the buffered writer's IllegalArgumentException. |
| `OptimizedFile.OptimizedFileWriter.DeleteTmp` | src/main/java/org/folio/s3/client/OptimizedFileWriter.java:61-65 | the temp file is gone afterwards unless deleting it failed. That failure throws a RuntimeException wrapping the IOException. |
| `OptimizedFile.OptimizedFileWriter.Write` | src/main/java/org/folio/s3/client/OptimizedFileWriter.java:30-49 | a non-empty write is appended to the temp file. An empty or null write, or a failed append, deletes it and throws only if the deletion fails. |
| `OptimizedFile.OptimizedFileWriter.Close` | src/main/java/org/folio/s3/client/OptimizedFileWriter.java:51-67 | the method leaves the bucket, the temp file and the exception as `CloseSpec` says. |
| `OptimizedFile.CloseSwallows` | src/main/java/org/folio/s3/client/OptimizedFileWriter.java:52-67 | close throws exactly when deleting the temp file fails, with the IOException as cause. A failed flush or upload is not reported, and the temp file is gone exactly when nothing is thrown. |
| `OptimizedFile.WritersAgree` | src/main/java/org/folio/s3/client/OptimizedFileWriter.java:51-67 | both writers leave the same objects and temp file on close. This one throws only when the other does. |
| `OptimizedFile.UploadsAllWrites` | src/main/java/org/folio/s3/client/OptimizedFileWriter.java:52-57 | a writer given only non-empty writes and closed without failures stores exactly their text, in order, and leaves no temp file. |
| `OptimizedFile.NoUploadAfterEmptyWrite` | src/main/java/org/folio/s3/client/OptimizedFileWriter.java:42-54 | once an empty or null write came, close changes nothing and throws nothing. |

## Left out

- Presigned URLs, `listRecursive`, the paginated `list(path, maxKeys, startAfter)`, `write(path, is, size)` and `upload`. Their implementations are not part of this model. The interface's multipart operations are modelled as the `Bucket` methods they map to.
- `getRemoteStorageWriter`: its implementation is not part of this model. The writers are modelled through their own constructors.
- `createBucketIfNotExists`, client construction and credential selection: SDK plumbing with no logic to model.
- `S3ClientFactory`, `S3ClientProperties` and `ExtendedMinioAsyncClient`: a constructor choice, a data holder and pass-throughs to the SDK.
- Asynchrony: blocking on futures, and the two MinIO parts being in flight together. The model issues requests one after another in dispatch order.
- The MinIO abort is not awaited. The model issues it, and its outcome never affects the append.
- `ExecutionException` wrappers, which `CompletableFuture.get()` puts around SDK failures, are not modelled. `RootCause` follows the causes down to the SDK error, and every property about causes is stated at the root.
- Streams are finite byte sequences. `SequenceInputStream`, closing by try-with-resources and sizing by `is.available()` are not modelled. A null stream is not modelled.
- The `x-amz-copy-source` header and its URL encoding: a copy's source is the same bucket and the same path.
- The wording of the SDK's own messages. An SDK error is an error code. `Message` of an SDK exception is empty, so `CloseRethrows` states the message of the client's own exception only.
- Per-item errors of a listing (`Error populating list of objects for path: `). The iterator's items are modelled as always readable.
- The temp file's name and directory, and the file system behaviour beyond the failures given as parameters. The buffered writer's size is checked only for being positive.
- A temp file created before the buffered writer's size check fails is not modelled as left behind.
- Logging.
- `ObjectStore.Answer`: a transport failure stands for a request the storage never applied. A response lost after a PutObject, DeleteObject(s) or CompleteMultipartUpload took effect is not modelled. So the clauses saying a failed call leaves the objects unchanged (in `MinioLaws.AppendOutcome`, `MinioLaws.TryAppendOutcome`, `MinioLaws.ExistingOutcome`, `MinioLaws.MultipartOutcome`, `AwsLaws.AppendOutcome`, `Minio.WriteSpec`, `Minio.RemoveSpec`, `Minio.RemoveAllSpec` and `Aws.WriteSpec`) hold only under that reading of a failure.
- `ObjectStore.RemoveAllStep`: one DeleteObjects event, with one fault index, stands for all the batches of at most 1000 keys the SDK sends.
- `ObjectStore.ListStep`: one ListObjects event, with one fault index, stands for every page the iterator requests (with a page size of 1 key, one request per entry). The request counts in `MinioLaws.NewObjectRequests`, `MinioLaws.SmallObjectRequests`, `MinioLaws.LargeObjectRequests` and `MinioLaws.AppendRequests` count that one event.
- `ObjectStore.PutStep` and `ObjectStore.CreateStep`: the empty key is recorded as a request the storage answers InvalidArgument, using up a fault index, although the MinIO SDK's builders reject it before any request is sent. The outcome for the caller is the same failure; only the trace differs, which matters for `MinioLaws.NewObjectRequests` with the path "".
- `OptimizedFile.Rethrown`: the wrapped exception's class name is fixed as `java.io.IOException`, although `deleteIfExists` may throw subclasses such as `DirectoryNotEmptyException` or `AccessDeniedException`, whose names would then appear in the message.

## Findings

| source | as written | input that shows it | evidently intended | confidence | as-written member | corrected member |
|---|---|---|---|---|---|---|
| src/main/java/org/folio/s3/client/MinioS3Client.java:138-143 | existence is decided by whether the prefix listing of `path` is empty. A longer key starting with `path` makes the listing non-empty, and then `getSize` of the missing object fails. | objects {"a.csv.bak"}, append("a.csv", [2]): the listing holds "a.csv.bak", the size request answers NoSuchKey, and the append throws | the interface says a missing file is created automatically: an absent path is written whatever other keys start with it | not executed | `MinioLaws.AppendBesideLongerKey` | `MinioLaws.AppendIntendedCreates` |
| src/main/java/org/folio/s3/client/AwsS3Client.java:100-104 | the same existence test as MinIO's | an object "a.csv.bak" and no "a.csv": append("a.csv", data) fails over a connection with no failures | a missing path is created with the data | not executed | `AwsLaws.AppendLive` | `AwsLaws.AppendIntendedCreates` |

The corrected definitions are `Minio.AppendIntended` and `Aws.AppendIntended`. They take the write branch when the path itself is not among the listed entries.
