/** The upload route (`backend/routes/upload.py`): store the file, extract
    its text, cut it into chunks, embed each chunk and turn every chunk with
    a non-empty embedding into a vector record, then upsert the records.
    Storage, extraction libraries, the embedding endpoint, `uuid4` and the
    vector store are oracles. */
module Upload {
  import opened Common
  import opened JsonValue
  import opened Chunker
  import opened Parser
  import opened Embeddings
  import opened Storage

  predicate IsHexDigit(c: char) {
    '0' <= c <= '9' || 'a' <= c <= 'f'
  }

  /** `uuid.uuid4().hex`: 32 lower-case hexadecimal digits. */
  type HexUuid = s: string | |s| == 32 && forall i :: 0 <= i < |s| ==> IsHexDigit(s[i])
    witness "00000000000000000000000000000000"

  /** The `metadata` dict of a record. */
  datatype RecordMetadata = RecordMetadata(documentName: string, chunkText: string, chunkIndex: nat, fileUrl: string)

  /** A record handed to the vector store. */
  datatype VectorRecord = VectorRecord(id: string, values: seq<Json>, metadata: RecordMetadata)

  /** The JSON reply of the route, or the HTTP error it raises. */
  datatype UploadResponse =
    | Processed(message: string, chunksCount: nat, documentText: string, fileUrl: Option<string>)
    | HttpError(status: int, detail: string)

  /** The route's calls to remote services, in order. */
  datatype RouteCall =
      /** the bucket upload of the sanitised name; `stored` when it did not raise */
    | BucketUpload(name: string, stored: bool)
      /** one `generate_embedding(chunk)` */
    | EmbedChunk(chunk: string)
      /** `upsert_vectors(records)` */
    | Upsert(records: seq<VectorRecord>)

  const EmptyTextDetail: string := "Could not extract text from file or file is empty"
  const SuccessMessage: string := "File processed successfully"

  /** The record for chunk number `i`, built with the `j`-th fresh uuid. */
  function RecordFor(filename: string, fileUrl: Option<string>, i: nat, chunk: string,
                     vector: seq<Json>, uuid: HexUuid): VectorRecord
  {
    VectorRecord(filename + "_" + NatToString(i) + "_" + uuid[..6], vector,
                 RecordMetadata(filename, chunk, i, fileUrl.GetOr("")))
  }

  /** The embedding `generate_embedding(chunk)` gives for each chunk, with
      the default number of retries. */
  function ChunkVectors(chunks: seq<string>, http: Http): (vs: seq<seq<Json>>)
    ensures |vs| == |chunks|
    ensures forall i :: 0 <= i < |chunks| ==> vs[i] == Embedding(JStr(chunks[i]), DefaultRetries, http).0
  {
    seq(|chunks|, i requires 0 <= i < |chunks| => Embedding(JStr(chunks[i]), DefaultRetries, http).0)
  }

  /** The records the loop builds for `chunks`, whose embeddings are `vecs`:
      one per chunk with a non-empty embedding, the `j`-th record drawing
      the `j`-th uuid. */
  function Records(chunks: seq<string>, vecs: seq<seq<Json>>, filename: string, fileUrl: Option<string>,
                   uuids: nat -> HexUuid): seq<VectorRecord>
    requires |vecs| == |chunks|
  {
    if chunks == [] then []
    else
      var n := |chunks| - 1;
      var prev := Records(chunks[..n], vecs[..n], filename, fileUrl, uuids);
      if vecs[n] == [] then prev
      else prev + [RecordFor(filename, fileUrl, n, chunks[n], vecs[n], uuids(|prev|))]
  }

  /** The positions of the non-empty embeddings, in order. */
  function KeptIndices(vecs: seq<seq<Json>>): (ks: seq<nat>)
    ensures forall a :: 0 <= a < |ks| ==> ks[a] < |vecs| && vecs[ks[a]] != []
    ensures forall a, b :: 0 <= a < b < |ks| ==> ks[a] < ks[b]
    ensures forall i :: 0 <= i < |vecs| && vecs[i] != [] ==> i in ks
  {
    if vecs == [] then []
    else
      var n := |vecs| - 1;
      var prev := KeptIndices(vecs[..n]);
      if vecs[n] == [] then prev else prev + [n]
  }

  /** The records are exactly one per kept chunk, in chunk order: record j
      belongs to chunk `KeptIndices[j]`, carries that chunk's text, position
      and embedding, and draws uuid number j. */
  lemma {:induction false} RecordsOfKeptChunks(chunks: seq<string>, vecs: seq<seq<Json>>, filename: string,
                                               fileUrl: Option<string>, uuids: nat -> HexUuid)
    requires |vecs| == |chunks|
    ensures var rs := Records(chunks, vecs, filename, fileUrl, uuids);
      var ks := KeptIndices(vecs);
      |rs| == |ks|
      && forall j :: 0 <= j < |rs| ==>
           rs[j] == RecordFor(filename, fileUrl, ks[j], chunks[ks[j]], vecs[ks[j]], uuids(j))
  {
    if chunks != [] {
      var n := |chunks| - 1;
      var prefix, prefixVecs := chunks[..n], vecs[..n];
      RecordsOfKeptChunks(prefix, prefixVecs, filename, fileUrl, uuids);
      var prevRs := Records(prefix, prefixVecs, filename, fileUrl, uuids);
      var prevKs := KeptIndices(prefixVecs);
      var rs := Records(chunks, vecs, filename, fileUrl, uuids);
      var ks := KeptIndices(vecs);
      if vecs[n] != [] {
        assert rs == prevRs + [RecordFor(filename, fileUrl, n, chunks[n], vecs[n], uuids(|prevRs|))];
        assert ks == prevKs + [n];
        forall j | 0 <= j < |rs|
          ensures rs[j] == RecordFor(filename, fileUrl, ks[j], chunks[ks[j]], vecs[ks[j]], uuids(j))
        {
          if j < |prevRs| {
            var k := prevKs[j];
            assert rs[j] == prevRs[j] && ks[j] == k;
            assert prefix[k] == chunks[k] && prefixVecs[k] == vecs[k];
          }
        }
      } else {
        forall j | 0 <= j < |rs|
          ensures rs[j] == RecordFor(filename, fileUrl, ks[j], chunks[ks[j]], vecs[ks[j]], uuids(j))
        {
          var k := prevKs[j];
          assert prefix[k] == chunks[k] && prefixVecs[k] == vecs[k];
        }
      }
    }
  }

  /** A record's `chunk_index` is its chunk's position among all chunks, so
      it is never below the record's own position (skipped chunks leave gaps). */
  lemma ChunkIndexNotBelowPosition(chunks: seq<string>, vecs: seq<seq<Json>>, filename: string,
                                   fileUrl: Option<string>, uuids: nat -> HexUuid, j: nat)
    requires |vecs| == |chunks|
    requires j < |Records(chunks, vecs, filename, fileUrl, uuids)|
    ensures var r := Records(chunks, vecs, filename, fileUrl, uuids)[j];
      j <= r.metadata.chunkIndex < |chunks|
      && r.metadata.chunkText == chunks[r.metadata.chunkIndex]
      && r.values == vecs[r.metadata.chunkIndex] != []
  {
    RecordsOfKeptChunks(chunks, vecs, filename, fileUrl, uuids);
    KeptAtLeastPosition(KeptIndices(vecs), j);
  }

  lemma {:induction false} KeptAtLeastPosition(ks: seq<nat>, j: nat)
    requires forall a, b :: 0 <= a < b < |ks| ==> ks[a] < ks[b]
    requires j < |ks|
    ensures j <= ks[j]
  {
    if j > 0 {
      KeptAtLeastPosition(ks[..j], j - 1);
      assert ks[..j][j - 1] == ks[j - 1];
    }
  }

  /** Record ids are `"{filename}_{i}_"` followed by six hexadecimal digits,
      where the digits of `i` denote the record's `chunk_index`, and the
      metadata names the file and its link (or ""). */
  lemma RecordShape(filename: string, fileUrl: Option<string>, i: nat, chunk: string,
                    vector: seq<Json>, uuid: HexUuid)
    ensures var r := RecordFor(filename, fileUrl, i, chunk, vector, uuid);
      var prefix := filename + "_" + NatToString(i) + "_";
      |r.id| == |prefix| + 6 && r.id[..|prefix|] == prefix
      && (forall k :: |prefix| <= k < |r.id| ==> IsHexDigit(r.id[k]))
      && r.metadata.documentName == filename
      && r.metadata.fileUrl == (if fileUrl.Some? then fileUrl.value else "")
      && DigitsValue(NatToString(i)) == r.metadata.chunkIndex
  {
    NatToStringValue(i);
    var r := RecordFor(filename, fileUrl, i, chunk, vector, uuid);
    var prefix := filename + "_" + NatToString(i) + "_";
    assert r.id == prefix + uuid[..6];
    forall k | |prefix| <= k < |r.id|
      ensures IsHexDigit(r.id[k])
    {
      assert r.id[k] == uuid[k - |prefix|];
    }
  }

  /** One embedding request per chunk, in chunk order. */
  function EmbedCalls(chunks: seq<string>): (calls: seq<RouteCall>)
    ensures |calls| == |chunks|
    ensures forall i :: 0 <= i < |chunks| ==> calls[i] == EmbedChunk(chunks[i])
  {
    seq(|chunks|, i requires 0 <= i < |chunks| => EmbedChunk(chunks[i]))
  }

  lemma EmbedCallsStep(chunks: seq<string>, i: nat)
    requires i < |chunks|
    ensures EmbedCalls(chunks[..i + 1]) == EmbedCalls(chunks[..i]) + [EmbedChunk(chunks[i])]
  {
    assert EmbedCalls(chunks[..i + 1])[..i] == EmbedCalls(chunks[..i]);
  }

  /** The bucket upload `supabase.upload_file` makes: none without a client. */
  function StorageCalls(storage: SupabaseStorage, content: Bytes, filename: string, contentType: string): seq<RouteCall> {
    if storage.client.Some? then
      [BucketUpload(SanitizeFilename(filename), storage.UploadFile(content, filename, contentType).Some?)]
    else []
  }

  /** The `for i, chunk in enumerate(chunks)` loop: every chunk is embedded,
      and the chunks with a non-empty embedding become records. */
  method BuildRecords(chunks: seq<string>, filename: string, fileUrl: Option<string>,
                      http: Http, uuids: nat -> HexUuid)
    returns (vectors: seq<VectorRecord>, calls: seq<RouteCall>)
    ensures vectors == Records(chunks, ChunkVectors(chunks, http), filename, fileUrl, uuids)
    ensures calls == EmbedCalls(chunks)
  {
    ghost var vecs := ChunkVectors(chunks, http);
    vectors := [];
    calls := [];
    for i := 0 to |chunks|
      invariant vectors == Records(chunks[..i], vecs[..i], filename, fileUrl, uuids)
      invariant calls == EmbedCalls(chunks[..i])
    {
      assert chunks[..i + 1][..i] == chunks[..i];
      assert vecs[..i + 1][..i] == vecs[..i];
      EmbedCallsStep(chunks, i);
      calls := calls + [EmbedChunk(chunks[i])];
      var vectorValues, _ := GenerateEmbedding(JStr(chunks[i]), DefaultRetries, http);
      if |vectorValues| == 0 {
        continue;
      }
      var vectorId := filename + "_" + NatToString(i) + "_" + uuids(|vectors|)[..6];
      vectors := vectors + [VectorRecord(vectorId, vectorValues,
                                         RecordMetadata(filename, chunks[i], i, fileUrl.GetOr("")))];
    }
    assert chunks[..|chunks|] == chunks && vecs[..|vecs|] == vecs;
  }

  /** What the route does for one upload: its reply (or the HTTP error it
      raises) and its calls to remote services, in order. The file goes to
      storage first, whatever happens next, so a file without text is still
      stored when the route answers 400. `upsert` gives the message of the
      exception the vector store raises, or None. */
  method UploadFile(content: Bytes, filename: string, contentType: string, storage: SupabaseStorage,
                    libs: Libraries, http: Http, uuids: nat -> HexUuid,
                    upsert: seq<VectorRecord> -> Option<string>)
    returns (response: UploadResponse, calls: seq<RouteCall>)
    ensures var fileUrl := storage.UploadFile(content, filename, contentType);
      var stored := StorageCalls(storage, content, filename, contentType);
      var text := ExtractedText(content, filename, libs);
      var chunks := Chunks(text, DefaultChunkSize, DefaultOverlap);
      var records := Records(chunks, ChunkVectors(chunks, http), filename, fileUrl, uuids);
      if text == "" then
        response == HttpError(400, EmptyTextDetail) && calls == stored
      else
        calls == stored + EmbedCalls(chunks) + (if records != [] then [Upsert(records)] else [])
        && response == (if records != [] && upsert(records).Some? then HttpError(500, upsert(records).value)
                        else Processed(SuccessMessage, |records|, text, fileUrl))
  {
    var fileUrl := storage.UploadFile(content, filename, contentType);
    calls := if storage.client.Some? then [BucketUpload(SanitizeFilename(filename), fileUrl.Some?)] else [];
    var text := ExtractText(content, filename, libs);
    if text == "" {
      return HttpError(400, EmptyTextDetail), calls;
    }
    var chunks := ChunkText(text, DefaultChunkSize, DefaultOverlap);
    var vectors, embedCalls := BuildRecords(chunks, filename, fileUrl, http, uuids);
    calls := calls + embedCalls;
    if vectors != [] {
      calls := calls + [Upsert(vectors)];
      match upsert(vectors) {
        case Some(message) =>
          return HttpError(500, message), calls;
        case None =>
      }
    }
    response := Processed(SuccessMessage, |vectors|, text, fileUrl);
  }

  /** `chunks_count` is the number of records: one per non-empty embedding,
      so never more than the number of chunks. */
  lemma ChunksCountMatchesRecords(chunks: seq<string>, vecs: seq<seq<Json>>, filename: string,
                                  fileUrl: Option<string>, uuids: nat -> HexUuid)
    requires |vecs| == |chunks|
    ensures |Records(chunks, vecs, filename, fileUrl, uuids)| == |KeptIndices(vecs)| <= |chunks|
    ensures Records(chunks, vecs, filename, fileUrl, uuids) == [] <==> forall i :: 0 <= i < |vecs| ==> vecs[i] == []
  {
  }

  lemma {:induction false} KeptBound(vecs: seq<seq<Json>>)
    ensures |KeptIndices(vecs)| <= |vecs|
  {
    if vecs != [] {
      KeptBound(vecs[..|vecs| - 1]);
    }
  }
}
