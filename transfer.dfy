/** What `ModUpdater.download_file` does to the destination file, what it
    returns and what it reports to its progress callback, for every response the
    network can give. */
module Transfer {
  import opened Wrappers
  import opened Digests
  import opened Paths

  type Url = string
  /** The local filesystem: file contents by path. Directories are not modelled. */
  type FileMap = map<Path, Bytes>

  /** The Content-Length header: missing (read as 0), an integer, or a value that
      `int()` rejects. */
  datatype LengthHeader = Absent | Length(n: int) | Malformed

  /** What one request gives. Either `urlopen` raises (connection failure, HTTP
      error status), or a response arrives whose successive `read(8192)` calls
      return `chunks` in turn; after the last listed chunk the next read returns
      b"" when `completes`, and raises otherwise. An empty chunk is the end of the
      body: anything listed after it is never read. */
  datatype Response = Unreachable | Reply(length: LengthHeader, chunks: seq<Bytes>, completes: bool)

  /** The network: the response a request for each URL gets. */
  type Fetcher = Url -> Response

  /** Why `download_file` returned `(False, str(e))`. */
  datatype DownloadError = ConnectFailed | BadLength | Interrupted

  /** `int(response.getheader('Content-Length', 0))` */
  function TotalSize(length: LengthHeader): int
    requires !length.Malformed?
  {
    if length.Length? then length.n else 0
  }

  /** The chunks the read loop consumes: those before the first empty read. */
  function Taken(chunks: seq<Bytes>): (taken: seq<Bytes>)
    ensures |taken| <= |chunks| && taken == chunks[..|taken|]
    ensures forall k :: 0 <= k < |taken| ==> taken[k] != []
    ensures |taken| < |chunks| ==> chunks[|taken|] == []
  {
    if chunks == [] || chunks[0] == [] then []
    else [chunks[0]] + Taken(chunks[1..])
  }

  /** The bytes of a sequence of chunks, in order. */
  function Flatten(chunks: seq<Bytes>): Bytes
  {
    if chunks == [] then []
    else Flatten(chunks[..|chunks| - 1]) + chunks[|chunks| - 1]
  }

  /** The running byte count after each chunk. */
  function Totals(chunks: seq<Bytes>): seq<nat>
  {
    if chunks == [] then []
    else Totals(chunks[..|chunks| - 1]) + [|Flatten(chunks)|]
  }

  /** The bytes written to the destination once the response has been read. */
  function Received(r: Response): Bytes
    requires r.Reply?
  {
    Flatten(Taken(r.chunks))
  }

  /** The first result of `download_file`: no exception was raised. */
  predicate DownloadOk(r: Response)
  {
    r.Reply? && !r.length.Malformed? && (|Taken(r.chunks)| < |r.chunks| || r.completes)
  }

  /** The filesystem after `download_file(url, dest, ...)`. The destination is
      opened for writing (and so emptied) as soon as the response arrives and
      every chunk is written to it in place; nothing is rolled back when a later
      step raises. */
  function AfterDownload(files: FileMap, dest: Path, r: Response): FileMap
  {
    match r
    case Unreachable => files
    case Reply(length, chunks, _) =>
      if length.Malformed? then files[dest := []] else files[dest := Received(r)]
  }

  /** The byte counts behind the callback's `downloaded / total_size * 100`, one
      per chunk written, and only when the announced size is positive. */
  function ProgressReports(r: Response): seq<nat>
  {
    if r.Reply? && !r.length.Malformed? && TotalSize(r.length) > 0 then Totals(Taken(r.chunks)) else []
  }

  /** The read loop stops at the first empty chunk, or at the end of the list. */
  lemma TakenIsPrefix(chunks: seq<Bytes>, i: nat)
    requires i <= |chunks|
    requires forall k :: 0 <= k < i ==> chunks[k] != []
    requires i == |chunks| || chunks[i] == []
    ensures Taken(chunks) == chunks[..i]
  {
  }

  /** Reading one more chunk appends it to the bytes written and its running
      total to the totals. */
  lemma ChunkStep(chunks: seq<Bytes>, i: nat)
    requires i < |chunks|
    ensures Flatten(chunks[..i + 1]) == Flatten(chunks[..i]) + chunks[i]
    ensures Totals(chunks[..i + 1]) == Totals(chunks[..i]) + [|Flatten(chunks[..i]) + chunks[i]|]
  {
    assert chunks[..i + 1][..i] == chunks[..i];
  }

  /** One running total per chunk; the totals never decrease, the last one is the
      number of bytes written, and each one counts the bytes written so far. */
  lemma {:induction false} TotalsProperties(chunks: seq<Bytes>)
    ensures |Totals(chunks)| == |chunks|
    ensures forall k :: 0 <= k < |chunks| ==> Totals(chunks)[k] <= |Flatten(chunks)|
    ensures forall j, k :: 0 <= j <= k < |chunks| ==> Totals(chunks)[j] <= Totals(chunks)[k]
    ensures chunks != [] ==> Totals(chunks)[|chunks| - 1] == |Flatten(chunks)|
  {
    if chunks != [] {
      var init := chunks[..|chunks| - 1];
      TotalsProperties(init);
      assert Totals(chunks) == Totals(init) + [|Flatten(chunks)|];
      assert |Flatten(chunks)| == |Flatten(init)| + |chunks[|chunks| - 1]|;
    }
  }

  /** The progress callback fires once per chunk written when the announced size
      is positive, and never otherwise; the counts it is handed never decrease,
      and the last one is the size of the file written. */
  lemma ProgressNeverDecreases(r: Response)
    ensures r.Reply? && !r.length.Malformed? && TotalSize(r.length) > 0 ==> |ProgressReports(r)| == |Taken(r.chunks)|
    ensures !(r.Reply? && !r.length.Malformed? && TotalSize(r.length) > 0) ==> ProgressReports(r) == []
    ensures forall j, k :: 0 <= j <= k < |ProgressReports(r)| ==> ProgressReports(r)[j] <= ProgressReports(r)[k]
    ensures ProgressReports(r) != [] ==> r.Reply? && ProgressReports(r)[|ProgressReports(r)| - 1] == |Received(r)|
  {
    if r.Reply? {
      TotalsProperties(Taken(r.chunks));
    }
  }

  /** A connection that breaks after some chunks leaves those chunks in the
      destination file: there is no temporary file and no rollback. */
  lemma InterruptedDownloadLeavesPartialFile(files: FileMap, dest: Path, r: Response)
    requires r.Reply? && !r.length.Malformed? && !r.completes
    requires forall k :: 0 <= k < |r.chunks| ==> r.chunks[k] != []
    ensures !DownloadOk(r)
    ensures AfterDownload(files, dest, r) == files[dest := Flatten(r.chunks)]
  {
    TakenIsPrefix(r.chunks, |r.chunks|);
    assert r.chunks[..|r.chunks|] == r.chunks;
  }
}
