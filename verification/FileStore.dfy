/**
 The content-addressed file store: an upload is written in groups of chunks to a
 staging file, hashed as it goes, and moved to the path its hash names once it
 is complete. The hash and the format rules are parameters.
 */
module FileStore {
  import opened Values

  type Byte = b: int | 0 <= b < 256
  type Content = seq<Byte>

  const CHUNK_SIZE: nat := 1024 * 1024
  const HEAD_BYTES: nat := 64 * 1024
  const MAX_FIRST_LINE_BYTES: nat := 8 * CHUNK_SIZE
  const NEWLINE: Byte := 10
  const OPENING_BRACE: Byte := 123

  // --------------------------------------------------------- format detection

  predicate IsSpace(b: Byte) {
    b == 32 || 9 <= b <= 13
  }

  /** `bytes.lstrip`. */
  function LeftStrip(data: Content): Content {
    if data != [] && IsSpace(data[0]) then LeftStrip(data[1..]) else data
  }

  /** The data opens like JSON, with no end to its first line. */
  predicate OpenLine(data: Content) {
    var stripped := LeftStrip(data);
    stripped != [] && stripped[0] == OPENING_BRACE && NEWLINE !in stripped
  }

  lemma {:induction false} StripConcat(a: Content, b: Content)
    requires LeftStrip(a) != []
    ensures LeftStrip(a + b) == LeftStrip(a) + b
  {
    if IsSpace(a[0]) {
      assert (a + b)[1..] == a[1..] + b;
      StripConcat(a[1..], b);
    }
  }

  function Read(file: Content, position: nat, n: nat): Content
    requires position <= |file|
  {
    if position + n <= |file| then file[position..position + n] else file[position..]
  }

  /** How many bytes have been read after the head and k more pieces. */
  function Stop(file: Content, k: nat): (n: nat)
    ensures n <= |file|
  {
    var reached := HEAD_BYTES + k * CHUNK_SIZE;
    var bounded := if reached < MAX_FIRST_LINE_BYTES then reached else MAX_FIRST_LINE_BYTES;
    if bounded < |file| then bounded else |file|
  }

  /** Nothing more is read after n bytes: the file is over, the bound is
      reached, or what was read is no open JSON line. */
  predicate Settled(file: Content, n: nat)
    requires n <= |file|
  {
    n == |file| || n >= MAX_FIRST_LINE_BYTES || !OpenLine(file[..n])
  }

  /** The least number of pieces, from k on, after which nothing more is read. */
  function Pieces(file: Content, k: nat): (n: nat)
    ensures k <= n && Settled(file, Stop(file, n))
    ensures forall j :: k <= j < n ==> !Settled(file, Stop(file, j))
    decreases if HEAD_BYTES + k * CHUNK_SIZE < MAX_FIRST_LINE_BYTES then MAX_FIRST_LINE_BYTES - k * CHUNK_SIZE else 0
  {
    if Settled(file, Stop(file, k)) then k else Pieces(file, k + 1)
  }

  /** The bytes a format is told from. */
  function Head(file: Content): Content {
    file[..Stop(file, Pieces(file, 0))]
  }

  /** The first JSON line is read to its end, up to the bound; anything else
      costs the first bytes alone. */
  lemma {:induction false} HeadReach(file: Content)
    ensures OpenLine(Head(file)) ==> |Head(file)| == |file| || |Head(file)| == MAX_FIRST_LINE_BYTES
    ensures !OpenLine(Read(file, 0, HEAD_BYTES)) ==> Head(file) == Read(file, 0, HEAD_BYTES)
    ensures |Head(file)| <= MAX_FIRST_LINE_BYTES
  {
    assert Stop(file, 0) <= |file| && file[..Stop(file, 0)] == Read(file, 0, HEAD_BYTES);
    if !OpenLine(Read(file, 0, HEAD_BYTES)) {
      assert Settled(file, Stop(file, 0));
    }
  }

  /** White space, an opening brace, and no end of line after it. */
  predicate OpenJson(data: Content) {
    exists i :: 0 <= i < |data| && data[i] == 123 && (forall j :: 0 <= j < i ==> data[j] == 32 || 9 <= data[j] <= 13)
                && forall j :: i <= j < |data| ==> data[j] != 10
  }

  lemma {:induction false} OpenMeans(data: Content)
    ensures OpenLine(data) <==> OpenJson(data)
  {
    if data != [] && IsSpace(data[0]) {
      OpenMeans(data[1..]);
      hide LeftStrip;
      assert LeftStrip(data) == LeftStrip(data[1..]) by {
        StripOne(data);
      }
      if OpenJson(data[1..]) {
        var i :| 0 <= i < |data[1..]| && data[1..][i] == 123 && (forall j :: 0 <= j < i ==> data[1..][j] == 32 || 9 <= data[1..][j] <= 13)
                && forall j :: i <= j < |data[1..]| ==> data[1..][j] != 10;
        assert forall j :: 0 < j < |data| ==> data[j] == data[1..][j - 1];
        assert data[i + 1] == 123;
      }
      if OpenJson(data) {
        var i :| 0 <= i < |data| && data[i] == 123 && (forall j :: 0 <= j < i ==> data[j] == 32 || 9 <= data[j] <= 13)
                && forall j :: i <= j < |data| ==> data[j] != 10;
        assert forall j :: 0 <= j < |data| - 1 ==> data[1..][j] == data[j + 1];
        assert data[1..][i - 1] == 123;
      }
    } else if data != [] && data[0] == 123 && NEWLINE !in data {
      assert OpenJson(data);
    }
  }

  lemma StripOne(data: Content)
    requires data != [] && IsSpace(data[0])
    ensures LeftStrip(data) == LeftStrip(data[1..])
  {
  }

  /** A read may stop at 64 KiB, at each MiB more, at 8 MiB and at the end. */
  predicate StopsAt(file: Content, k: nat, n: nat) {
    && n <= 0x10000 + k * 0x100000 && n <= 0x800000 && n <= |file|
    && (n == 0x10000 + k * 0x100000 || n == 0x800000 || n == |file|)
  }

  lemma StopMeans(file: Content, k: nat)
    ensures StopsAt(file, k, Stop(file, k))
    ensures forall n: nat :: StopsAt(file, k, n) ==> n == Stop(file, k)
  {
  }

  /** The format is told from the bytes up to the first stop at which no JSON line
      is open, or there is nothing more to read. */
  lemma {:induction false} HeadExact(file: Content) returns (k: nat)
    ensures Head(file) <= file && StopsAt(file, k, |Head(file)|)
    ensures |Head(file)| == |file| || |Head(file)| == 0x800000 || !OpenJson(Head(file))
    ensures forall j: nat, n: nat :: j < k && StopsAt(file, j, n) ==> n < |file| && n < 0x800000 && OpenJson(file[..n])
  {
    k := Pieces(file, 0);
    StopMeans(file, k);
    OpenMeans(Head(file));
    hide OpenLine, OpenJson, StopsAt, Pieces;
    assert Settled(file, Stop(file, k));
    forall j: nat, n: nat | j < k && StopsAt(file, j, n) ensures n < |file| && n < 0x800000 && OpenJson(file[..n]) {
      StopMeans(file, j);
      assert !Settled(file, Stop(file, j));
      OpenMeans(file[..n]);
    }
  }

  lemma FirstRead(file: Content)
    ensures Read(file, 0, HEAD_BYTES) == file[..Stop(file, 0)]
  {
  }

  lemma HeadIs(file: Content, k: nat)
    requires Settled(file, Stop(file, k)) && Pieces(file, k) == Pieces(file, 0)
    ensures Head(file) == file[..Stop(file, k)]
  {
  }

  lemma NextPiece(file: Content, k: nat)
    requires Stop(file, k) < MAX_FIRST_LINE_BYTES && Stop(file, k) < |file| && OpenLine(file[..Stop(file, k)])
    ensures var n := Stop(file, k);
            var room := MAX_FIRST_LINE_BYTES - n;
            var piece := Read(file, n, if CHUNK_SIZE <= room then CHUNK_SIZE else room);
            && Pieces(file, k) == Pieces(file, k + 1)
            && piece != [] && file[..n] + piece == file[..Stop(file, k + 1)]
            && (OpenLine(file[..Stop(file, k + 1)]) <==> NEWLINE !in piece)
  {
    var n := Stop(file, k);
    var room := MAX_FIRST_LINE_BYTES - n;
    var piece := Read(file, n, if CHUNK_SIZE <= room then CHUNK_SIZE else room);
    assert |piece| == Stop(file, k + 1) - n;
    assert file[..n] + piece == file[..Stop(file, k + 1)];
    StripConcat(file[..n], piece);
  }

  /** The reading of `detect_file_format`: what `detect_format` is given. */
  method ReadHead(file: Content) returns (head: Content, truncated: bool)
    ensures head == Head(file) && (truncated <==> |head| < |file|)
  {
    hide LeftStrip, OpenLine, Pieces, Head, Stop;
    head := Read(file, 0, HEAD_BYTES);
    FirstRead(file);
    ghost var k := 0;
    if OpenLine(head) {
      while |head| < MAX_FIRST_LINE_BYTES
        invariant head == file[..Stop(file, k)] && OpenLine(head)
        invariant Pieces(file, k) == Pieces(file, 0)
        decreases MAX_FIRST_LINE_BYTES - |head|
      {
        var room := MAX_FIRST_LINE_BYTES - |head|;
        var piece := Read(file, |head|, if CHUNK_SIZE <= room then CHUNK_SIZE else room);
        if piece == [] {
          break;
        }
        NextPiece(file, k);
        head, k := head + piece, k + 1;
        if NEWLINE in piece {
          break;
        }
      }
    }
    HeadIs(file, k);
    truncated := |head| < |file|;
  }

  // ------------------------------------------------------------------- upload

  function Concat(chunks: seq<Content>): Content {
    if chunks == [] then [] else Concat(chunks[..|chunks| - 1]) + chunks[|chunks| - 1]
  }

  lemma ConcatSnoc(chunks: seq<Content>, chunk: Content)
    ensures Concat(chunks + [chunk]) == Concat(chunks) + chunk
  {
    assert (chunks + [chunk])[..|chunks|] == chunks;
  }

  lemma {:induction false} ConcatGrows(chunks: seq<Content>, i: nat)
    requires i <= |chunks|
    ensures Concat(chunks[..i]) <= Concat(chunks)
    decreases |chunks| - i
  {
    if i == |chunks| {
      assert chunks[..i] == chunks;
    } else {
      assert chunks[..i + 1][..i] == chunks[..i];
      ConcatGrows(chunks, i + 1);
    }
  }

  datatype Failure = ExtensionRefused | TooLarge | Interrupted | FormatRefused | DetectionRaised

  /** What `detect_format` does: a format, its own refusal, or an exception of a
      parser it does not catch. */
  datatype Detection = Known(format: string) | Refused | Raises

  datatype StoredFile = StoredFile(path: string, size: nat, contentHash: string, format: string)

  /** What `store` is given: the name's extension, the chunks, and the number of
      chunks after which the stream raises, if it does. */
  datatype Upload = Upload(name: string, chunks: seq<Content>, breaks: Option<nat>)
  {
    /** The chunks that arrive. */
    function Arriving(): seq<Content> {
      if breaks.Some? && breaks.value < |chunks| then chunks[..breaks.value] else chunks
    }

    predicate Breaks() {
      breaks.Some? && breaks.value <= |chunks|
    }
  }

  ghost predicate Injective(hash: Content -> string) {
    forall a: Content, b: Content :: hash(a) == hash(b) ==> a == b
  }

  /** `<root>/<hash[:2]>/<hash>`. */
  function FinalPath(root: string, hash: string): string {
    root + "/" + (if |hash| <= 2 then hash else hash[..2]) + "/" + hash
  }

  /** Different hashes are at different paths. */
  lemma {:induction false} PathsDiffer(root: string, a: string, b: string)
    requires FinalPath(root, a) == FinalPath(root, b) && |a| == |b|
    ensures a == b
  {
    var n := |FinalPath(root, a)|;
    assert FinalPath(root, a)[n - |a|..] == a && FinalPath(root, b)[n - |b|..] == b;
  }

  /** A file is in the folder of the first two characters of its hash. */
  lemma {:induction false} PathMeans(root: string, hash: string)
    requires |hash| >= 2
    ensures var path := FinalPath(root, hash);
            && path == root + "/" + path[|root| + 1..|root| + 3] + "/" + path[|root| + 4..]
            && path[|root| + 4..] == hash && path[|root| + 1..|root| + 3] == hash[..2]
  {
  }

  class LocalFileStorage {
    const root: string
    const maxBytes: int
    const allowed: string -> bool
    const hash: Content -> string
    const detect: (Content, bool, string) -> Detection
    /** The files at their final paths, by hash, and the staging file. */
    var files: map<string, Content>
    var staging: Option<Content>

    constructor (root: string, maxBytes: int, allowed: string -> bool, hash: Content -> string, detect: (Content, bool, string) -> Detection)
      ensures this.root == root && this.maxBytes == maxBytes && this.allowed == allowed && this.hash == hash && this.detect == detect
      ensures files == map[] && Valid()
    {
      this.root, this.maxBytes, this.allowed, this.hash, this.detect := root, maxBytes, allowed, hash, detect;
      files, staging := map[], None;
    }

    /** Every stored path holds content whose hash is its name, and no staging
        file is left behind. */
    predicate Valid()
      reads this
    {
      staging.None? && forall name :: name in files ==> hash(files[name]) == name
    }

    /** `_append`: one group of chunks, hashed and written. */
    method Append(group: Content, digested: Content) returns (after: Content)
      requires staging.Some?
      modifies this`staging
      ensures staging == Some(old(staging).value + group) && after == digested + group
    {
      staging := Some(staging.value + group);
      after := digested + group;
    }

    /** The format of a file, from its head and its name. */
    function Detected(file: Content, name: string): Detection {
      detect(Head(file), |Head(file)| < |file|, name)
    }

    /** `_place`: the staged file goes to its final path, unless one is there. */
    method Place(contentHash: string, size: nat, name: string) returns (r: Result<StoredFile, Failure>)
      requires staging.Some?
      modifies this
      ensures r == match Detected(old(staging).value, name)
                   case Known(format) => Ok(StoredFile(FinalPath(root, contentHash), size, contentHash, format))
                   case Refused => Err(FormatRefused)
                   case Raises => Err(DetectionRaised)
      ensures r.Err? ==> files == old(files) && staging == old(staging)
      ensures r.Ok? ==>
                && staging.None?
                && files == (if contentHash in old(files) then old(files) else old(files)[contentHash := old(staging).value])
    {
      var head, truncated := ReadHead(staging.value);
      var detection := detect(head, truncated, name);
      if detection.Refused? {
        return Err(FormatRefused);
      }
      if detection.Raises? {
        return Err(DetectionRaised);
      }
      if contentHash !in files {
        files := files[contentHash := staging.value];
      }
      staging := None;
      return Ok(StoredFile(FinalPath(root, contentHash), size, contentHash, detection.format));
    }

    /** Nothing is checked against the limit when nothing arrives. */
    predicate Fits(content: Content) {
      |content| <= maxBytes || content == []
    }

    /** The upload reaches its end. */
    predicate Complete(upload: Upload) {
      allowed(upload.name) && Fits(Concat(upload.Arriving())) && !upload.Breaks()
    }

    /** The writing loop of `store`: chunks are grouped up to CHUNK_SIZE, and the
        limit is checked before anything is buffered. */
    method Receive(chunks: seq<Content>) returns (fits: bool, digested: Content, size: nat, ghost peak: nat)
      requires staging == Some([])
      modifies this`staging
      ensures staging.Some?
      ensures fits <==> Fits(Concat(chunks))
      ensures fits ==> digested == staging.value == Concat(chunks) && size == |Concat(chunks)|
      ensures peak == 0 || peak <= maxBytes
    {
      digested, size, peak := [], 0, 0;
      var pending: seq<Content> := [];
      var pendingSize := 0;
      hide Concat;
      NoChunks(chunks);
      for i := 0 to |chunks|
        invariant staging.Some? && digested == staging.value
        invariant staging.value + Concat(pending) == Concat(chunks[..i])
        invariant size == |Concat(chunks[..i])| && (size == 0 || size <= maxBytes)
        invariant pendingSize == |Concat(pending)|
        invariant peak == |staging.value|
      {
        var chunk := chunks[i];
        ConcatSnoc(chunks[..i], chunk);
        assert chunks[..i + 1] == chunks[..i] + [chunk];
        if chunk == [] {
          continue;
        }
        size := size + |chunk|;
        if size > maxBytes {
          ConcatGrows(chunks, i + 1);
          return false, digested, size, peak;
        }
        ConcatSnoc(pending, chunk);
        assert staging.value + (Concat(pending) + chunk) == Concat(chunks[..i]) + chunk;
        pending := pending + [chunk];
        pendingSize := pendingSize + |chunk|;
        if pendingSize >= CHUNK_SIZE {
          digested := Append(Concat(pending), digested);
          peak := |staging.value|;
          pending, pendingSize := [], 0;
          assert staging.value + [] == staging.value;
        }
      }
      assert chunks[..|chunks|] == chunks;
      digested := Append(Concat(pending), digested);
      peak := |staging.value|;
      fits := true;
    }

    /** `store`. For every split of an upload into chunks, what is hashed and
        stored is its content; what is refused leaves no trace, and an upload
        over the limit is refused with at most the limit written. `peak` is the
        size the staging file reached. */
    method Store(upload: Upload) returns (r: Result<StoredFile, Failure>, ghost peak: nat)
      requires Valid()
      modifies this
      ensures Valid()
      ensures forall name :: name in old(files) ==> name in files && files[name] == old(files)[name]
      ensures r.Err? ==> files == old(files)
      ensures r.Ok? ==>
                var content := Concat(upload.chunks);
                && Detected(content, upload.name) == Known(r.value.format)
                && r.value == StoredFile(FinalPath(root, hash(content)), |content|, hash(content), r.value.format)
                && files.Keys == old(files).Keys + {hash(content)}
                && (hash(content) !in old(files) ==> files[hash(content)] == content)
                && (Injective(hash) ==> files[hash(content)] == content)
      ensures !allowed(upload.name) <==> r == Err(ExtensionRefused)
      ensures r == Err(TooLarge) <==> allowed(upload.name) && !Fits(Concat(upload.Arriving()))
      ensures r == Err(Interrupted) <==> allowed(upload.name) && Fits(Concat(upload.Arriving())) && upload.Breaks()
      ensures r == Err(FormatRefused) <==> Complete(upload) && Detected(Concat(upload.chunks), upload.name).Refused?
      ensures r == Err(DetectionRaised) <==> Complete(upload) && Detected(Concat(upload.chunks), upload.name).Raises?
      ensures r.Ok? <==> Complete(upload) && Detected(Concat(upload.chunks), upload.name).Known?
      ensures peak == 0 || peak <= maxBytes
    {
      if !allowed(upload.name) {
        return Err(ExtensionRefused), 0;
      }
      hide Concat;
      staging := Some([]);
      var fits, digested, size, reached := Receive(upload.Arriving());
      peak := reached;
      if !fits {
        staging := None;
        return Err(TooLarge), peak;
      }
      if upload.Breaks() {
        staging := None;
        return Err(Interrupted), peak;
      }
      assert upload.Arriving() == upload.chunks;
      r := Place(hash(digested), size, upload.name);
      staging := None;
    }
  }

  lemma NoChunks(chunks: seq<Content>)
    ensures Concat([]) == [] && chunks[..0] == []
  {
  }
}
