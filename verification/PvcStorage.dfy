/**
  The PVC staging store: chunked copies with an in-stream checksum.

  Readers and writers are described by what they answer call by call, so every chunking, short
  write and error is covered.  The checksum function is a parameter; nothing is assumed of it.
 */
module PvcStorage {
  import opened Common

  newtype Byte = b: int | 0 <= b < 256

  type Bytes = seq<Byte>

  datatype ErrorType = NotFound | ChecksumMismatch | InvalidConfig | OperationFailed

  // ---------------------------------------------------------------------------------------
  // Addresses

  /** White space as Unicode defines it. */
  predicate IsSpace(ch: char) {
    || ch in {' ', '\t', '\n', '\U{0B}', '\U{0C}', '\r', '\U{85}', '\U{A0}'}
    || ch in {'\U{1680}', '\U{2028}', '\U{2029}', '\U{202F}', '\U{205F}', '\U{3000}'}
    || '\U{2000}' <= ch <= '\U{200A}'
  }

  function TrimSpace(s: string): string {
    if s != [] && IsSpace(s[0]) then TrimSpace(s[1..])
    else if s != [] && IsSpace(s[|s| - 1]) then TrimSpace(s[..|s| - 1])
    else s
  }

  const SCHEME := "pvc://"

  function TrimScheme(s: string): string {
    if SCHEME <= s then s[|SCHEME|..] else s
  }

  predicate HasDotDot(s: string) {
    exists i :: 0 <= i < |s| - 1 && s[i] == '.' && s[i + 1] == '.'
  }

  /** The text after the first slash, if there is one. */
  function AfterSlash(s: string): Option<string> {
    if s == [] then None else if s[0] == '/' then Some(s[1..]) else AfterSlash(s[1..])
  }

  /** The name up to the next slash and what follows it. */
  function FirstName(s: string): (r: (string, string))
    ensures |r.1| <= |s| && (s != [] ==> |r.1| < |s|)
    ensures '/' !in r.0 && r.0 <= s
  {
    if s == [] then ([], [])
    else if s[0] == '/' then ([], s[1..])
    else
      var (name, rest) := FirstName(s[1..]);
      ([s[0]] + name, rest)
  }

  /** The names of a cleaned path: empty and "." names disappear. */
  function Names(s: string): (names: seq<string>)
    ensures forall n :: n in names ==> n != "" && n != "." && '/' !in n
    decreases |s|
  {
    if s == [] then []
    else
      var (name, rest) := FirstName(s);
      (if name == "" || name == "." then [] else [name]) + Names(rest)
  }

  /** A cleaned absolute path, as its names from the root. */
  type Path = seq<string>

  /** Resolves a staging address below the mount; None when it is refused. */
  function ParsePath(mount: Path, url: string): Option<Path> {
    var bare := TrimScheme(TrimSpace(url));
    if HasDotDot(bare) then None
    else match AfterSlash(bare)
    case None => None
    case Some(file) => Some(mount + Names(file))
  }

  // ---------------------------------------------------------------------------------------
  // Copying

  datatype ReadEnd = More | Eof | ReadError

  /** One answer of a reader: the bytes it delivered and how it ended. */
  datatype ReadResult = ReadResult(data: Bytes, end: ReadEnd)

  /** One answer of a destination to a write: how many bytes it says it took, and whether it failed. */
  datatype WriteResult = WriteResult(taken: int, failed: bool)

  /** A reader that has run out of answers is at end of file. */
  function ReadAt(reader: seq<ReadResult>, i: nat): ReadResult {
    if i < |reader| then reader[i] else ReadResult([], Eof)
  }

  /** The part of a chunk that reaches the destination. */
  function Landed(data: Bytes, w: WriteResult): Bytes {
    data[..Min(Max(w.taken, 0), |data|)]
  }

  predicate FullWrite(data: Bytes, w: WriteResult) {
    !w.failed && w.taken == |data|
  }

  datatype Copy = Copy(landed: Bytes, error: Option<ErrorType>) {
    /** The same copy after some bytes had already landed. */
    function After(head: Bytes): Copy {
      Copy(head + landed, error)
    }
  }

  /** The copy as a function of the answers, from the i-th read on. */
  function CopyFrom(reader: seq<ReadResult>, writes: nat -> WriteResult, i: nat): (copy: Copy)
    ensures copy.error in {None, Some(OperationFailed)}
    decreases |reader| - i
  {
    var r := ReadAt(reader, i);
    if r.data != [] && !FullWrite(r.data, writes(i)) then Copy(Landed(r.data, writes(i)), Some(OperationFailed))
    else match r.end
    case Eof => Copy(r.data, None)
    case ReadError => Copy(r.data, Some(OperationFailed))
    case More => CopyFrom(reader, writes, i + 1).After(r.data)
  }

  /** Everything the reader delivers up to its end of file. */
  function Content(reader: seq<ReadResult>): Bytes {
    if reader == [] then []
    else reader[0].data + if reader[0].end == More then Content(reader[1..]) else []
  }

  /** The reader reaches its end of file without an error. */
  predicate Readable(reader: seq<ReadResult>) {
    reader == [] || reader[0].end == Eof || (reader[0].end == More && Readable(reader[1..]))
  }

  /** The destination takes every chunk up to the reader's end. */
  predicate Accepts(reader: seq<ReadResult>, writes: nat -> WriteResult, i: nat)
    decreases |reader| - i
  {
    i < |reader| ==>
      && (reader[i].data != [] ==> FullWrite(reader[i].data, writes(i)))
      && (reader[i].end == More ==> Accepts(reader, writes, i + 1))
  }

  /**
    A copy succeeds exactly when the reader ends cleanly and every chunk is taken in full, and
    then the destination holds the reader's whole content, however it was chunked.
   */
  lemma {:induction false} CopySucceedsIff(reader: seq<ReadResult>, writes: nat -> WriteResult, i: nat)
    requires i <= |reader|
    ensures CopyFrom(reader, writes, i).error.None? <==> Readable(reader[i..]) && Accepts(reader, writes, i)
    ensures CopyFrom(reader, writes, i).error.None? ==> CopyFrom(reader, writes, i).landed == Content(reader[i..])
    decreases |reader| - i
  {
    if i < |reader| {
      assert reader[i..][1..] == reader[i + 1..];
      CopySucceedsIff(reader, writes, i + 1);
    }
  }

  /** Whatever goes wrong, the destination only ever holds a prefix of the content. */
  lemma {:induction false} CopyLandsPrefix(reader: seq<ReadResult>, writes: nat -> WriteResult, i: nat)
    requires i <= |reader|
    ensures CopyFrom(reader, writes, i).landed <= Content(reader[i..])
    decreases |reader| - i
  {
    if i < |reader| {
      assert reader[i..][1..] == reader[i + 1..];
      CopyLandsPrefix(reader, writes, i + 1);
    }
  }

  /** Writing a chunk to the destination and then to the hasher, as io.MultiWriter does. */
  function MultiWrite(data: Bytes, w: WriteResult): WriteResult {
    if w.failed || w.taken != |data| then WriteResult(w.taken, true) else WriteResult(|data|, false)
  }

  /** One pass over the write half of the loop: the bytes it counts, and whether the copy stops. */
  method WriteChunk(data: Bytes, w: WriteResult, hashing: bool) returns (counted: int, stops: bool)
    requires data != []
    ensures stops <==> !FullWrite(data, w)
    ensures !stops ==> counted == |data|
  {
    var answer := if hashing then MultiWrite(data, w) else w;
    var taken, failed := answer.taken, answer.failed;
    if taken < 0 || |data| < taken {
      taken, failed := 0, true;
    }
    return taken, failed || |data| != taken;
  }

  /** Landing a chunk moves it from the copy still to be done to what has landed. */
  lemma {:induction false} CopyStep(reader: seq<ReadResult>, writes: nat -> WriteResult, i: nat, head: Bytes)
    ensures var r, copy := ReadAt(reader, i), CopyFrom(reader, writes, i);
            if r.data != [] && !FullWrite(r.data, writes(i)) then
              copy.After(head) == Copy(head + Landed(r.data, writes(i)), Some(OperationFailed))
            else if r.end == Eof then copy.After(head) == Copy(head + r.data, None)
            else if r.end == ReadError then copy.After(head) == Copy(head + r.data, Some(OperationFailed))
            else i < |reader| && copy.After(head) == CopyFrom(reader, writes, i + 1).After(head + r.data)
  {
    var r := ReadAt(reader, i);
    if i < |reader| {
      var rest := CopyFrom(reader, writes, i + 1).landed;
      assert head + (r.data + rest) == (head + r.data) + rest;
    }
  }

  /**
    The copy loop shared by uploads and downloads.  `hashed` is what the hasher was fed; with
    hashing off the destination is written directly.
   */
  method CopyLoop(reader: seq<ReadResult>, writes: nat -> WriteResult, hashing: bool)
    returns (landed: Bytes, hashed: Bytes, transferred: int, error: Option<ErrorType>)
    ensures Copy(landed, error) == CopyFrom(reader, writes, 0)
    ensures error.None? ==> transferred == |landed| && (hashing ==> hashed == landed)
  {
    landed, hashed, transferred, error := [], [], 0, None;
    var i := 0;
    while true
      invariant 0 <= i <= |reader|
      invariant error.None? && transferred == |landed| && (hashing ==> hashed == landed)
      invariant CopyFrom(reader, writes, 0) == CopyFrom(reader, writes, i).After(landed)
      decreases |reader| - i
    {
      var r := ReadAt(reader, i);
      CopyStep(reader, writes, i, landed);
      if |r.data| > 0 {
        var counted, stops := WriteChunk(r.data, writes(i), hashing);
        transferred := transferred + counted;
        if stops {
          landed, error := landed + Landed(r.data, writes(i)), Some(OperationFailed);
          return;
        }
        landed := landed + r.data;
        if hashing {
          hashed := hashed + r.data;
        }
      }
      if r.end != More {
        if r.end != Eof {
          error := Some(OperationFailed);
        }
        return;
      }
      i := i + 1;
    }
  }

  // ---------------------------------------------------------------------------------------
  // The store

  /** Where an upload takes its bytes from; a source file may fail to open or to be measured. */
  datatype Source =
    | NoSource
    | FromFile(file: Option<seq<ReadResult>>, statFails: bool)
    | FromReader(reader: seq<ReadResult>)

  /** The answers of the file system to one upload. */
  datatype UploadEnv = UploadEnv(mkdirFails: bool, createFails: bool, writes: nat -> WriteResult, syncFails: bool)

  datatype UploadResult =
    | Uploaded(url: string, checksum: string, bytesTransferred: int)
    | UploadFailed(error: ErrorType)

  /** The answers of the file system and of the destination to one download. */
  datatype DownloadEnv = DownloadEnv(
    openFails: bool, statFails: bool, hasDestination: bool, destinationFails: bool,
    reader: seq<ReadResult>, writes: nat -> WriteResult)

  datatype DownloadResult =
    | Downloaded(bytesTransferred: int, checksum: string, contentLength: int)
    | DownloadFailed(error: ErrorType)

  function SourceReader(src: Source): Option<seq<ReadResult>> {
    match src
    case NoSource => None
    case FromFile(file, statFails) => if statFails then None else file
    case FromReader(reader) => Some(reader)
  }

  function SourceError(src: Source): ErrorType {
    match src
    case NoSource => InvalidConfig
    case FromFile(None, _) => NotFound
    case _ => OperationFailed
  }

  /** The store as an upload or download sees it. */
  datatype Volume = Volume(mount: Path, checksumOf: Bytes -> string, files: map<Path, Bytes>)

  /** What an upload leaves in the files, and its answer. */
  function UploadOutcome(v: Volume, url: string, src: Source, checksum: string, env: UploadEnv)
    : (map<Path, Bytes>, UploadResult)
  {
    match ParsePath(v.mount, url)
    case None => (v.files, UploadFailed(InvalidConfig))
    case Some(path) =>
      if env.mkdirFails then (v.files, UploadFailed(OperationFailed))
      else match SourceReader(src)
      case None => (v.files, UploadFailed(SourceError(src)))
      case Some(reader) =>
        if env.createFails then (v.files, UploadFailed(OperationFailed))
        else
          var copy := CopyFrom(reader, env.writes, 0);
          var actual := v.checksumOf(copy.landed);
          if copy.error.Some? then (v.files[path := copy.landed], UploadFailed(copy.error.value))
          else if env.syncFails then (v.files[path := copy.landed], UploadFailed(OperationFailed))
          else if checksum != "" && checksum != actual then (v.files - {path}, UploadFailed(ChecksumMismatch))
          else (v.files[path := copy.landed], Uploaded(url, actual, |copy.landed|))
  }

  /** What a download delivers, and its answer. */
  function DownloadOutcome(v: Volume, url: string, verify: bool, expected: string, env: DownloadEnv)
    : (Bytes, DownloadResult)
  {
    match ParsePath(v.mount, url)
    case None => ([], DownloadFailed(InvalidConfig))
    case Some(path) =>
      if path !in v.files then ([], DownloadFailed(NotFound))
      else if env.openFails || env.statFails then ([], DownloadFailed(OperationFailed))
      else if !env.hasDestination then ([], DownloadFailed(InvalidConfig))
      else if env.destinationFails then ([], DownloadFailed(OperationFailed))
      else
        var copy := CopyFrom(env.reader, env.writes, 0);
        var actual := if verify then v.checksumOf(copy.landed) else "";
        if copy.error.Some? then (copy.landed, DownloadFailed(copy.error.value))
        else if verify && expected != "" && expected != actual then (copy.landed, DownloadFailed(ChecksumMismatch))
        else (copy.landed, Downloaded(|copy.landed|, actual, |v.files[path]|))
  }

  class PvcStore {
    const mount: Path
    const checksumOf: Bytes -> string
    var files: map<Path, Bytes>

    constructor (mount: Path, checksumOf: Bytes -> string, files: map<Path, Bytes>)
      ensures View() == Volume(mount, checksumOf, files)
    {
      this.mount, this.checksumOf, this.files := mount, checksumOf, files;
    }

    function View(): Volume
      reads this
    {
      Volume(mount, checksumOf, files)
    }

    method Upload(url: string, src: Source, checksum: string, env: UploadEnv) returns (result: UploadResult)
      modifies this
      ensures (files, result) == UploadOutcome(old(View()), url, src, checksum, env)
    {
      var parsed := ParsePath(mount, url);
      if parsed.None? {
        return UploadFailed(InvalidConfig);
      }
      var path := parsed.value;
      if env.mkdirFails {
        return UploadFailed(OperationFailed);
      }
      var source := SourceReader(src);
      if source.None? {
        return UploadFailed(SourceError(src));
      }
      if env.createFails {
        return UploadFailed(OperationFailed);
      }
      var landed, hashed, transferred, error := CopyLoop(source.value, env.writes, true);
      files := files[path := landed];
      if error.Some? {
        return UploadFailed(error.value);
      }
      if env.syncFails {
        return UploadFailed(OperationFailed);
      }
      var actual := checksumOf(hashed);
      if checksum != "" && checksum != actual {
        files := files - {path};
        assert files == old(files) - {path};
        return UploadFailed(ChecksumMismatch);
      }
      return Uploaded(url, actual, transferred);
    }

    method Download(url: string, verify: bool, expected: string, env: DownloadEnv)
      returns (delivered: Bytes, result: DownloadResult)
      ensures (delivered, result) == DownloadOutcome(View(), url, verify, expected, env)
    {
      var parsed := ParsePath(mount, url);
      if parsed.None? {
        return [], DownloadFailed(InvalidConfig);
      }
      if parsed.value !in files {
        return [], DownloadFailed(NotFound);
      }
      if env.openFails || env.statFails {
        return [], DownloadFailed(OperationFailed);
      }
      var contentLength := |files[parsed.value]|;
      if !env.hasDestination {
        return [], DownloadFailed(InvalidConfig);
      }
      if env.destinationFails {
        return [], DownloadFailed(OperationFailed);
      }
      var landed, hashed, transferred, error := CopyLoop(env.reader, env.writes, verify);
      if error.Some? {
        return landed, DownloadFailed(error.value);
      }
      var checksum := "";
      if verify {
        checksum := checksumOf(hashed);
        if expected != "" && expected != checksum {
          return landed, DownloadFailed(ChecksumMismatch);
        }
      }
      return landed, Downloaded(transferred, checksum, contentLength);
    }
  }

  // ---------------------------------------------------------------------------------------
  // What a transfer promises

  predicate UploadWorks(env: UploadEnv) {
    !env.mkdirFails && !env.createFails && !env.syncFails
  }

  /**
    An upload succeeds exactly when its address resolves, nothing around the copy fails, the
    source reads cleanly into a destination that takes every chunk, and the announced checksum,
    if any, is that of the content.  It then stores exactly the content and reports its length
    and checksum, whatever the chunking.
   */
  lemma UploadStoresContentIff(v: Volume, url: string, src: Source, checksum: string, env: UploadEnv)
    ensures var (files, result) := UploadOutcome(v, url, src, checksum, env);
            var path, source := ParsePath(v.mount, url), SourceReader(src);
            && (result.Uploaded? <==>
                  && path.Some? && source.Some? && UploadWorks(env)
                  && Readable(source.value) && Accepts(source.value, env.writes, 0)
                  && (checksum == "" || checksum == v.checksumOf(Content(source.value))))
            && (result.Uploaded? ==>
                  && files == v.files[path.value := Content(source.value)]
                  && result == Uploaded(url, v.checksumOf(Content(source.value)), |Content(source.value)|))
  {
    if SourceReader(src).Some? {
      var reader := SourceReader(src).value;
      CopySucceedsIff(reader, env.writes, 0);
      assert reader[0..] == reader;
    }
  }

  /**
    A failed upload never touches another file.  The addressed file is unchanged, removed by a
    checksum mismatch, or left holding a prefix of what was being uploaded.
   */
  lemma FailedUploadLeaves(v: Volume, url: string, src: Source, checksum: string, env: UploadEnv)
    requires UploadOutcome(v, url, src, checksum, env).1.UploadFailed?
    ensures var (files, result) := UploadOutcome(v, url, src, checksum, env);
            || files == v.files
            || (&& ParsePath(v.mount, url).Some? && SourceReader(src).Some?
                && var path, content := ParsePath(v.mount, url).value, Content(SourceReader(src).value);
                && files - {path} == v.files - {path}
                && if result.error == ChecksumMismatch then path !in files else path in files && files[path] <= content)
  {
    if SourceReader(src).Some? {
      var reader := SourceReader(src).value;
      CopyLandsPrefix(reader, env.writes, 0);
      assert reader[0..] == reader;
      if ParsePath(v.mount, url).Some? {
        var path, landed := ParsePath(v.mount, url).value, CopyFrom(reader, env.writes, 0).landed;
        assert v.files[path := landed] - {path} == v.files - {path};
      }
    }
  }

  /** The environment of a download that reads the stored bytes, in any chunking, into a working destination. */
  predicate DownloadWorks(stored: Bytes, env: DownloadEnv) {
    && !env.openFails && !env.statFails && env.hasDestination && !env.destinationFails
    && Readable(env.reader) && Content(env.reader) == stored
    && Accepts(env.reader, env.writes, 0)
  }

  /**
    Round trip: whatever an upload stored comes back.  For every chunking on either side, a
    verified download of the uploaded address that expects the reported checksum succeeds and
    delivers the uploaded bytes, even when other files changed in between.
   */
  lemma RoundTrip(v: Volume, url: string, src: Source, checksum: string, up: UploadEnv, w: Volume, down: DownloadEnv)
    requires UploadOutcome(v, url, src, checksum, up).1.Uploaded?
    requires w.mount == v.mount && w.checksumOf == v.checksumOf
    requires var path := ParsePath(v.mount, url).value;
             path in w.files && w.files[path] == UploadOutcome(v, url, src, checksum, up).0[path]
    requires DownloadWorks(w.files[ParsePath(v.mount, url).value], down)
    ensures var sent := Content(SourceReader(src).value);
            var reported := UploadOutcome(v, url, src, checksum, up).1.checksum;
            DownloadOutcome(w, url, true, reported, down) == (sent, Downloaded(|sent|, reported, |sent|))
  {
    UploadStoresContentIff(v, url, src, checksum, up);
    CopySucceedsIff(down.reader, down.writes, 0);
    assert down.reader[0..] == down.reader;
  }

  /** Two different contents with one checksum. */
  predicate Collision(checksumOf: Bytes -> string, a: Bytes, b: Bytes) {
    a != b && checksumOf(a) == checksumOf(b)
  }

  /**
    A verified download certifies what it delivers: every success carries the expected checksum,
    so it delivers the bytes that checksum was computed from, or others that collide with them;
    and a mismatch is reported only for other bytes.
   */
  lemma VerifiedDownloadCertifies(v: Volume, url: string, expected: string, env: DownloadEnv, original: Bytes)
    requires expected == v.checksumOf(original) && expected != ""
    ensures var (delivered, result) := DownloadOutcome(v, url, true, expected, env);
            && (result.Downloaded? ==>
                  && v.checksumOf(delivered) == expected && result.checksum == expected
                  && (delivered == original || Collision(v.checksumOf, delivered, original)))
            && (result == DownloadFailed(ChecksumMismatch) ==> delivered != original)
  {
  }
}
