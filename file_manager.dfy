/** File checks and the download of the STILTS jar (services/filemanager.py)
    over a file system given as a map from paths to nodes. The HTTP response
    of the download is a parameter. */
module FileManager {
  import opened Wrappers

  type Path = string

  /** What a path names: a regular file with its bytes, or a directory. */
  datatype Node = RegularFile(content: seq<bv8>) | Directory

  /** The default `min_size_bytes`. */
  const DefaultMinSize := 15_000_000

  /** The exceptions the operations raise. */
  datatype FileError =
    | FileSizeError(path: Path)
    | FileNotFound(path: Path)
    | HttpError(status: int)
    | IsADirectory(path: Path)

  /** The answer of the server to the download request. */
  datatype Response = Response(status: int, content: seq<bv8>)

  /** `raise_for_status` raises on client and server errors. */
  predicate IsHttpError(response: Response)
  {
    400 <= response.status < 600
  }

  /** `file_exists_and_valid`: true for a large enough regular file, false
      for a missing path or one that is not a regular file, and an error for
      a regular file that is too small. */
  function FileExistsAndValid(entries: map<Path, Node>, path: Path, minSize: int): (r: Result<bool, FileError>)
    ensures r == Success(true) <==>
      path in entries && entries[path].RegularFile? && |entries[path].content| >= minSize
    ensures r == Success(false) <==> path !in entries || entries[path].Directory?
    ensures r.Failure? <==>
      path in entries && entries[path].RegularFile? && |entries[path].content| < minSize
    ensures r.Failure? ==> r.error == FileSizeError(path)
  {
    if path in entries && entries[path].RegularFile? then
      if |entries[path].content| >= minSize then Success(true)
      else Failure(FileSizeError(path))
    else Success(false)
  }

  /** `check_auth_file`: `auth.json` must exist in the home directory. */
  function CheckAuthFile(entries: map<Path, Node>, home: Path): (r: Outcome<FileError>)
    ensures r.Fail? <==> home + "/auth.json" !in entries
    ensures r.Fail? ==> r.error == FileNotFound(home + "/auth.json")
  {
    var authPath := home + "/auth.json";
    if authPath in entries then Pass else Fail(FileNotFound(authPath))
  }

  /** The outcome of a download and the file system after it. */
  datatype DownloadResult = DownloadResult(outcome: Outcome<FileError>, entries: map<Path, Node>)

  /** `download_file` as a function of the file system before it. */
  function Download(entries: map<Path, Node>, path: Path, response: Response): DownloadResult
  {
    match FileExistsAndValid(entries, path, DefaultMinSize)
    case Failure(e) => DownloadResult(Fail(e), entries)
    case Success(true) => DownloadResult(Pass, entries)
    case Success(false) =>
      if IsHttpError(response) then DownloadResult(Fail(HttpError(response.status)), entries)
      else if path in entries && entries[path].Directory? then DownloadResult(Fail(IsADirectory(path)), entries)
      else DownloadResult(Pass, entries[path := RegularFile(response.content)])
  }

  /** The file system the process sees. */
  class FileSystem {
    var entries: map<Path, Node>

    constructor (initial: map<Path, Node>)
      ensures entries == initial
    {
      entries := initial;
    }

    /** `download_file`: skip when the file is already valid, stop on an
        undersized file before fetching, otherwise fetch and write. */
    method DownloadFile(path: Path, response: Response) returns (outcome: Outcome<FileError>)
      modifies this
      ensures DownloadResult(outcome, entries) == Download(old(entries), path, response)
    {
      var valid := FileExistsAndValid(entries, path, DefaultMinSize);
      if valid.Failure? {
        return Fail(valid.error);
      }
      if valid.value {
        return Pass;
      }
      if IsHttpError(response) {
        return Fail(HttpError(response.status));
      }
      if path in entries && entries[path].Directory? {
        return Fail(IsADirectory(path));
      }
      entries := entries[path := RegularFile(response.content)];
      return Pass;
    }
  }

  /** A valid file is never fetched again: the file system stays as it was,
      whatever the server would answer. */
  lemma DownloadSkipsValidFile(entries: map<Path, Node>, path: Path, response: Response)
    requires FileExistsAndValid(entries, path, DefaultMinSize) == Success(true)
    ensures Download(entries, path, response) == DownloadResult(Pass, entries)
  {
  }

  /** An undersized file stops the download before the request, and nothing
      changes. */
  lemma DownloadStopsOnUndersizedFile(entries: map<Path, Node>, path: Path, response: Response)
    requires path in entries && entries[path].RegularFile?
    requires |entries[path].content| < DefaultMinSize
    ensures Download(entries, path, response) == DownloadResult(Fail(FileSizeError(path)), entries)
  {
  }

  /** A download that passes leaves the file holding the response's bytes,
      or leaves a file that was already valid; no other path changes. */
  lemma DownloadWrites(entries: map<Path, Node>, path: Path, response: Response)
    requires Download(entries, path, response).outcome.Pass?
    ensures var after := Download(entries, path, response).entries;
      && path in after && after[path].RegularFile?
      && (FileExistsAndValid(entries, path, DefaultMinSize) == Success(false) ==>
            after[path].content == response.content)
      && (forall p :: p != path ==> (p in after <==> p in entries))
      && (forall p :: p != path && p in entries ==> after[p] == entries[p])
  {
    var valid := FileExistsAndValid(entries, path, DefaultMinSize);
    assert valid.Success?;
  }

  /** Downloading twice is downloading once when the first download wrote a
      large enough file: the second call finds it valid and changes nothing. */
  lemma DownloadIdempotent(entries: map<Path, Node>, path: Path, first: Response, second: Response)
    requires Download(entries, path, first).outcome.Pass?
    requires |first.content| >= DefaultMinSize
    ensures var after := Download(entries, path, first).entries;
      Download(after, path, second) == DownloadResult(Pass, after)
  {
    DownloadWrites(entries, path, first);
    var after := Download(entries, path, first).entries;
    assert FileExistsAndValid(after, path, DefaultMinSize) == Success(true);
  }

  /** A download that writes a file smaller than the minimum passes, but it
      makes every later download of that path fail with a size error. */
  lemma UndersizedDownloadBlocksRetry(entries: map<Path, Node>, path: Path, first: Response, second: Response)
    requires FileExistsAndValid(entries, path, DefaultMinSize) == Success(false)
    requires Download(entries, path, first).outcome.Pass?
    requires |first.content| < DefaultMinSize
    ensures var after := Download(entries, path, first).entries;
      Download(after, path, second) == DownloadResult(Fail(FileSizeError(path)), after)
  {
    DownloadWrites(entries, path, first);
  }
}
