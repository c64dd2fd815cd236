/** utilities/storage.py: the storage manager for uploaded files. The local
    directory is a map from paths relative to the storage root to file
    contents; the SHA-256 digest and today's date are parameters. */
module Storage {

  import opened Common
  import opened PyText
  import opened PyPath

  /** The characters `_sanitize_filename` keeps. */
  predicate SafeChar(c: char) {
    IsAsciiLetter(c) || '0' <= c <= '9' || c == '.' || c == '-' || c == '_'
  }

  function SafeChars(s: string): (r: string)
    ensures |r| == |s|
    ensures forall i :: 0 <= i < |s| ==> r[i] == (if SafeChar(s[i]) then s[i] else '_')
  {
    if s == [] then [] else [if SafeChar(s[0]) then s[0] else '_'] + SafeChars(s[1..])
  }

  /** `StorageManager._sanitize_filename`: the base name, with every
      character outside `[A-Za-z0-9._-]` replaced by `'_'`. */
  function SanitizeFilename(filename: string): (r: string)
    ensures |r| == |BaseName(filename)|
    ensures forall i :: 0 <= i < |r| ==> SafeChar(r[i])
    ensures forall i :: 0 <= i < |r| ==>
      r[i] == (if SafeChar(BaseName(filename)[i]) then BaseName(filename)[i] else '_')
  {
    SafeChars(BaseName(filename))
  }

  /** A sanitised name has no path separator, so it stays a single path
      component. */
  lemma SanitizedHasNoSlash(filename: string)
    ensures '/' !in SanitizeFilename(filename)
  {
    var r := SanitizeFilename(filename);
    forall i | 0 <= i < |r|
      ensures r[i] != '/'
    {
      assert SafeChar(r[i]);
    }
  }

  /** A text of safe characters only is left as it is. */
  lemma {:induction false} SafeCharsOfSafe(s: string)
    requires forall i :: 0 <= i < |s| ==> SafeChar(s[i])
    ensures SafeChars(s) == s
  {
    if s != [] {
      SafeCharsOfSafe(s[1..]);
    }
  }

  /** Sanitising twice is sanitising once. */
  lemma SanitizeIdempotent(filename: string)
    ensures SanitizeFilename(SanitizeFilename(filename)) == SanitizeFilename(filename)
  {
    var r := SanitizeFilename(filename);
    SanitizedHasNoSlash(filename);
    assert LastIndexOf(r, '/') == -1;
    assert BaseName(r) == r;
    SafeCharsOfSafe(r);
  }

  /** The file part of a stored path: `{hash[:8]}_{name}`. */
  function FilePart(digest: string, filename: string): string {
    SliceTo(digest, 8) + "_" + SanitizeFilename(filename)
  }

  /** The relative path of a stored file: `{subfolder}/{YYYYMMDD}/{hash[:8]}_{name}`. */
  function StoragePath(subfolder: string, today: string, digest: string, filename: string): string {
    subfolder + "/" + today + "/" + FilePart(digest, filename)
  }

  /** The file part has no `'/'` when the digest has none. */
  lemma FilePartHasNoSlash(digest: string, filename: string)
    requires '/' !in digest
    ensures '/' !in FilePart(digest, filename)
  {
    var h := SliceTo(digest, 8);
    SanitizedHasNoSlash(filename);
    assert '/' !in h by {
      assert forall c :: c in h ==> c in digest;
    }
  }

  /** Split at `'/'`, a stored path gives back the subfolder, the date and the
      file part, which starts with at most eight characters of the digest and
      ends with the sanitised name, so an uploaded name cannot climb out of
      the dated folder. */
  lemma StoragePathLayout(subfolder: string, today: string, digest: string, filename: string)
    requires '/' !in subfolder && '/' !in today && '/' !in digest
    ensures var file := SliceTo(digest, 8) + "_" + SanitizeFilename(filename);
      Split(StoragePath(subfolder, today, digest, filename), "/") == [subfolder, today, file]
  {
    FilePartHasNoSlash(digest, filename);
    SplitThree(subfolder, today, FilePart(digest, filename), '/');
  }

  /** What `save_file` returns: the relative path, the full hex digest and
      the size in bytes. */
  datatype Saved = Saved(path: string, digest: string, size: nat)

  /** CPython's message when the recursion limit is reached. */
  const RecursionMessage: string := "maximum recursion depth exceeded"

  /** `save_file` as written, with the depth of Python stack left: the
      `azure` branch calls `save_file` again with the same arguments and the
      same provider. */
  function SaveAsWritten(depth: nat, provider: string, content: seq<bv8>, filename: string, subfolder: string,
                         sha256: seq<bv8> -> string, today: string): Raising<Saved>
  {
    if provider == "local" then
      Returned(Saved(StoragePath(subfolder, today, sha256(content), filename), sha256(content), |content|))
    else if provider == "azure" then
      if depth == 0 then Raised(RecursionMessage)
      else SaveAsWritten(depth - 1, provider, content, filename, subfolder, sha256, today)
    else Raised("Unknown storage provider: " + provider)
  }

  /** With the `azure` provider, `save_file` as written never stores the
      file: however deep the stack, the call ends in a RecursionError. */
  lemma {:induction false} AzureNeverSaves(depth: nat, content: seq<bv8>, filename: string, subfolder: string,
                                           sha256: seq<bv8> -> string, today: string)
    ensures SaveAsWritten(depth, "azure", content, filename, subfolder, sha256, today) == Raised(RecursionMessage)
  {
    if depth > 0 {
      AzureNeverSaves(depth - 1, content, filename, subfolder, sha256, today);
    }
  }

  /** The providers `save_file` can store with: `local`, and `azure`, which
      falls back to local storage. */
  predicate KnownProvider(provider: string) {
    provider == "local" || provider == "azure"
  }

  /** `save_file` as its warning describes it: with `azure` the file is
      stored locally, as with `local`; any other provider raises. */
  function Save(provider: string, content: seq<bv8>, filename: string, subfolder: string,
                sha256: seq<bv8> -> string, today: string): (r: Raising<Saved>)
    ensures r.Raised? <==> !KnownProvider(provider)
    ensures r.Raised? ==> r.message == "Unknown storage provider: " + provider
    ensures r.Returned? ==>
      r.value.digest == sha256(content) && r.value.size == |content|
      && r.value.path == StoragePath(subfolder, today, sha256(content), filename)
  {
    if KnownProvider(provider) then
      Returned(Saved(StoragePath(subfolder, today, sha256(content), filename), sha256(content), |content|))
    else Raised("Unknown storage provider: " + provider)
  }

  /** Away from the `azure` branch, the corrected `save_file` is the one as
      written. */
  lemma SaveAgreesExceptAzure(depth: nat, provider: string, content: seq<bv8>, filename: string, subfolder: string,
                              sha256: seq<bv8> -> string, today: string)
    requires provider != "azure"
    ensures Save(provider, content, filename, subfolder, sha256, today)
      == SaveAsWritten(depth, provider, content, filename, subfolder, sha256, today)
  {
  }

  /** `StorageManager`: its provider and storage root, and the files stored
      under that root. */
  class StorageManager {
    const provider: string
    const localPath: string
    var files: map<string, seq<bv8>>

    /** `__init__`; the files already on disk are given. */
    constructor(provider: string, localPath: string, existing: map<string, seq<bv8>>)
      ensures this.provider == provider && this.localPath == localPath && files == existing
    {
      this.provider := provider;
      this.localPath := localPath;
      files := existing;
    }

    /** `save_file`, with the `azure` fallback storing locally: the file
        is written at its storage path (replacing any file there) and
        nothing else changes; an unknown provider raises and writes
        nothing. */
    method SaveFile(content: seq<bv8>, filename: string, subfolder: string,
                    sha256: seq<bv8> -> string, today: string)
      returns (r: Raising<Saved>)
      modifies this
      ensures r == Save(provider, content, filename, subfolder, sha256, today)
      ensures r.Returned? ==> files == old(files)[r.value.path := content]
      ensures r.Raised? ==> files == old(files)
    {
      var digest := sha256(content);
      var size := |content|;
      var path := subfolder + "/" + today + "/" + FilePart(digest, filename);
      if provider == "local" || provider == "azure" {
        files := files[path := content];
        r := Returned(Saved(path, digest, size));
      } else {
        r := Raised("Unknown storage provider: " + provider);
      }
    }

    /** `get_file_path`: the full path under the root for `local`; any
        other provider raises NotImplementedError. */
    function GetFilePath(relativePath: string): (r: Raising<string>)
      ensures r.Returned? <==> provider == "local"
      ensures r.Returned? ==> r.value == localPath + "/" + relativePath
      ensures r.Raised? ==> r.message == "Provider " + provider + " not implemented"
    {
      if provider == "local" then Returned(localPath + "/" + relativePath)
      else Raised("Provider " + provider + " not implemented")
    }

    /** `file_exists`: whether a file is stored at the path; always false
        for a provider other than `local`. */
    function FileExists(relativePath: string): (r: bool)
      reads this
      ensures r <==> provider == "local" && relativePath in files
    {
      provider == "local" && relativePath in files
    }

    /** `delete_file`: for `local`, removes a stored file and answers true;
        answers false, changing nothing, when there is no such file or the
        provider is not `local`. */
    method DeleteFile(relativePath: string) returns (deleted: bool)
      modifies this
      ensures deleted <==> old(FileExists(relativePath))
      ensures deleted ==> files == old(files) - {relativePath}
      ensures !deleted ==> files == old(files)
    {
      if provider == "local" && relativePath in files {
        files := files - {relativePath};
        deleted := true;
      } else {
        deleted := false;
      }
    }
  }

  /** A file saved and then deleted at the returned path leaves the storage
      as it was when nothing was stored there before. */
  method SaveThenDelete(m: StorageManager, content: seq<bv8>, filename: string, subfolder: string,
                        sha256: seq<bv8> -> string, today: string)
    requires m.provider == "local"
    requires StoragePath(subfolder, today, sha256(content), filename) !in m.files
    modifies m
    ensures m.files == old(m.files)
  {
    var r := m.SaveFile(content, filename, subfolder, sha256, today);
    var deleted := m.DeleteFile(r.value.path);
    assert deleted;
  }
}
