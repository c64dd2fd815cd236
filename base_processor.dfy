/** document_processing/processors/base_processor.py: the document records
    and the format, validation, language and batch logic every document
    processor inherits. The file system is a map from path to entry and the
    concrete `process` of a subclass is a parameter. */
module BaseProcessing {

  import opened Common
  import opened PyText
  import opened PyPath

  /** `DocumentMetadata`; `created_at` is the timestamp given at creation. */
  datatype DocumentMetadata = DocumentMetadata(
    filename: string,
    fileType: string,
    fileSize: int,
    createdAt: string,
    language: Option<string>,
    pageCount: Option<int>,
    author: Option<string>,
    title: Option<string>,
    customMetadata: map<string, Value>)
  {
    /** The standard fields of the dict, before the custom ones. */
    function StandardFields(): map<string, Value> {
      map[
        "filename" := Str(filename),
        "file_type" := Str(fileType),
        "file_size" := Int(fileSize),
        "created_at" := Str(createdAt),
        "language" := OptStr(language),
        "page_count" := OptInt(pageCount),
        "author" := OptStr(author),
        "title" := OptStr(title)]
    }

    /** `to_dict`: the standard fields, then `**custom_metadata`, so a custom
        key overrides the standard field of the same name. */
    function ToDict(): (r: map<string, Value>)
      ensures r.Keys == StandardFields().Keys + customMetadata.Keys
      ensures forall k :: k in customMetadata ==> r[k] == customMetadata[k]
      ensures forall k :: k in StandardFields() && k !in customMetadata ==> r[k] == StandardFields()[k]
    {
      StandardFields() + customMetadata
    }
  }

  function OptStr(o: Option<string>): Value {
    match o
    case None => Null
    case Some(s) => Str(s)
  }

  function OptInt(o: Option<int>): Value {
    match o
    case None => Null
    case Some(n) => Int(n)
  }

  /** `ProcessedDocument`; the embedding vector itself is not needed here,
      only whether there is one. */
  datatype ProcessedDocument = ProcessedDocument(
    id: string,
    content: string,
    metadata: DocumentMetadata,
    chunks: seq<string>,
    tables: seq<map<string, Value>>,
    images: seq<map<string, Value>>,
    entities: seq<map<string, Value>>,
    embeddings: Option<seq<real>>)
  {
    /** `to_dict`: the fields as a dict, the metadata as its own dict, and
        `has_embeddings` true exactly when there are embeddings. */
    function ToDict(): (r: map<string, Value>)
      ensures r.Keys == {"id", "content", "metadata", "chunks", "tables", "images", "entities", "has_embeddings"}
      ensures r["has_embeddings"] == Bool(embeddings.Some?)
      ensures r["metadata"] == Dict(metadata.ToDict())
      ensures r["chunks"].List? && |r["chunks"].items| == |chunks|
    {
      map[
        "id" := Str(id),
        "content" := Str(content),
        "metadata" := Dict(metadata.ToDict()),
        "chunks" := List(seq(|chunks|, i requires 0 <= i < |chunks| => Str(chunks[i]))),
        "tables" := List(seq(|tables|, i requires 0 <= i < |tables| => Dict(tables[i]))),
        "images" := List(seq(|images|, i requires 0 <= i < |images| => Dict(images[i]))),
        "entities" := List(seq(|entities|, i requires 0 <= i < |entities| => Dict(entities[i]))),
        "has_embeddings" := Bool(embeddings.Some?)]
    }

    /** `get_summary`: identity fields from the metadata and the sizes of the
        content, chunks, tables and images. */
    function GetSummary(): (r: map<string, Value>)
      ensures r.Keys == {"id", "filename", "type", "size", "language", "content_length", "chunks_count", "tables_count", "images_count"}
      ensures r["id"] == Str(id) && r["filename"] == Str(metadata.filename)
      ensures r["content_length"] == Int(|content|) && r["chunks_count"] == Int(|chunks|)
      ensures r["tables_count"] == Int(|tables|) && r["images_count"] == Int(|images|)
    {
      map[
        "id" := Str(id),
        "filename" := Str(metadata.filename),
        "type" := Str(metadata.fileType),
        "size" := Int(metadata.fileSize),
        "language" := OptStr(metadata.language),
        "content_length" := Int(|content|),
        "chunks_count" := Int(|chunks|),
        "tables_count" := Int(|tables|),
        "images_count" := Int(|images|)]
    }
  }

  /** The extension table of `_get_file_type`. */
  function TypeMapping(): map<string, string> {
    map[
      ".pdf" := "pdf", ".docx" := "docx", ".doc" := "doc",
      ".xlsx" := "xlsx", ".xls" := "xls", ".pptx" := "pptx", ".ppt" := "ppt",
      ".txt" := "txt", ".md" := "markdown", ".html" := "html", ".htm" := "html"]
  }

  /** The lower-cased suffix of the path's final component. */
  function Extension(path: string): string {
    Lower(Suffix(Name(path)))
  }

  /** `_get_file_type`: the table's type for the extension, `"unknown"` for
      any other extension, including none. */
  function FileType(path: string): (r: string)
    ensures r == "unknown" <==> Extension(path) !in TypeMapping()
    ensures r in TypeMapping().Values || r == "unknown"
  {
    var ext := Extension(path);
    if ext in TypeMapping() then TypeMapping()[ext] else "unknown"
  }

  /** A processor: its name and the file types it supports. */
  datatype Processor = Processor(processorName: string, supportedFormats: seq<string>) {

    /** `can_process`: the path's type is one of the supported formats. */
    predicate CanProcess(path: string) {
      FileType(path) in supportedFormats
    }
  }

  /** A path whose final component has no dot has type `"unknown"`, so only
      a processor listing `"unknown"` accepts it. */
  lemma NoSuffixIsUnknown(p: Processor, path: string)
    requires '.' !in Name(path)
    ensures FileType(path) == "unknown"
    ensures p.CanProcess(path) <==> "unknown" in p.supportedFormats
  {
    NoDotNoSuffix(Name(path));
    assert Extension(path) == [];
  }

  /** Upper-case extensions are recognised: `report.PDF` is a `pdf`. */
  lemma UpperCaseExtension()
    ensures FileType("report.PDF") == "pdf"
  {
    ReportExtension("report.PDF");
    PdfType("report.PDF");
  }

  lemma ReportExtension(path: string)
    requires path == "report.PDF"
    ensures Extension(path) == ".pdf"
  {
    SplitNone(path, '/');
    assert Components([path]) == [path];
    assert path[6] == '.' && path[7] == 'P' && path[8] == 'D' && path[9] == 'F';
    assert LastIndexOf(path, '.') == 6;
    assert Suffix(path) == ".PDF";
    assert Lower(".PDF") == ".pdf";
  }

  lemma PdfType(path: string)
    requires Extension(path) == ".pdf"
    ensures FileType(path) == "pdf"
  {
  }

  /** A `.md` file has type `"markdown"`, so a processor listing only `"md"`
      among its formats never accepts it. */
  lemma MarkdownNeedsMarkdownFormat(p: Processor, path: string)
    requires Extension(path) == ".md"
    requires "markdown" !in p.supportedFormats
    ensures FileType(path) == "markdown" && !p.CanProcess(path)
  {
  }

  /** A file system entry: a file of some size, or a directory. */
  datatype Entry = File(size: nat) | Directory

  /** The size limit of `_validate_file`: 100 MB. */
  const MaxFileSize: nat := 100 * 1024 * 1024

  /** `_validate_file`: the message of the `DocumentProcessingError` it
      raises, or None when the path is a regular, non-empty file within
      the limit. The checks run in the order missing, directory, too large,
      empty. */
  function ValidateFile(fs: map<string, Entry>, path: string): (r: Option<string>)
    ensures r == None <==> path in fs && fs[path].File? && 0 < fs[path].size <= MaxFileSize
    ensures path !in fs ==> r == Some("File does not exist: " + path)
    ensures path in fs && fs[path].Directory? ==> r == Some("Path is a directory, not a file: " + path)
    ensures path in fs && fs[path].File? && fs[path].size > MaxFileSize ==>
      r == Some("File too large: " + NatToString(fs[path].size) + " bytes (max: " + NatToString(MaxFileSize) + " bytes)")
    ensures path in fs && fs[path].File? && fs[path].size == 0 ==> r == Some("File is empty: " + path)
  {
    if path !in fs then Some("File does not exist: " + path)
    else if fs[path].Directory? then Some("Path is a directory, not a file: " + path)
    else if fs[path].size > MaxFileSize then
      Some("File too large: " + NatToString(fs[path].size) + " bytes (max: " + NatToString(MaxFileSize) + " bytes)")
    else if fs[path].size == 0 then Some("File is empty: " + path)
    else None
  }

  /** `_detect_language`: None, without consulting the detector, when the
      stripped text is shorter than 10 characters; otherwise what the
      detector says of the first 1000 characters (None when it fails). */
  function DetectLanguage(text: string, detect: string -> Option<string>): (r: Option<string>)
    ensures |Strip(text)| < 10 ==> r == None
    ensures |Strip(text)| >= 10 ==> r == detect(SliceTo(text, 1000))
  {
    if text == [] || |Strip(text)| < 10 then None else detect(SliceTo(text, 1000))
  }

  /** The documents `process` returns for the paths, in order, skipping
      every path it fails on. */
  function Successes(paths: seq<string>, process: string -> Option<ProcessedDocument>): seq<ProcessedDocument> {
    if paths == [] then []
    else
      var rest := Successes(paths[..|paths| - 1], process);
      match process(paths[|paths| - 1])
      case Some(d) => rest + [d]
      case None => rest
  }

  /** `process_batch`: each path is processed in turn; a failure is logged
      and skipped. */
  method ProcessBatch(paths: seq<string>, process: string -> Option<ProcessedDocument>) returns (docs: seq<ProcessedDocument>)
    ensures docs == Successes(paths, process)
  {
    docs := [];
    var i := 0;
    while i < |paths|
      invariant 0 <= i <= |paths|
      invariant docs == Successes(paths[..i], process)
    {
      assert paths[..i + 1][..i] == paths[..i];
      var result := process(paths[i]);
      if result.Some? {
        docs := docs + [result.value];
      }
      i := i + 1;
    }
    assert paths[..i] == paths;
  }

  /** The batch has no more documents than paths, each one returned by
      `process` for some path; when nothing fails, there is one per path. */
  lemma {:induction false} SuccessesBounds(paths: seq<string>, process: string -> Option<ProcessedDocument>)
    ensures |Successes(paths, process)| <= |paths|
    ensures forall d :: d in Successes(paths, process) ==> exists i :: 0 <= i < |paths| && process(paths[i]) == Some(d)
    ensures (forall i :: 0 <= i < |paths| ==> process(paths[i]).Some?) ==> |Successes(paths, process)| == |paths|
  {
    if paths != [] {
      var init := paths[..|paths| - 1];
      SuccessesBounds(init, process);
      forall d | d in Successes(paths, process)
        ensures exists i :: 0 <= i < |paths| && process(paths[i]) == Some(d)
      {
        if d in Successes(init, process) {
          var i :| 0 <= i < |init| && process(init[i]) == Some(d);
          assert paths[i] == init[i];
        } else {
          assert process(paths[|paths| - 1]) == Some(d);
        }
      }
      if forall i :: 0 <= i < |paths| ==> process(paths[i]).Some? {
        assert forall i :: 0 <= i < |init| ==> init[i] == paths[i];
      }
    }
  }
}
