/**
 * Storing an uploaded file: the stored name is a fresh random name plus the
 * original file's extension, and the file is served under "/uploads/". The
 * upload directory is a map from stored name to content.
 */
module FileStorage {
  import opened Wrappers
  import opened Text

  /** An uploaded file: its original name (possibly absent) and its bytes. */
  datatype Upload = Upload(originalFilename: Option<string>, content: seq<bv8>)

  /** "File is empty": no file, or a file without content. */
  datatype StoreError = FileIsEmpty

  /**
   * The extension of a file name: from its last '.' to the end, when there is a dot that is
   * not the last character; otherwise none.
   */
  function Extension(name: string): (ext: string)
    ensures ext == "" <==> LastIndexOf(name, '.') == -1 || LastIndexOf(name, '.') == |name| - 1
    ensures ext != "" ==> |ext| >= 2 && ext[0] == '.' && '.' !in ext[1..] && EndsWith(name, ext)
  {
    var dot := LastIndexOf(name, '.');
    if dot > -1 && dot < |name| - 1 then name[dot..] else ""
  }

  /** The public address of a stored file. */
  function UrlFor(storedName: string): string {
    "/uploads/" + storedName
  }

  class UploadDir {
    var files: map<string, seq<bv8>>

    constructor()
      ensures files == map[]
    {
      files := map[];
    }

    /**
     * `store`: an empty upload is refused and nothing is written; otherwise the content is
     * written (replacing any file of that name) under `randomName` plus the extension of the
     * cleaned original name ("upload" when there is none), and its URL is returned.
     */
    method Store(file: Option<Upload>, randomName: string, cleanPath: string -> string)
      returns (r: Result<string, StoreError>)
      modifies this
      ensures file.None? || file.value.content == [] ==> r == Err(FileIsEmpty) && files == old(files)
      ensures file.Some? && file.value.content != [] ==>
        var storedName := randomName + Extension(cleanPath(file.value.originalFilename.GetOr("upload")));
        r == Ok(UrlFor(storedName)) && files == old(files)[storedName := file.value.content]
    {
      if file.None? || file.value.content == [] {
        return Err(FileIsEmpty);
      }
      var originalName := cleanPath(if file.value.originalFilename.None? then "upload" else file.value.originalFilename.value);
      assert originalName == cleanPath(file.value.originalFilename.GetOr("upload"));
      var extension := "";
      var dot := LastIndexOf(originalName, '.');
      if dot > -1 && dot < |originalName| - 1 {
        extension := originalName[dot..];
      }
      assert extension == Extension(originalName);
      var storedName := randomName + extension;
      files := files[storedName := file.value.content];
      r := Ok(UrlFor(storedName));
    }
  }

  /**
   * The URL is "/uploads/" followed by the stored name, and it ends with the original name's
   * extension; an original name whose only dot is its last character gets no extension.
   */
  lemma UrlKeepsExtension(randomName: string, originalName: string)
    ensures var url := UrlFor(randomName + Extension(originalName));
      StartsWith(url, "/uploads/") && EndsWith(url, Extension(originalName))
      && url[|"/uploads/"|..] == randomName + Extension(originalName)
    ensures '.' !in originalName ==> Extension(originalName) == ""
    ensures originalName != [] && originalName[|originalName| - 1] == '.' ==> Extension(originalName) == ""
  {
    var url := UrlFor(randomName + Extension(originalName));
    assert url[|url| - |Extension(originalName)|..] == Extension(originalName);
    assert url[..|"/uploads/"|] == "/uploads/";
  }
}
