/** The storage service as the core sees it (src/modules/storage/storage.service.ts):
    a backend that answers each upload with a URL or a failure, and the call log. */
module Storage {
  import opened Common

  /** An uploaded multipart file. */
  datatype File = File(originalName: string, mimeType: string, buffer: Bytes)

  /** One call made to the storage backend. */
  datatype Upload =
    | FileUpload(file: File, folder: string)
    | PdfUpload(buffer: Bytes, filename: string, folder: string)

  /** The backend's answer to uploading one file into a folder. */
  type UploadFile = (File, string) -> Result<string>

  /** The backend's answer to uploading a rendered PDF under a filename into a folder. */
  type UploadPdf = (Bytes, string, string) -> Result<string>

  /** The combined outcome of uploading `files`: every URL in file order, or the failure
      of the first file (in list order) that failed. */
  function UploadAll(files: seq<File>, folder: string, upload: UploadFile): (r: Result<seq<string>>)
    ensures r.Ok? ==> (|r.value| == |files|
      && forall i :: 0 <= i < |files| ==> upload(files[i], folder) == Ok(r.value[i]))
    ensures r.Err? ==> exists i :: (0 <= i < |files| && upload(files[i], folder) == Err(r.error)
      && forall j :: 0 <= j < i ==> upload(files[j], folder).Ok?)
    ensures r.Ok? <==> forall i :: 0 <= i < |files| ==> upload(files[i], folder).Ok?
    decreases |files|
  {
    if files == [] then Ok([])
    else
      var before := UploadAll(files[..|files| - 1], folder, upload);
      var last := upload(files[|files| - 1], folder);
      if before.Err? then before
      else if last.Err? then Err(last.error)
      else Ok(before.value + [last.value])
  }

  /** The log entries of uploading `files` into `folder`. */
  function Logged(files: seq<File>, folder: string): (r: seq<Upload>)
    ensures |r| == |files| && forall i :: 0 <= i < |files| ==> r[i] == FileUpload(files[i], folder)
    decreases |files|
  {
    if files == [] then [] else Logged(files[..|files| - 1], folder) + [FileUpload(files[|files| - 1], folder)]
  }

  class StorageService {
    var calls: seq<Upload>
    const uploadFile: UploadFile
    const uploadPdf: UploadPdf

    constructor (uploadFile: UploadFile, uploadPdf: UploadPdf)
      ensures calls == [] && this.uploadFile == uploadFile && this.uploadPdf == uploadPdf
    {
      calls := [];
      this.uploadFile := uploadFile;
      this.uploadPdf := uploadPdf;
    }

    /** `uploadMultipleFiles(files, folder)`: an empty list is refused before any call;
        otherwise every file is sent (`Promise.all` starts them all) and the result is
        every URL in order, or the first failure. */
    method UploadMultipleFiles(files: seq<File>, folder: string) returns (r: Result<seq<string>>)
      modifies this
      ensures |files| == 0 ==> r == Err(BadRequest("No files provided")) && calls == old(calls)
      ensures |files| > 0 ==> r == UploadAll(files, folder, uploadFile) && calls == old(calls) + Logged(files, folder)
    {
      if |files| == 0 {
        return Err(BadRequest("No files provided"));
      }
      var urls: seq<string> := [];
      var failure: Option<Error> := None;
      var i := 0;
      while i < |files|
        invariant 0 <= i <= |files|
        invariant calls == old(calls) + Logged(files[..i], folder)
        invariant failure.None? ==> UploadAll(files[..i], folder, uploadFile) == Ok(urls)
        invariant failure.Some? ==> UploadAll(files[..i], folder, uploadFile) == Err(failure.value)
      {
        assert files[..i + 1][..i] == files[..i];
        calls := calls + [FileUpload(files[i], folder)];
        var answer := uploadFile(files[i], folder);
        if failure.None? {
          if answer.Ok? {
            urls := urls + [answer.value];
          } else {
            failure := Some(answer.error);
          }
        }
        i := i + 1;
      }
      assert files[..i] == files;
      r := if failure.Some? then Err(failure.value) else Ok(urls);
    }

    /** `uploadPdf(buffer, filename, folder)`. */
    method UploadPdf(buffer: Bytes, filename: string, folder: string) returns (r: Result<string>)
      modifies this
      ensures r == uploadPdf(buffer, filename, folder)
      ensures calls == old(calls) + [PdfUpload(buffer, filename, folder)]
    {
      calls := calls + [PdfUpload(buffer, filename, folder)];
      r := uploadPdf(buffer, filename, folder);
    }
  }
}
