/** `DevelopmentPlugin.SaveProjectFilesAsync`, the kernel function the team lead calls
    to save the generated project. JSON decoding and the file system are collaborators:
    `decode` stands for `JsonSerializer.Deserialize<Dictionary<string, string>>`, and a
    `FileSystem` object answers the two calls the plugin makes and records them. */
module Plugins {
  import opened Wrappers
  import opened Text

  /** The file map the plugin receives: file name to file content. */
  type Files = map<string, string>

  /** A call the plugin made on its `IFileSystemService`. */
  datatype FileSystemCall =
    | CreateProjectDirectory(projectName: string)
    | SaveFiles(directory: string, files: Files)

  /** The `IFileSystemService` the plugin is given. What each call returns or throws is
      fixed by `createResult` and `saveResult`; `calls` records the calls, in order. */
  class FileSystem {
    const createResult: string -> Result<string>
    const saveResult: (string, Files) -> Option<Exception>
    var calls: seq<FileSystemCall>

    constructor (createResult: string -> Result<string>, saveResult: (string, Files) -> Option<Exception>)
      ensures this.createResult == createResult && this.saveResult == saveResult && calls == []
    {
      this.createResult := createResult;
      this.saveResult := saveResult;
      calls := [];
    }

    /** `CreateProjectDirectoryAsync(projectName)`: the new directory's path, or a throw. */
    method CreateProjectDirectoryAsync(projectName: string) returns (r: Result<string>)
      modifies this
      ensures calls == old(calls) + [CreateProjectDirectory(projectName)]
      ensures r == createResult(projectName)
    {
      calls := calls + [CreateProjectDirectory(projectName)];
      r := createResult(projectName);
    }

    /** `SaveFilesAsync(directory, files)`: nothing, or a throw. */
    method SaveFilesAsync(directory: string, files: Files) returns (failure: Option<Exception>)
      modifies this
      ensures calls == old(calls) + [SaveFiles(directory, files)]
      ensures failure == saveResult(directory, files)
    {
      calls := calls + [SaveFiles(directory, files)];
      failure := saveResult(directory, files);
    }
  }

  const NoFilesMessage := "Error: No files provided"

  function ErrorResult(e: Exception): (r: string)
    ensures StartsWith(r, "Error: ") && r[|"Error: "|..] == e.message
  {
    "Error: " + e.message
  }

  function SuccessResult(count: nat, projectPath: string): (r: string)
    ensures StartsWith(r, "Success: Saved ") && |"Success: Saved "| + |NatToString(count)| <= |r|
    ensures r[|"Success: Saved "|..|"Success: Saved "| + |NatToString(count)|] == NatToString(count)
    ensures |r| >= |projectPath| && r[|r| - |projectPath|..] == projectPath
  {
    "Success: Saved " + NatToString(count) + " files to " + projectPath
  }

  predicate StartsWith(s: string, prefix: string) {
    |prefix| <= |s| && s[..|prefix|] == prefix
  }

  /** An error string is never mistaken for a success. */
  lemma ErrorIsNotSuccess(r: string)
    requires StartsWith(r, "Error: ")
    ensures !StartsWith(r, "Success: ")
  {
    assert r[0] == "Error: "[0];
  }

  /** The string `SaveProjectFilesAsync` returns, given what decoding answered, what
      creating the directory answered and what saving answered. */
  function SaveResult(
    decoded: Result<Option<Files>>,
    created: Result<string>,
    saved: Option<Exception>): (r: string)
    ensures StartsWith(r, "Success: ") || StartsWith(r, "Error: ")
    ensures decoded.Threw? ==> r == ErrorResult(decoded.exception)
    ensures decoded.Ok? && (decoded.value.None? || |decoded.value.value| == 0) ==> r == NoFilesMessage
    ensures decoded.Ok? && decoded.value.Some? && |decoded.value.value| > 0 && created.Threw? ==>
      r == ErrorResult(created.exception)
    ensures decoded.Ok? && decoded.value.Some? && |decoded.value.value| > 0 && created.Ok? && saved.Some? ==>
      r == ErrorResult(saved.value)
    ensures StartsWith(r, "Success: ") <==>
      decoded.Ok? && decoded.value.Some? && |decoded.value.value| > 0 && created.Ok? && saved.None?
    ensures StartsWith(r, "Success: ") ==> r == SuccessResult(|decoded.value.value|, created.value)
  {
    ErrorIsNotSuccess(NoFilesMessage);
    assert forall e: Exception :: StartsWith(ErrorResult(e), "Error: ");
    assert forall e: Exception :: !StartsWith(ErrorResult(e), "Success: ") by {
      forall e: Exception { ErrorIsNotSuccess(ErrorResult(e)); }
    }
    match decoded
    case Threw(e) => ErrorResult(e)
    case Ok(None) => NoFilesMessage
    case Ok(Some(files)) =>
      if |files| == 0 then NoFilesMessage
      else match created
        case Threw(e) => ErrorResult(e)
        case Ok(path) =>
          if saved.Some? then ErrorResult(saved.value) else SuccessResult(|files|, path)
  }

  /** The file-system calls `SaveProjectFilesAsync` makes, given what decoding answered
      and what creating the directory answered. */
  function SaveCalls(projectName: string, decoded: Result<Option<Files>>, created: Result<string>): (calls: seq<FileSystemCall>)
    ensures calls == [] <==> !(decoded.Ok? && decoded.value.Some? && |decoded.value.value| > 0)
    ensures calls != [] ==> calls[0] == CreateProjectDirectory(projectName)
    ensures |calls| <= 2
    ensures |calls| == 2 <==> calls != [] && created.Ok?
    ensures |calls| == 2 ==> calls[1] == SaveFiles(created.value, decoded.value.value)
  {
    if decoded.Ok? && decoded.value.Some? && |decoded.value.value| > 0 then
      [CreateProjectDirectory(projectName)]
      + (if created.Ok? then [SaveFiles(created.value, decoded.value.value)] else [])
    else []
  }

  /** `SaveProjectFilesAsync(projectName, filesJson, language)`. It never throws: every
      outcome is one of the strings `SaveResult` describes. `language` is only logged, so
      neither the result nor the calls depend on it. */
  method SaveProjectFilesAsync(
    fs: FileSystem,
    decode: string -> Result<Option<Files>>,
    projectName: string,
    filesJson: string,
    language: string)
    returns (result: string)
    modifies fs
    ensures var decoded := decode(filesJson);
      var created := fs.createResult(projectName);
      && result == SaveResult(decoded, created,
           if created.Ok? && decoded.Ok? && decoded.value.Some?
           then fs.saveResult(created.value, decoded.value.value) else None)
      && fs.calls == old(fs.calls) + SaveCalls(projectName, decoded, created)
  {
    var decoded := decode(filesJson);
    if decoded.Threw? {
      return ErrorResult(decoded.exception);
    }
    var files := decoded.value;
    if files.None? || |files.value| == 0 {
      return NoFilesMessage;
    }
    var created := fs.CreateProjectDirectoryAsync(projectName);
    if created.Threw? {
      return ErrorResult(created.exception);
    }
    var projectPath := created.value;
    var failure := fs.SaveFilesAsync(projectPath, files.value);
    if failure.Some? {
      return ErrorResult(failure.value);
    }
    return SuccessResult(|files.value|, projectPath);
  }

  /** The count in a success message is the number of files saved: it can be read back. */
  lemma SuccessReportsFileCount(count: nat, projectPath: string)
    ensures var r := SuccessResult(count, projectPath);
      var digits := NatToString(count);
      && r[|"Success: Saved "|..|"Success: Saved "| + |digits|] == digits
      && DigitsValue(digits) == count
  {
    NatToStringRoundTrip(count);
  }
}
