/**
 `process_zip` (main.py lines 62-71): extract the archive into the request's
 workspace, list the code files in it, fail when there are none, and read
 only the first one. Writing `temp.zip` into the workspace is a filesystem
 effect and is not modelled; the oracles see the archive bytes directly.
 */
module ProcessZip {

  import opened Values
  import opened Effects

  const NoCodeFiles := "No code files found in the ZIP"

  function ProcessZip(data: Bytes, env: Env): (r: Run<string>)
    // extraction always comes first
    ensures 1 <= |r.trace| <= 3 && r.trace[0] == ExtractZip(data)
    // only the archive handler is consulted
    ensures forall i :: 0 <= i < |r.trace| ==>
              KindOf(r.trace[i]) in {ExtractKind, ListKind, ReadKind}
    // an empty listing is a ValueError, and then nothing is read
    ensures env.extractZip(data).Ok? && env.listCodeFiles(data) == Ok([]) ==>
              r.result == Err(ValueError(NoCodeFiles)) && Count(r.trace, ReadKind) == 0
    // at most one file is read, and it is the first one listed
    ensures Count(r.trace, ReadKind) <= 1
    ensures forall i :: 0 <= i < |r.trace| && r.trace[i].ReadFile? ==>
              env.listCodeFiles(data).Ok? && |env.listCodeFiles(data).value| > 0 &&
              r.trace[i].path == env.listCodeFiles(data).value[0]
    // an exception from the archive handler propagates unchanged
    ensures env.extractZip(data).Err? ==> r == Run(Err(env.extractZip(data).error), [ExtractZip(data)])
    ensures env.extractZip(data).Ok? && env.listCodeFiles(data).Err? ==>
              r == Run(Err(env.listCodeFiles(data).error), [ExtractZip(data), ListCodeFiles])
    // a non-empty listing reads exactly its first file, and its reply,
    // content or exception, is the result
    ensures env.extractZip(data).Ok? && env.listCodeFiles(data).Ok? && |env.listCodeFiles(data).value| > 0 ==>
              var first := env.listCodeFiles(data).value[0];
              r == Run(env.readFile(data, first), [ExtractZip(data), ListCodeFiles, ReadFile(first)])
    // the text returned is that first file's content
    ensures r.result.Ok? ==>
              env.listCodeFiles(data).Ok? && |env.listCodeFiles(data).value| > 0 &&
              env.readFile(data, env.listCodeFiles(data).value[0]) == Ok(r.result.value)
  {
    var extracted := [ExtractZip(data)];
    match env.extractZip(data)
    case Err(e) => Run(Err(e), extracted)
    case Ok(_) =>
      var listed := extracted + [ListCodeFiles];
      match env.listCodeFiles(data)
      case Err(e) => Run(Err(e), listed)
      case Ok(files) =>
        if |files| == 0 then Run(Err(ValueError(NoCodeFiles)), listed)
        else Run(env.readFile(data, files[0]), listed + [ReadFile(files[0])])
  }
}
