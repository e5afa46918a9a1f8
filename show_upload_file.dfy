/** The shared-files list of the edit surface: it fetches the client's shared file paths on
    mount and after each successful upload, and lists them by their last path segment. */
module ShowUploadFile {
  import opened Wrappers
  import opened Text
  import opened Http
  import opened ShowSharedPdf

  /** `file.split("/").pop()`: the text after the last slash. */
  function FileName(path: string): (name: string)
    ensures '/' !in name
  {
    Last(Split(path, '/'))
  }

  /** A path without a slash is shown whole. */
  lemma FileNameWithoutSlash(path: string)
    requires '/' !in path
    ensures FileName(path) == path
  {
    SplitWithoutSeparator(path, '/');
  }

  /** Whatever precedes the last slash does not affect the shown name. */
  lemma FileNameAfterSlash(dir: string, rest: string)
    ensures FileName(dir + "/" + rest) == FileName(rest)
  {
    SplitLastAfterSeparator(dir, '/', rest);
  }

  /** A split into a single part is the string itself. */
  lemma SinglePart(s: string, sep: char)
    requires |Split(s, sep)| == 1
    ensures Split(s, sep)[0] == s
  {
    JoinSplit(s, sep);
  }

  /** The shown name is the path's final segment: a suffix of the path that is either the
      whole path or directly preceded by a slash. */
  lemma {:induction false} FileNameIsFinalSegment(path: string)
    ensures var name := FileName(path);
            |name| <= |path| && path[|path| - |name|..] == name &&
            (|name| < |path| ==> path[|path| - |name| - 1] == '/')
    decreases |path|
  {
    if |path| > 0 {
      var tail := path[1..];
      var rest := Split(tail, '/');
      FileNameIsFinalSegment(tail);
      assert path[|path| - |FileName(tail)|..] == tail[|tail| - |FileName(tail)|..];
      if path[0] != '/' {
        if |rest| == 1 {
          SinglePart(tail, '/');
          assert path == [path[0]] + tail;
        } else if FileName(tail) == tail {
          SplitWithoutSeparator(tail, '/');
          assert false;
        }
      }
    }
  }

  /** A listed file: the link target and the text shown for it. */
  datatype FileLink = FileLink(href: string, name: string)

  datatype FileList = NoFilesYet | Files(links: seq<FileLink>)

  /** The list, one link per path in order, or the "No files uploaded yet." line. */
  function RenderFiles(files: seq<string>): (v: FileList)
    ensures v.NoFilesYet? <==> |files| == 0
    ensures v.Files? ==> |v.links| == |files|
    ensures v.Files? ==> forall i :: 0 <= i < |files| ==>
                           v.links[i].href == files[i] && v.links[i].name == FileName(files[i])
  {
    if |files| == 0 then NoFilesYet
    else Files(seq(|files|, i requires 0 <= i < |files| => FileLink(files[i], FileName(files[i]))))
  }

  /** Each shown name is the final segment of the link it labels, and contains no slash. */
  lemma ShownNamesAreFinalSegments(files: seq<string>, i: nat)
    requires i < |files|
    ensures var v := RenderFiles(files);
            var l := v.links[i];
            '/' !in l.name && |l.name| <= |l.href| && l.href[|l.href| - |l.name|..] == l.name
  {
    FileNameIsFinalSegment(files[i]);
  }

  /** `fetchFilePath`: a GET for the client's shared files; only an ok response replaces the
      list, an error status or a thrown request leaves it as it was. */
  method FetchFilePath(store: ShowSharedPdfStore, userId: int, response: Response<seq<string>>)
    returns (req: Request)
    modifies store
    ensures req == Request(GET, "api/clients/getSharedFiles", userId, NoBody)
    ensures store.sharedFiles == if response.Ok? then response.data else old(store.sharedFiles)
  {
    req := Request(GET, "api/clients/getSharedFiles", userId, NoBody);
    if response.Ok? {
      store.SetSharedFiles(response.data);
    }
  }

  /** The `success` effect: after an upload it re-fetches and lowers the parent's flag;
      otherwise it does nothing. The flag's new value is returned. */
  method SuccessEffect(store: ShowSharedPdfStore, userId: int, success: bool, response: Response<seq<string>>)
    returns (req: Option<Request>, successAfter: bool)
    modifies store
    ensures req.Some? <==> success
    ensures req.Some? ==> req.value == Request(GET, "api/clients/getSharedFiles", userId, NoBody)
    ensures !successAfter
    ensures store.sharedFiles == if success && response.Ok? then response.data else old(store.sharedFiles)
  {
    if success {
      var r := FetchFilePath(store, userId, response);
      req, successAfter := Some(r), false;
    } else {
      req, successAfter := None, success;
    }
  }
}
