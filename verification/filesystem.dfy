/** An abstract, sequential file system: a finite map from absolute path to
    node. Only the operations the pilot performs are modelled: writing a whole
    file, removing a path, testing for existence and listing a directory. */
module FileSystem {

  /** What a path can hold. `Special` stands for every non-regular,
      non-directory entry (sockets, pipes, devices). */
  datatype Node = Regular(content: string) | Directory | Special

  type Fs = map<string, Node>

  /** The failures the modelled operations can report. */
  datatype FsError = NotExist | NotDirectory | NotRegular

  /** The outcome of an operation that changes the file system: either the
      new file system or the error, in which case nothing was changed. */
  datatype FsResult = FsOk(fs: Fs) | FsFail(error: FsError)

  /** Index of the last '/' in `p`, or -1 when there is none. */
  function LastSlash(p: string): (i: int)
    ensures -1 <= i < |p|
    ensures i >= 0 ==> p[i] == '/'
    ensures forall j :: i < j < |p| ==> p[j] != '/'
  {
    if p == [] then -1
    else if p[|p| - 1] == '/' then |p| - 1
    else LastSlash(p[..|p| - 1])
  }

  /** The directory that holds `p`: everything before its last '/'. */
  function Parent(p: string): string
  {
    var i := LastSlash(p);
    if i < 0 then "." else if i == 0 then "/" else p[..i]
  }

  /** `p` names an entry directly inside directory `dir`. */
  predicate InDir(p: string, dir: string)
  {
    |p| > |dir| + 1 && Parent(p) == dir
  }

  /** Replaces the whole content of `path` by `data`, creating it if needed.
      It fails when the parent is not an existing directory or when `path`
      holds something other than a regular file. */
  function WriteFile(fs: Fs, path: string, data: string): (r: FsResult)
    ensures r.FsOk? <==> Parent(path) in fs && fs[Parent(path)].Directory?
                         && (path in fs ==> fs[path].Regular?)
    ensures r.FsOk? ==> path in r.fs && r.fs[path] == Regular(data)
    ensures r.FsOk? ==> forall q :: q != path ==>
                          (q in r.fs <==> q in fs) && (q in fs ==> r.fs[q] == fs[q])
  {
    if Parent(path) !in fs then FsFail(NotExist)
    else if !fs[Parent(path)].Directory? then FsFail(NotDirectory)
    else if path in fs && !fs[path].Regular? then FsFail(NotRegular)
    else FsOk(fs[path := Regular(data)])
  }

  /** Removes `path`; removing a path that is not there is an error. */
  function Remove(fs: Fs, path: string): (r: FsResult)
    ensures r.FsOk? <==> path in fs
    ensures r.FsFail? ==> r.error == NotExist
    ensures r.FsOk? ==> r.fs.Keys == fs.Keys - {path}
    ensures r.FsOk? ==> forall q :: q in r.fs ==> r.fs[q] == fs[q]
  {
    if path in fs then FsOk(fs - {path}) else FsFail(NotExist)
  }
}
