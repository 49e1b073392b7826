/**
 * GET /session/:key: a missing `upload/<key>` answers 404 with an error; otherwise every
 * file of the folder, in listing order, becomes {name, url}. The request's protocol and
 * Host header are parameters.
 */
module Listing {
  import opened Disk

  const NotFoundStatus: nat := 404
  const NotFoundError: string := "Folder not found"

  datatype FileEntry = FileEntry(name: string, url: string)

  datatype SessionResponse =
    | NotFound(status: nat, error: string)
    | Found(accessKey: string, files: seq<FileEntry>)

  /** `${req.protocol}://${req.get('host')}/uploads/${accessKey}/${file}` */
  function FileUrl(protocol: string, host: string, key: string, file: string): string {
    protocol + "://" + host + "/uploads/" + key + "/" + file
  }

  /** The files.map(...) of the handler. */
  function Entries(protocol: string, host: string, key: string, files: seq<FileName>): (r: seq<FileEntry>)
    ensures |r| == |files|
    ensures forall i :: 0 <= i < |files| ==>
      r[i].name == files[i] && r[i].url == FileUrl(protocol, host, key, files[i])
  {
    if files == [] then []
    else [FileEntry(files[0], FileUrl(protocol, host, key, files[0]))] + Entries(protocol, host, key, files[1..])
  }

  function ListSession(d: Disk, protocol: string, host: string, key: string): (r: SessionResponse)
    ensures SessionDir(key) !in d <==> r == NotFound(NotFoundStatus, NotFoundError)
    ensures r.Found? ==> r.accessKey == key && |r.files| == |d[SessionDir(key)]|
    ensures r.Found? ==> forall i :: 0 <= i < |r.files| ==>
      r.files[i].name == d[SessionDir(key)][i] &&
      r.files[i].url == FileUrl(protocol, host, key, d[SessionDir(key)][i])
  {
    if SessionDir(key) !in d then NotFound(NotFoundStatus, NotFoundError)
    else Found(key, Entries(protocol, host, key, d[SessionDir(key)]))
  }

  /** The URL ends with the file's own name after the key's path, so the file can be read back from it. */
  lemma FileUrlEndsWithName(protocol: string, host: string, key: string, file: string)
    ensures var u := FileUrl(protocol, host, key, file);
      |u| >= |file| && u[|u| - |file|..] == file &&
      u[..|u| - |file|] == protocol + "://" + host + "/uploads/" + key + "/"
  {
  }

  /** Within one listing, different files get different URLs. */
  lemma FileUrlInjective(protocol: string, host: string, key: string, f: string, g: string)
    requires FileUrl(protocol, host, key, f) == FileUrl(protocol, host, key, g)
    ensures f == g
  {
    var p := protocol + "://" + host + "/uploads/" + key + "/";
    assert FileUrl(protocol, host, key, f) == p + f && FileUrl(protocol, host, key, g) == p + g;
    assert f == (p + f)[|p|..] && g == (p + g)[|p|..];
  }
}
