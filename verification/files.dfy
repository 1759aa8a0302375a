/** Upload bookkeeping (src/files/files.service.ts): the service picks a
    file name for an upload and stores only the path under which the file
    is later served. The generated random name, the configured API prefix
    and the upload's own fields are parameters. */
module Files {

  import opened Common
  import opened Strings

  /** The fields of a Multer upload the service reads. */
  datatype Upload = Upload(filename: Option<string>, path: Option<string>, originalname: string)

  /** A `file` row. */
  datatype FileRow = FileRow(id: string, path: string)

  /** The error body `{status: 422, errors: {file: 'selectFile'}}`. */
  datatype FileError = UnprocessableEntity(status: int, field: string, reason: string)

  const DefaultApiPrefix: string := "api"
  const DefaultExtension: string := "jpg"

  /** The last element of a non-empty sequence: `pop()` on a split. */
  function Last(parts: seq<string>): string
    requires |parts| >= 1
  {
    parts[|parts| - 1]
  }

  /** `p` without its trailing slashes. */
  function StripTrailingSlashes(p: string): (r: string)
    ensures |r| <= |p| && r == p[..|r|]
    ensures r == [] || r[|r| - 1] != '/'
    decreases |p|
  {
    if p != [] && p[|p| - 1] == '/' then StripTrailingSlashes(p[..|p| - 1]) else p
  }

  /** `path.basename(p)` on POSIX paths: the last segment once trailing
      slashes are dropped. */
  function BaseName(p: string): (b: string)
    ensures '/' !in b
  {
    LastPieceFree(Split(StripTrailingSlashes(p), '/'), StripTrailingSlashes(p));
    Last(Split(StripTrailingSlashes(p), '/'))
  }

  /** No piece of a split on '/', the last included, holds a '/'. */
  lemma LastPieceFree(parts: seq<string>, r: string)
    requires parts == Split(r, '/')
    ensures '/' !in parts[|parts| - 1]
  {
    SplitPiecesFree(r, '/');
  }

  /** The extension of a generated name: the lower-cased text after the
      last dot of the original name, or `jpg` when that text is empty. */
  function Extension(originalname: string): (ext: string)
    ensures ext != ""
  {
    var e := ToLower(Last(Split(originalname, '.')));
    if e != "" then e else DefaultExtension
  }

  /** The stored file name: the upload's own name, else the base name of its
      path, else `random` with the extension of the original name. */
  function ChosenName(file: Upload, random: string): (name: string)
    ensures Truthy(file.filename) ==> name == file.filename.value
    ensures !Truthy(file.filename) && file.path.Some? && file.path.value != "" && BaseName(file.path.value) != "" ==>
              name == BaseName(file.path.value)
    ensures !Truthy(file.filename) && (!Truthy(file.path) || BaseName(file.path.value) == "") ==>
              name == random + "." + Extension(file.originalname)
  {
    var fromUpload := if file.filename.Some? then file.filename.value else "";
    var fromPath := if fromUpload == "" && Truthy(file.path) then BaseName(file.path.value) else fromUpload;
    if fromPath != "" then fromPath else random + "." + Extension(file.originalname)
  }

  /** The prefix every stored path starts with. */
  function PathPrefix(apiPrefix: Option<string>): string {
    "/" + (if Truthy(apiPrefix) then apiPrefix.value else DefaultApiPrefix) + "/v1/files/"
  }

  /** `/{apiPrefix}/v1/files/{filename}`. */
  function StoredPath(apiPrefix: Option<string>, filename: string): (path: string)
    ensures StartsWith(path, PathPrefix(apiPrefix)) && path[|PathPrefix(apiPrefix)|..] == filename
  {
    PathPrefix(apiPrefix) + filename
  }

  /** The first row with this id. */
  function WithId(rows: seq<FileRow>, id: string): (r: Option<FileRow>)
    ensures r.Some? ==> r.value in rows && r.value.id == id
    ensures r.None? ==> forall k :: 0 <= k < |rows| ==> rows[k].id != id
  {
    if rows == [] then None
    else if rows[0].id == id then Some(rows[0])
    else WithId(rows[1..], id)
  }

  /** The rows whose id is among `ids`, in table order (`In(ids)`). */
  function WithIds(rows: seq<FileRow>, ids: seq<string>): (r: seq<FileRow>)
    ensures forall f :: f in r <==> f in rows && f.id in ids
    ensures |r| <= |rows|
  {
    if rows == [] then []
    else (if rows[0].id in ids then [rows[0]] else []) + WithIds(rows[1..], ids)
  }

  class FilesService {
    /** The `file` table. */
    var files: seq<FileRow>

    constructor()
      ensures files == []
    {
      files := [];
    }

    /** `findById`: the row with that id, or null. */
    method FindById(id: string) returns (r: Option<FileRow>)
      ensures r.Some? ==> r.value in files && r.value.id == id
      ensures r.None? ==> forall k :: 0 <= k < |files| ==> files[k].id != id
    {
      r := WithId(files, id);
    }

    /** `findByIds`: every row whose id is listed; unknown ids are skipped. */
    method FindByIds(ids: seq<string>) returns (r: seq<FileRow>)
      ensures forall f :: f in r <==> f in files && f.id in ids
    {
      r := WithIds(files, ids);
    }

    /** `create`: refuse a missing upload and store nothing; otherwise pick
        the name and store one row holding the path it is served under. */
    method Create(file: Option<Upload>, apiPrefix: Option<string>, random: string, newId: string)
      returns (r: Result<FileRow, FileError>)
      modifies this
      ensures file.None? ==> r == Err(UnprocessableEntity(422, "file", "selectFile")) && files == old(files)
      ensures file.Some? ==>
                r == Ok(FileRow(newId, StoredPath(apiPrefix, ChosenName(file.value, random))))
                && files == old(files) + [r.value]
    {
      if file.None? {
        return Err(UnprocessableEntity(422, "file", "selectFile"));
      }
      var prefix := if Truthy(apiPrefix) then apiPrefix.value else DefaultApiPrefix;
      var filename := if file.value.filename.Some? then file.value.filename.value else "";
      if filename == "" && Truthy(file.value.path) {
        filename := BaseName(file.value.path.value);
      }
      if filename == "" {
        filename := random + "." + Extension(file.value.originalname);
      }
      var row := FileRow(newId, "/" + prefix + "/v1/files/" + filename);
      files := files + [row];
      r := Ok(row);
    }
  }

  // ------------------------------------------------------------ properties

  /** The text after the last separator is the last piece of a split. */
  lemma {:induction false} LastPiece(a: string, b: string, c: char)
    requires c !in b
    ensures Last(Split(a + [c] + b, c)) == b
    decreases |a|
  {
    var s := a + [c] + b;
    assert s[|a|] == c;
    var i := IndexOf(s, c);
    if i == |a| {
      assert s[i + 1..] == b;
    } else {
      assert i < |a|;
      assert s[i + 1..] == a[i + 1..] + [c] + b;
      LastPiece(a[i + 1..], b, c);
    }
  }

  /** The stored path gives the chosen name back. */
  lemma NameFromStoredPath(apiPrefix: Option<string>, filename: string)
    requires '/' !in filename && filename != ""
    ensures BaseName(StoredPath(apiPrefix, filename)) == filename
  {
    var p := StoredPath(apiPrefix, filename);
    var dir := PathPrefix(apiPrefix)[..|PathPrefix(apiPrefix)| - 1];
    assert p == dir + ['/'] + filename;
    assert StripTrailingSlashes(p) == p;
    LastPiece(dir, filename, '/');
  }

  /** A file name with an extension keeps it, lower-cased. */
  lemma ExtensionAfterLastDot(stem: string, ext: string)
    requires '.' !in ext && ext != ""
    ensures Extension(stem + "." + ext) == ToLower(ext)
  {
    LastPiece(stem, ext, '.');
    assert stem + "." + ext == stem + ['.'] + ext;
  }

  /** A name without a dot is its own extension: `photo` gives `photo`, and
      only an empty name or one ending in a dot falls back to `jpg`. */
  lemma ExtensionWithoutDot(name: string)
    requires '.' !in name
    ensures Extension(name) == if name == "" then "jpg" else ToLower(name)
  {
    assert Split(name, '.') == [name];
  }

  /** A name ending in a dot falls back to `jpg`. */
  lemma TrailingDotGivesDefault(stem: string)
    ensures Extension(stem + ".") == "jpg"
  {
    LastPiece(stem, "", '.');
    assert stem + "." == stem + ['.'] + "";
  }

  /** Without a configured prefix the path is served under `/api/v1/files/`. */
  lemma DefaultPrefix(filename: string)
    ensures StoredPath(None, filename) == "/api/v1/files/" + filename
    ensures StoredPath(Some(""), filename) == "/api/v1/files/" + filename
  {
  }
}
