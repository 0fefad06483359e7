/**
 * File metadata (controllers/FilesController.js).
 *
 * The file collection is a map from document id to file document; the
 * content store is a map from local path to the decoded bytes written
 * there. Document ids come from the ObjectId oracle `ObjectIdOf(n)` and
 * blob names from the uuid oracle `Uuid(n)`, n counting the names handed
 * out so far. A failing blob write is the parameter `writeFails`, and
 * base64 decoding the parameter `decode`. Calls to `updateFileById` are
 * recorded in a ghost log so that "the store is written only when the
 * flag changes" can be stated.
 */
module Files {
  import opened Common
  import opened Gates

  /** The `type` values an upload may carry. */
  const ACCEPTED_TYPES: seq<string> := ["folder", "file", "image"]

  /** Where uploaded content is written: the default of the FOLDER_PATH
      environment variable, which the model takes as unset. */
  const FOLDER_LOCATION: string := "/tmp/files_manager"

  datatype FileType = Folder | PlainFile | Image

  /** The `type` string of each kind. */
  function TypeName(k: FileType): (name: string)
    ensures name in ACCEPTED_TYPES
  {
    match k
    case Folder => "folder"
    case PlainFile => "file"
    case Image => "image"
  }

  /** The kind a submitted `type` names, if it is one of ACCEPTED_TYPES. */
  function ParseType(t: Option<string>): (k: Option<FileType>)
    ensures k.Some? <==> t.Some? && t.value in ACCEPTED_TYPES
    ensures k.Some? ==> TypeName(k.value) == t.value
  {
    if t == Some("folder") then Some(Folder)
    else if t == Some("file") then Some(PlainFile)
    else if t == Some("image") then Some(Image)
    else None
  }

  /** `parentId`: the number 0 (the root) or the id of another file. */
  datatype Parent = Root | ParentId(id: string)

  /** The fields of a `POST /files` body the validator reads; `None` is an
      absent field. */
  datatype UploadBody = UploadBody(
    name: Option<string>, fileType: Option<string>, parentId: Option<Parent>,
    isPublic: Option<bool>, data: Option<string>)

  /** The validated properties of an upload. */
  datatype Props = Props(name: string, fileType: FileType, parentId: Parent, isPublic: bool, data: Option<string>)

  /** A stored file document; `localPath` is where its content was written. */
  datatype FileDoc = FileDoc(
    userId: string, name: string, fileType: FileType, parentId: Parent,
    isPublic: bool, localPath: Option<string>)

  /** A file as the API returns it: the id, never the local path or data. */
  datatype FileView = FileView(id: string, userId: string, name: string, fileType: FileType, isPublic: bool, parentId: Parent)

  function ViewOf(id: string, doc: FileDoc): FileView {
    FileView(id, doc.userId, doc.name, doc.fileType, doc.isPublic, doc.parentId)
  }

  /** A parent is acceptable when it is the root or names an existing
      folder, whoever owns it (`findFileById` is not owner-scoped). */
  predicate ParentOk(files: map<string, FileDoc>, p: Parent) {
    p.ParentId? ==> p.id in files && files[p.id].fileType == Folder
  }

  predicate NameOk(body: UploadBody) { Truthy(body.name) }

  predicate TypeOk(body: UploadBody) { NameOk(body) && ParseType(body.fileType).Some? }

  predicate DataOk(body: UploadBody) {
    TypeOk(body) && (ParseType(body.fileType).value != Folder ==> Truthy(body.data))
  }

  /** `_getFileProperties`: the checks run in order (name, type, data,
      parent exists, parent is a folder) and the first failing one is
      reported; `parentId` defaults to the root and `isPublic` to false. */
  function GetFileProperties(body: UploadBody, files: map<string, FileDoc>): (r: Result<Props, string>)
    ensures r == Failure("Missing name") <==> !NameOk(body)
    ensures r == Failure("Missing type") <==> NameOk(body) && !TypeOk(body)
    ensures r == Failure("Missing data") <==> TypeOk(body) && !DataOk(body)
    ensures r == Failure("Parent not found") <==>
      DataOk(body) && body.parentId.GetOr(Root).ParentId? && body.parentId.GetOr(Root).id !in files
    ensures r == Failure("Parent is not a folder") <==>
      DataOk(body) && body.parentId.GetOr(Root).ParentId? && body.parentId.GetOr(Root).id in files
      && files[body.parentId.GetOr(Root).id].fileType != Folder
    ensures r.Success? <==> DataOk(body) && ParentOk(files, body.parentId.GetOr(Root))
    ensures r.Success? ==> r.value == Props(body.name.value, ParseType(body.fileType).value,
      body.parentId.GetOr(Root), body.isPublic.GetOr(false), body.data)
  {
    var parentId := body.parentId.GetOr(Root);
    if !Truthy(body.name) then Failure("Missing name")
    else if ParseType(body.fileType).None? then Failure("Missing type")
    else if ParseType(body.fileType).value != Folder && !Truthy(body.data) then Failure("Missing data")
    else if parentId.ParentId? && parentId.id !in files then Failure("Parent not found")
    else if parentId.ParentId? && files[parentId.id].fileType != Folder then Failure("Parent is not a folder")
    else Success(Props(body.name.value, ParseType(body.fileType).value, parentId, body.isPublic.GetOr(false), body.data))
  }

  /** A folder is accepted without data, whatever else the body holds. */
  lemma FolderNeedsNoData(body: UploadBody, files: map<string, FileDoc>)
    requires Truthy(body.name) && body.fileType == Some("folder") && body.parentId.None?
    ensures GetFileProperties(body, files).Success?
    ensures GetFileProperties(body, files).value.fileType == Folder
  {
  }

  /** The document `postUpload` inserts: the properties without the data,
      plus the owner and the local path. */
  function Document(userId: string, p: Props, localPath: Option<string>): FileDoc {
    FileDoc(userId, p.name, p.fileType, p.parentId, p.isPublic, localPath)
  }

  /** `findUserFileById(userId, id)`: the file, provided the caller owns it;
      a file owned by someone else is indistinguishable from a missing one. */
  function FindUserFile(files: map<string, FileDoc>, userId: string, id: string): (r: Option<FileDoc>)
    ensures r.Some? <==> id in files && files[id].userId == userId
    ensures r.Some? ==> r.value == files[id]
  {
    if id in files && files[id].userId == userId then Some(files[id]) else None
  }

  /** `GET /files/:id`: 401 unless the token resolves, 404 unless the
      caller owns the file, otherwise 200 with the file without its local
      path. Nothing is written. */
  function Show(token: Option<string>, id: string, cache: map<string, string>, files: map<string, FileDoc>): (r: Reply<FileView>)
    ensures Resolve(token, cache).None? <==> r == Unauthorized()
    ensures Resolve(token, cache).Some? && !(id in files && files[id].userId == Resolve(token, cache).value)
      <==> r == Refused(404, "Not found")
    ensures r.Done? <==> Resolve(token, cache).Some? && id in files && files[id].userId == Resolve(token, cache).value
    ensures r.Done? ==> && r.status == 200 && id in files
                        && files[id].userId == Resolve(token, cache).value
                        && r.body == ViewOf(id, files[id])
  {
    match Resolve(token, cache)
    case None => Unauthorized()
    case Some(userId) =>
      match FindUserFile(files, userId, id)
      case None => Refused(404, "Not found")
      case Some(doc) => Done(200, ViewOf(id, doc))
  }

  /** A query parameter of `GET /files` as the handler passes it on: the
      number 0 when the parameter is absent, its text otherwise. */
  datatype QueryArg = Zero | Text(text: string)

  /** `const { p = 0 } = req.query` for one parameter. */
  function QueryOrZero(q: Option<string>): (a: QueryArg)
    ensures a == Zero <==> q.None?
    ensures q.Some? ==> a == Text(q.value)
  {
    match q
    case None => Zero
    case Some(t) => Text(t)
  }

  /** `GET /files`: 401 unless the token resolves; otherwise 200 with what
      `findUserFiles` returns for the caller, the parent and the page, each
      passed as the number 0 when absent, or an empty list when it returns
      none. The listing query itself is not part of this model. */
  function Index(
      token: Option<string>, parentId: Option<string>, page: Option<string>, cache: map<string, string>,
      findUserFiles: (string, QueryArg, QueryArg) -> Option<seq<FileView>>): (r: Reply<seq<FileView>>)
    ensures Resolve(token, cache).None? <==> r == Unauthorized()
    ensures Resolve(token, cache).Some? ==> r.Done?
    ensures r.Done? ==>
      && r.status == 200
      && r.body == findUserFiles(Resolve(token, cache).value, QueryOrZero(parentId), QueryOrZero(page)).GetOr([])
  {
    match Resolve(token, cache)
    case None => Unauthorized()
    case Some(userId) => Done(200, findUserFiles(userId, QueryOrZero(parentId), QueryOrZero(page)).GetOr([]))
  }

  /** The collection after `updateFileById(id, { $set: { isPublic: flag } })`. */
  function WithVisibility(files: map<string, FileDoc>, id: string, flag: bool): map<string, FileDoc>
    requires id in files
  {
    files[id := files[id].(isPublic := flag)]
  }

  /** Setting the flag changes that one field of that one file: every
      other file, and every other field, is as before. */
  lemma WithVisibilityTouchesOnlyFlag(files: map<string, FileDoc>, id: string, flag: bool)
    requires id in files
    ensures var after := WithVisibility(files, id, flag);
      && after.Keys == files.Keys
      && after[id].isPublic == flag
      && after[id].(isPublic := files[id].isPublic) == files[id]
      && forall k :: k in files && k != id ==> after[k] == files[k]
  {
  }

  /** Setting the flag to the value it already has leaves the collection as
      it is; setting it twice is setting it once. */
  lemma WithVisibilityIdempotent(files: map<string, FileDoc>, id: string, flag: bool)
    requires id in files
    ensures files[id].isPublic == flag ==> WithVisibility(files, id, flag) == files
    ensures WithVisibility(WithVisibility(files, id, flag), id, flag) == WithVisibility(files, id, flag)
  {
  }

  /** Where the n-th blob is written. */
  function BlobPath(n: nat): (path: string)
    ensures |path| > |FOLDER_LOCATION| + 1 && path[..|FOLDER_LOCATION| + 1] == FOLDER_LOCATION + "/"
  {
    FOLDER_LOCATION + "/" + Uuid(n)
  }

  /** Distinct blobs get distinct paths. */
  lemma BlobPathFresh(a: nat, b: nat)
    requires a != b
    ensures BlobPath(a) != BlobPath(b)
  {
    if BlobPath(a) == BlobPath(b) {
      var k := |FOLDER_LOCATION| + 1;
      assert Uuid(a) == BlobPath(a)[k..];
      assert Uuid(b) == BlobPath(b)[k..];
      UuidFresh(a, b);
    }
  }

  /** Every stored document's id is one of the first `count` ObjectIds. */
  ghost predicate IdsIssued(files: map<string, FileDoc>, count: nat) {
    forall id :: id in files ==> exists n: nat :: n < count && ObjectIdOf(n) == id
  }

  /** An id written as a decimal numeral, such as `"123"` or `"0"`, names no
      stored document: it is neither found for any caller nor accepted as a
      parent. */
  lemma NumeralNamesNoFile(files: map<string, FileDoc>, count: nat, userId: string, id: string)
    requires IdsIssued(files, count)
    requires forall k :: 0 <= k < |id| ==> '0' <= id[k] <= '9'
    ensures FindUserFile(files, userId, id).None?
    ensures !ParentOk(files, ParentId(id))
  {
    if id in files {
      var n: nat :| n < count && ObjectIdOf(n) == id;
      NumeralIsNoObjectId(id, n);
    }
  }

  /** A stored document is well formed: its parent is the root or an
      existing folder, and it has content exactly when it is not a folder,
      that content being present in the content store. */
  ghost predicate WellFormed(files: map<string, FileDoc>, blobs: map<string, string>, doc: FileDoc) {
    && ParentOk(files, doc.parentId)
    && (doc.localPath.Some? <==> doc.fileType != Folder)
    && (doc.localPath.Some? ==> doc.localPath.value in blobs)
  }

  /** Well-formedness survives adding a file and adding content. */
  lemma WellFormedGrows(files: map<string, FileDoc>, blobs: map<string, string>, doc: FileDoc,
                        files': map<string, FileDoc>, blobs': map<string, string>)
    requires WellFormed(files, blobs, doc)
    requires files.Keys <= files'.Keys && blobs.Keys <= blobs'.Keys
    requires forall k :: k in files ==> files'[k].fileType == files[k].fileType
    ensures WellFormed(files', blobs', doc)
  {
  }

  /** The file collection and the content store. */
  class FileStore {
    var files: map<string, FileDoc>
    var blobs: map<string, string>
    /** How many ObjectIds the file collection has handed out. */
    var fileCount: nat
    /** How many blob names the uuid oracle has handed out. */
    var blobCount: nat
    /** The ids passed to `updateFileById`, in call order. */
    ghost var updates: seq<string>

    /** Every id in use was handed out, ids and blob names yet to be handed
        out are unused, and every stored document is well formed. */
    ghost predicate Valid()
      reads this
    {
      && IdsIssued(files, fileCount)
      && (forall n: nat :: n >= fileCount ==> ObjectIdOf(n) !in files)
      && (forall n: nat :: n >= blobCount ==> BlobPath(n) !in blobs)
      && (forall id :: id in files ==> WellFormed(files, blobs, files[id]))
    }

    constructor ()
      ensures Valid() && files == map[] && blobs == map[] && updates == []
    {
      files, blobs, fileCount, blobCount := map[], map[], 0, 0;
      updates := [];
    }

    /** `_saveFile`: write the decoded data under a fresh path and return
        the path, or report the write failure and change nothing. */
    method SaveFile(data: string, decode: string -> string, writeFails: bool) returns (r: Result<string, string>)
      requires Valid()
      modifies this
      ensures Valid()
      ensures files == old(files) && fileCount == old(fileCount) && updates == old(updates)
      ensures writeFails ==> r == Failure("Error while saving file") && blobs == old(blobs) && blobCount == old(blobCount)
      ensures !writeFails ==>
        && r == Success(BlobPath(old(blobCount)))
        && r.value !in old(blobs)
        && blobs == old(blobs)[r.value := decode(data)]
        && blobCount == old(blobCount) + 1
    {
      if writeFails {
        return Failure("Error while saving file");
      }
      var path := BlobPath(blobCount);
      forall n: nat | n >= blobCount + 1 ensures BlobPath(n) != path {
        BlobPathFresh(n, blobCount);
      }
      blobs := blobs[path := decode(data)];
      blobCount := blobCount + 1;
      forall id | id in files ensures WellFormed(files, blobs, files[id]) {
        WellFormedGrows(files, old(blobs), files[id], files, blobs);
      }
      r := Success(path);
    }

    /** `POST /files` for the user the gate resolved: validate; for a file
        or an image write the content first and only then insert the
        document holding its path; a folder gets no path. Any failure
        answers 400 and leaves the collection unchanged. The reply is the
        new document without data or local path. */
    method Upload(userId: string, body: UploadBody, decode: string -> string, writeFails: bool) returns (r: Reply<FileView>)
      requires Valid()
      modifies this
      ensures Valid()
      ensures updates == old(updates)
      ensures var p := GetFileProperties(body, old(files));
        && (p.Failure? ==> r == Refused(400, p.error) && files == old(files) && blobs == old(blobs))
        && (p.Success? && p.value.fileType != Folder && writeFails ==>
              r == Refused(400, "Error while saving file") && files == old(files) && blobs == old(blobs))
        && (p.Success? && p.value.fileType == Folder ==>
              && r.Done? && r.status == 201 && r.body.id !in old(files)
              && files == old(files)[r.body.id := Document(userId, p.value, None)]
              && blobs == old(blobs))
        && (p.Success? && p.value.fileType != Folder && !writeFails ==>
              && r.Done? && r.status == 201 && r.body.id !in old(files) && r.body.id in files
              && files[r.body.id].localPath.Some?
              && files[r.body.id].localPath.value !in old(blobs)
              && files == old(files)[r.body.id := Document(userId, p.value, files[r.body.id].localPath)]
              && blobs == old(blobs)[files[r.body.id].localPath.value := decode(p.value.data.value)])
      ensures r.Done? ==> r.body == ViewOf(r.body.id, files[r.body.id]) && r.body.userId == userId
      ensures r.Refused? ==> fileCount == old(fileCount) && blobCount == old(blobCount)
      ensures r.Done? ==>
        && r.body.id == ObjectIdOf(old(fileCount)) && fileCount == old(fileCount) + 1
        && blobCount == old(blobCount) + (if files[r.body.id].fileType == Folder then 0 else 1)
    {
      var p := GetFileProperties(body, files);
      if p.Failure? {
        return Refused(400, p.error);
      }
      var localPath: Option<string> := None;
      if p.value.fileType != Folder {
        var saved := SaveFile(p.value.data.value, decode, writeFails);
        if saved.Failure? {
          return Refused(400, saved.error);
        }
        localPath := Some(saved.value);
      }
      var id := ObjectIdOf(fileCount);
      var doc := Document(userId, p.value, localPath);
      forall n: nat | n >= fileCount + 1 ensures ObjectIdOf(n) != id {
        ObjectIdFresh(n, fileCount);
      }
      ghost var before := files;
      files := files[id := doc];
      fileCount := fileCount + 1;
      forall k | k in files ensures WellFormed(files, blobs, files[k]) {
        if k == id {
          WellFormedGrows(before, blobs, doc, files, blobs);
        } else {
          WellFormedGrows(before, blobs, before[k], files, blobs);
        }
      }
      r := Done(201, ViewOf(id, doc));
    }

    /** `PUT /files/:id/publish` (`publish` true) and
        `PUT /files/:id/unpublish` (`publish` false): 401 unless the token
        resolves, 404 unless the caller owns the file, otherwise the flag is
        set, the collection written only if the flag changes, and the file
        returned. Nothing else changes. */
    method PutVisibility(token: Option<string>, id: string, cache: map<string, string>, publish: bool)
      returns (r: Reply<FileView>)
      requires Valid()
      modifies this
      ensures Valid()
      ensures blobs == old(blobs) && fileCount == old(fileCount) && blobCount == old(blobCount)
      ensures Resolve(token, cache).None? ==> r == Unauthorized() && files == old(files) && updates == old(updates)
      ensures Resolve(token, cache).Some? && FindUserFile(old(files), Resolve(token, cache).value, id).None? ==>
        r == Refused(404, "Not found") && files == old(files) && updates == old(updates)
      ensures Resolve(token, cache).Some? && FindUserFile(old(files), Resolve(token, cache).value, id).Some? ==>
        && files == WithVisibility(old(files), id, publish)
        && r == Done(200, ViewOf(id, files[id]))
        && r.body.isPublic == publish
        && updates == old(updates) + (if old(files)[id].isPublic != publish then [id] else [])
    {
      var userId := Resolve(token, cache);
      if userId.None? {
        return Unauthorized();
      }
      var file := FindUserFile(files, userId.value, id);
      if file.None? {
        return Refused(404, "Not found");
      }
      var doc := file.value;
      if doc.isPublic != publish {
        ghost var before := files;
        files := WithVisibility(files, id, publish);
        updates := updates + [id];
        forall k | k in files ensures WellFormed(files, blobs, files[k]) {
          WellFormedGrows(before, blobs, before[k], files, blobs);
          assert files[k] == before[k] || (k == id && files[k] == before[k].(isPublic := publish));
        }
        doc := doc.(isPublic := publish);
      } else {
        WithVisibilityIdempotent(files, id, publish);
      }
      r := Done(200, ViewOf(id, doc));
    }
  }

  /** Publishing twice: the second call answers the same and writes nothing. */
  method PublishTwice(store: FileStore, token: Option<string>, id: string, cache: map<string, string>)
    returns (first: Reply<FileView>, second: Reply<FileView>)
    requires store.Valid()
    modifies store
    ensures first.Done? ==> second == first
    ensures first.Done? ==> |store.updates| <= |old(store.updates)| + 1
  {
    first := store.PutVisibility(token, id, cache, true);
    ghost var mid := store.updates;
    second := store.PutVisibility(token, id, cache, true);
    if first.Done? {
      assert store.updates == mid;
    }
  }
}
