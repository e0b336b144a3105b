/**
 * The `/files` handlers: upload, show, paginated listing, publish and
 * unpublish, and content download. Each takes the session map, the files
 * collection and (where it uses it) the local disk; the read-only handlers
 * are functions, the three that write are methods checked against a
 * function giving the reply and the new state.
 */
module FilesController {
  import opened Values
  import opened JsText
  import opened ObjectIds
  import opened Stores
  import opened Sessions
  import opened Http

  const PageSize: nat := 20
  const DefaultFolderPath := "/tmp/files_manager"
  const DefaultMimeType := "application/octet-stream"

  const MissingName := "Missing name"
  const MissingType := "Missing type"
  const MissingData := "Missing data"
  const ParentNotFound := "Parent not found"
  const ParentNotFolder := "Parent is not a folder"
  const FolderHasNoContent := "A folder doesn't have content"

  /** The requester: `ObjectId(userId)` of the id text the token resolves to. */
  function Requester(sessions: map<string, CacheEntry>, token: Option<string>): (r: Option<Oid>)
    ensures r.Some? <==> SessionUser(sessions, token).Some? && ParseOid(SessionUser(sessions, token).value).Some?
    ensures r.Some? ==> ParseOid(SessionUser(sessions, token).value) == r
  {
    match SessionUser(sessions, token)
    case None => None
    case Some(u) => ParseOid(u)
  }

  // ---------------------------------------------------------------- upload

  /** The `type` field, accepted only as one of the three kind names. */
  function ParseFileType(t: Option<string>): (r: Option<FileType>)
    ensures r.Some? <==> t.Some? && t.value in {"folder", "file", "image"}
    ensures r.Some? ==> TypeName(r.value) == t.value
  {
    if t == Some("folder") then Some(Folder)
    else if t == Some("file") then Some(File)
    else if t == Some("image") then Some(Image)
    else None
  }

  /** `process.env.FOLDER_PATH || '/tmp/files_manager'`. */
  function FolderPath(env: Option<string>): (p: string)
    ensures p != ""
    ensures Truthy(env) ==> p == env.value
    ensures !Truthy(env) ==> p == DefaultFolderPath
  {
    if Truthy(env) then env.value else DefaultFolderPath
  }

  /** The fields of an upload: the `X-Token` header and the JSON body. */
  datatype UploadRequest = UploadRequest(
    token: Option<string>,
    name: Option<string>,
    fileType: Option<string>,
    parentId: ParentArg,
    isPublic: bool,
    data: Option<string>)

  datatype ParentCheck = ParentOk(parent: StoredParent) | ParentRefused(response: Response)

  /**
   * The parent check of an upload. The number 0 is the root; anything else
   * goes through `ObjectId(parentId)` (which throws outside any `try`) and
   * must name a document, of any owner, whose type is folder.
   */
  function CheckParent(docs: seq<FileDoc>, arg: ParentArg): (c: ParentCheck)
    ensures arg.Zero? ==> c == ParentOk(RootMark)
    ensures arg.Given? && ParseOid(arg.text).None? ==> c == ParentRefused(Unanswered(InvalidOid))
    ensures c.ParentOk? && arg.Given? ==>
      && c.parent.Under? && ParseOid(arg.text) == Some(c.parent.folder)
      && exists j :: 0 <= j < |docs| && docs[j].id == c.parent.folder && docs[j].fileType == Folder
    ensures c == ParentRefused(BadRequest(ParentNotFound)) <==>
      arg.Given? && ParseOid(arg.text).Some? && forall j :: 0 <= j < |docs| ==> docs[j].id != ParseOid(arg.text).value
    ensures c == ParentRefused(BadRequest(ParentNotFolder)) ==>
      arg.Given? && ParseOid(arg.text).Some? &&
      exists j :: 0 <= j < |docs| && docs[j].id == ParseOid(arg.text).value && docs[j].fileType != Folder
  {
    match arg
    case Zero => ParentOk(RootMark)
    case Given(text) =>
      match ParseOid(text)
      case None => ParentRefused(Unanswered(InvalidOid))
      case Some(p) =>
        match FindFile(docs, ById(p))
        case None => ParentRefused(BadRequest(ParentNotFound))
        case Some(j) =>
          if docs[j].fileType != Folder then ParentRefused(BadRequest(ParentNotFolder))
          else ParentOk(Under(p))
  }

  /** The outcome of an upload's checks: refuse with a reply, or insert with these values. */
  datatype UploadPlan =
    | Refuse(response: Response)
    | Accept(owner: Oid, ownerText: string, kind: FileType, parent: StoredParent)

  /** The body fields pass their checks: a name, a known type, and data unless it is a folder. */
  predicate FieldsPresent(req: UploadRequest) {
    && Truthy(req.name)
    && ParseFileType(req.fileType).Some?
    && (ParseFileType(req.fileType) != Some(Folder) ==> Truthy(req.data))
  }

  /**
   * The checks of `postUpload`, in the source's order: session, name, type,
   * data (files and images only), parent, and finally `new ObjectId(userId)`.
   */
  function PlanUpload(sessions: map<string, CacheEntry>, docs: seq<FileDoc>, req: UploadRequest): (p: UploadPlan)
    ensures SessionUser(sessions, req.token).None? ==> p == Refuse(Unauthorized)
    ensures SessionUser(sessions, req.token).Some? && !Truthy(req.name) ==> p == Refuse(BadRequest(MissingName))
    ensures SessionUser(sessions, req.token).Some? && Truthy(req.name) && ParseFileType(req.fileType).None? ==>
      p == Refuse(BadRequest(MissingType))
    ensures SessionUser(sessions, req.token).Some? && Truthy(req.name) && ParseFileType(req.fileType) == Some(File) && !Truthy(req.data) ==>
      p == Refuse(BadRequest(MissingData))
    ensures SessionUser(sessions, req.token).Some? && Truthy(req.name) && ParseFileType(req.fileType) == Some(Image) && !Truthy(req.data) ==>
      p == Refuse(BadRequest(MissingData))
    ensures p == Refuse(BadRequest(ParentNotFound)) || p == Refuse(BadRequest(ParentNotFolder)) ==>
      && SessionUser(sessions, req.token).Some? && Truthy(req.name) && ParseFileType(req.fileType).Some?
      && (ParseFileType(req.fileType) != Some(Folder) ==> Truthy(req.data))
      && ParentRefused(p.response) == CheckParent(docs, req.parentId)
    ensures SessionUser(sessions, req.token).Some? && FieldsPresent(req) ==>
      && (CheckParent(docs, req.parentId).ParentRefused? ==> p == Refuse(CheckParent(docs, req.parentId).response))
      && (CheckParent(docs, req.parentId).ParentOk? && Requester(sessions, req.token).None? ==>
            p == Refuse(Unanswered(InvalidOid)))
      && (CheckParent(docs, req.parentId).ParentOk? && Requester(sessions, req.token).Some? ==>
            p == Accept(Requester(sessions, req.token).value, SessionUser(sessions, req.token).value,
                        ParseFileType(req.fileType).value, CheckParent(docs, req.parentId).parent))
    ensures p.Accept? ==>
      && SessionUser(sessions, req.token) == Some(p.ownerText)
      && ParseOid(p.ownerText) == Some(p.owner)
      && Truthy(req.name)
      && req.fileType == Some(TypeName(p.kind))
      && (p.kind != Folder ==> Truthy(req.data))
      && CheckParent(docs, req.parentId) == ParentOk(p.parent)
  {
    match SessionUser(sessions, req.token)
    case None => Refuse(Unauthorized)
    case Some(userText) =>
      if !Truthy(req.name) then Refuse(BadRequest(MissingName))
      else match ParseFileType(req.fileType)
        case None => Refuse(BadRequest(MissingType))
        case Some(kind) =>
          if kind != Folder && !Truthy(req.data) then Refuse(BadRequest(MissingData))
          else match CheckParent(docs, req.parentId)
            case ParentRefused(r) => Refuse(r)
            case ParentOk(parent) =>
              match ParseOid(userText)
              case None => Refuse(Unanswered(InvalidOid))
              case Some(owner) => Accept(owner, userText, kind, parent)
  }

  /** A reply with the files collection and the disk after it. */
  datatype UploadEffect = UploadEffect(response: Response, docs: seq<FileDoc>, disk: map<string, Bytes>)

  /** Where the content of a new file goes: `<folderPath>/<uuid>`. */
  function ContentPath(env: Option<string>, uuid: string): (p: string)
    ensures var folder := FolderPath(env);
      && |p| == |folder| + 1 + |uuid|
      && p[..|folder|] == folder && p[|folder|] == '/' && p[|folder| + 1..] == uuid
  {
    FolderPath(env) + "/" + uuid
  }

  /**
   * `postUpload`. `nextId` is the id the insert will get, `uuid` the value of
   * `uuidv4()`, and `decode` stands for `Buffer.from(data, 'base64')`.
   */
  function Upload(
    sessions: map<string, CacheEntry>, docs: seq<FileDoc>, nextId: Oid, disk: map<string, Bytes>,
    req: UploadRequest, env: Option<string>, uuid: string, decode: string -> Bytes): (e: UploadEffect)
    ensures PlanUpload(sessions, docs, req).Refuse? ==>
      e == UploadEffect(PlanUpload(sessions, docs, req).response, docs, disk)
    ensures PlanUpload(sessions, docs, req).Accept? ==>
      && e.response.Answered? && e.response.status == 201
      && |e.docs| == |docs| + 1 && e.docs[..|docs|] == docs
      && var d := e.docs[|docs|];
      && d.id == nextId
      && Requester(sessions, req.token) == Some(d.userId)
      && e.response.body == CreatedJson(nextId, SessionUser(sessions, req.token).value, d.name, d.fileType, d.isPublic, req.parentId)
      && Some(d.name) == req.name && req.fileType == Some(TypeName(d.fileType)) && d.isPublic == req.isPublic
      && (d.parentId == RootMark <==> req.parentId.Zero?)
      && CheckParent(docs, req.parentId) == ParentOk(d.parentId)
      && (d.localPath.Some? <==> d.fileType != Folder)
      && (d.fileType == Folder ==> e.disk == disk)
      && (d.fileType != Folder ==>
            d.localPath == Some(ContentPath(env, uuid)) && e.disk == disk[ContentPath(env, uuid) := decode(req.data.value)])
  {
    match PlanUpload(sessions, docs, req)
    case Refuse(r) => UploadEffect(r, docs, disk)
    case Accept(owner, ownerText, kind, parent) =>
      var reply := Answered(201, CreatedJson(nextId, ownerText, req.name.value, kind, req.isPublic, req.parentId));
      if kind == Folder then
        UploadEffect(reply, docs + [FileDoc(nextId, owner, req.name.value, kind, req.isPublic, parent, None)], disk)
      else
        var path := ContentPath(env, uuid);
        UploadEffect(
          reply,
          docs + [FileDoc(nextId, owner, req.name.value, kind, req.isPublic, parent, Some(path))],
          disk[path := decode(req.data.value)])
  }

  /** The `postUpload` handler. No thumbnail job is queued. */
  method PostUpload(
    cache: SessionCache, files: FilesCollection, disk: Disk,
    req: UploadRequest, env: Option<string>, uuid: string, decode: string -> Bytes) returns (res: Response)
    requires files.Valid()
    modifies files, disk
    ensures files.Valid()
    ensures var e := Upload(cache.entries, old(files.docs), old(files.nextId), old(disk.files), req, env, uuid, decode);
      res == e.response && files.docs == e.docs && disk.files == e.disk
  {
    var userText := cache.Get(SessionKey(req.token));
    if userText.None? {
      return Unauthorized;
    }
    if !Truthy(req.name) {
      return BadRequest(MissingName);
    }
    var kind := ParseFileType(req.fileType);
    if kind.None? {
      return BadRequest(MissingType);
    }
    if kind.value != Folder && !Truthy(req.data) {
      return BadRequest(MissingData);
    }
    var parent := CheckParent(files.docs, req.parentId);
    if parent.ParentRefused? {
      return parent.response;
    }
    var owner := ParseOid(userText.value);
    if owner.None? {
      return Unanswered(InvalidOid);
    }
    var doc := FileDoc(0, owner.value, req.name.value, kind.value, req.isPublic, parent.parent, None);
    if kind.value == Folder {
      var id := files.InsertOne(doc);
      return Answered(201, CreatedJson(id, userText.value, req.name.value, kind.value, req.isPublic, req.parentId));
    }
    var localPath := ContentPath(env, uuid);
    disk.WriteFile(localPath, decode(req.data.value));
    var id := files.InsertOne(doc.(localPath := Some(localPath)));
    res := Answered(201, CreatedJson(id, userText.value, req.name.value, kind.value, req.isPublic, req.parentId));
  }

  /**
   * An upload under an existing folder passes the parent check whatever
   * the folder's owner, and one under a file or image does not.
   */
  lemma ParentCheckOfExisting(docs: seq<FileDoc>, next: Oid, j: nat)
    requires FileIdsFresh(docs, next) && next <= OidSpace && j < |docs|
    ensures docs[j].fileType == Folder ==>
      CheckParent(docs, Given(OidText(docs[j].id))) == ParentOk(Under(docs[j].id))
    ensures docs[j].fileType != Folder ==>
      CheckParent(docs, Given(OidText(docs[j].id))) == ParentRefused(BadRequest(ParentNotFolder))
  {
    OidTextRoundTrip(docs[j].id);
    FirstWithOwnId(docs, next, j);
  }

  /** A created document under a given parent is stored under the folder that parent's text names. */
  lemma UploadStoresGivenParent(
    sessions: map<string, CacheEntry>, docs: seq<FileDoc>, next: Oid, disk: map<string, Bytes>,
    req: UploadRequest, env: Option<string>, uuid: string, decode: string -> Bytes)
    requires req.parentId.Given?
    requires Upload(sessions, docs, next, disk, req, env, uuid, decode).response.Answered?
    requires Upload(sessions, docs, next, disk, req, env, uuid, decode).response.status == 201
    ensures var e := Upload(sessions, docs, next, disk, req, env, uuid, decode);
      && |e.docs| == |docs| + 1
      && ParseOid(req.parentId.text).Some? && e.docs[|docs|].parentId == Under(ParseOid(req.parentId.text).value)
      && exists j :: 0 <= j < |docs| && docs[j].id == ParseOid(req.parentId.text).value && docs[j].fileType == Folder
  {
    var p := PlanUpload(sessions, docs, req);
    assert p.Accept?;
  }

  /**
   * An upload with a session naming a user, the fields the type needs, and
   * the root or an existing folder (of any owner) as parent is created:
   * 201, one new document, stored under that parent.
   */
  lemma ValidUploadCreated(
    sessions: map<string, CacheEntry>, docs: seq<FileDoc>, next: Oid, disk: map<string, Bytes>,
    req: UploadRequest, env: Option<string>, uuid: string, decode: string -> Bytes, j: nat)
    requires FileIdsFresh(docs, next) && next <= OidSpace
    requires Requester(sessions, req.token).Some? && FieldsPresent(req)
    requires req.parentId.Zero? || (j < |docs| && req.parentId == Given(OidText(docs[j].id)) && docs[j].fileType == Folder)
    ensures var e := Upload(sessions, docs, next, disk, req, env, uuid, decode);
      && e.response.Answered? && e.response.status == 201
      && |e.docs| == |docs| + 1 && e.docs[..|docs|] == docs
      && e.docs[|docs|].id == next && e.docs[|docs|].userId == Requester(sessions, req.token).value
      && e.docs[|docs|].parentId == (if req.parentId.Zero? then RootMark else Under(docs[j].id))
  {
    if req.parentId.Given? {
      ParentCheckOfExisting(docs, next, j);
    }
  }

  // ------------------------------------------------------------------ show

  /**
   * `getShow`: the document whose `_id` and owner both match. A malformed id
   * is caught and answered like an absent one.
   */
  function GetShow(sessions: map<string, CacheEntry>, docs: seq<FileDoc>, token: Option<string>, id: string): (r: Response)
    ensures r == Unauthorized <==> SessionUser(sessions, token).None?
    ensures r == Unauthorized || r == NotFound || (r.Answered? && r.status == 200)
    ensures r.Answered? && r == Answered(200, r.body) <==>
      && Requester(sessions, token).Some? && ParseOid(id).Some?
      && exists j :: 0 <= j < |docs| && docs[j].id == ParseOid(id).value && docs[j].userId == Requester(sessions, token).value
    ensures r.Answered? && r.status == 200 ==>
      && r.body.FileJson? && r.body.file in docs
      && Some(r.body.file.id) == ParseOid(id) && Some(r.body.file.userId) == Requester(sessions, token)
  {
    match SessionUser(sessions, token)
    case None => Unauthorized
    case Some(userText) =>
      match (ParseOid(id), ParseOid(userText))
      case (Some(o), Some(owner)) =>
        (match FindFile(docs, ByIdAndOwner(o, owner))
         case None => NotFound
         case Some(j) => Answered(200, FileJson(docs[j])))
      case _ => NotFound
  }

  /** The collection without its `j`th document. */
  function Without(docs: seq<FileDoc>, j: nat): seq<FileDoc>
    requires j < |docs|
  {
    docs[..j] + docs[j + 1..]
  }

  /** With distinct ids, no document but the `j`th carries its id. */
  lemma WithoutHasNoSuchId(docs: seq<FileDoc>, next: Oid, j: nat)
    requires FileIdsFresh(docs, next) && j < |docs|
    ensures forall k :: 0 <= k < |Without(docs, j)| ==> Without(docs, j)[k].id != docs[j].id
  {
    var w := Without(docs, j);
    forall k | 0 <= k < |w|
      ensures w[k].id != docs[j].id
    {
      if k < j {
        assert w[k] == docs[k];
      } else {
        assert w[k] == docs[k + 1];
      }
    }
  }

  /**
   * Another user's document, public or not, is shown exactly as if it did not
   * exist: `getShow` gives the same reply with it removed from the store.
   */
  lemma ShowHidesOthersDocuments(sessions: map<string, CacheEntry>, docs: seq<FileDoc>, next: Oid,
                                 token: Option<string>, j: nat, id: string)
    requires FileIdsFresh(docs, next) && j < |docs|
    requires ParseOid(id) == Some(docs[j].id)
    requires Requester(sessions, token) != Some(docs[j].userId)
    ensures GetShow(sessions, docs, token, id) == GetShow(sessions, Without(docs, j), token, id)
    ensures SessionUser(sessions, token).Some? ==> GetShow(sessions, docs, token, id) == NotFound
  {
    WithoutHasNoSuchId(docs, next, j);
  }

  // --------------------------------------------------------------- listing

  /** `req.query.parentId || '0'` as a `$match` value; `None` where `ObjectId` throws. */
  function ListParent(q: Option<string>): (r: Option<StoredParent>)
    ensures !Truthy(q) ==> r == Some(RootMark)
    ensures q == Some("0") ==> r == Some(RootMark)
    ensures Truthy(q) && q.value != "0" ==>
      (r.Some? <==> IsOidText(q.value)) && (r.Some? ==> r == Some(Under(ParseOid(q.value).value)))
  {
    var text := if Truthy(q) then q.value else "0";
    if text == "0" then Some(RootMark)
    else match ParseOid(text)
      case None => None
      case Some(o) => Some(Under(o))
  }

  /** `parseInt(req.query.page, 10) || 0`: `NaN` and a missing page count as page 0. */
  function PageIndex(q: Option<string>): (p: int)
    ensures q.None? ==> p == 0
    ensures q.Some? && ParseInt(q.value).None? ==> p == 0
    ensures q.Some? && ParseInt(q.value).Some? ==> p == ParseInt(q.value).value
  {
    if q.None? then 0
    else match ParseInt(q.value)
      case None => 0
      case Some(v) => v
  }

  /** A page given as the decimal text of `n` is page `n`. */
  lemma PageIndexOfDecimal(n: nat)
    ensures PageIndex(Some(DecimalText(n))) == n
  {
    ParseIntDecimal(n);
  }

  /** The `$match` stage: the owner's documents under `parent`, in store order. */
  function Matching(docs: seq<FileDoc>, owner: Oid, parent: StoredParent): (r: seq<FileDoc>)
    ensures |r| <= |docs|
    ensures forall k :: 0 <= k < |r| ==> r[k] in docs && r[k].userId == owner && r[k].parentId == parent
    ensures forall j :: 0 <= j < |docs| && docs[j].userId == owner && docs[j].parentId == parent ==> docs[j] in r
  {
    if |docs| == 0 then []
    else
      var last := docs[|docs| - 1];
      var init := Matching(docs[..|docs| - 1], owner, parent);
      assert forall j :: 0 <= j < |docs| - 1 ==> docs[..|docs| - 1][j] == docs[j];
      if last.userId == owner && last.parentId == parent then init + [last] else init
  }

  /** Store order is kept: matching a concatenation matches each part in turn. */
  lemma {:induction false} MatchingAppend(a: seq<FileDoc>, b: seq<FileDoc>, owner: Oid, parent: StoredParent)
    ensures Matching(a + b, owner, parent) == Matching(a, owner, parent) + Matching(b, owner, parent)
    decreases |b|
  {
    if |b| == 0 {
      assert a + b == a;
    } else {
      var b' := b[..|b| - 1];
      assert (a + b)[..|a + b| - 1] == a + b';
      MatchingAppend(a, b', owner, parent);
    }
  }

  /** The `$skip` and `$limit` stages. */
  function Window(s: seq<FileDoc>, skip: nat, limit: nat): (w: seq<FileDoc>)
    ensures |w| <= limit && |w| <= |s|
    ensures skip >= |s| ==> w == []
    ensures skip < |s| ==> |w| == if |s| - skip < limit then |s| - skip else limit
    ensures forall k :: 0 <= k < |w| ==> skip + k < |s| && w[k] == s[skip + k]
  {
    if skip >= |s| then []
    else s[skip..if skip + limit <= |s| then skip + limit else |s|]
  }

  /**
   * `getIndex`. A page below 0 asks for a negative `$skip`, which the store
   * rejects; that error, like a malformed `parentId`, is caught as a 500.
   */
  function GetIndex(sessions: map<string, CacheEntry>, docs: seq<FileDoc>, token: Option<string>,
                    parentQuery: Option<string>, pageQuery: Option<string>): (r: Response)
    ensures r == Unauthorized <==> SessionUser(sessions, token).None?
    ensures r == Unauthorized || r == ServerError || (r.Answered? && r.status == 200)
    ensures r.Answered? && r.status == 200 <==>
      Requester(sessions, token).Some? && ListParent(parentQuery).Some? && PageIndex(pageQuery) >= 0
    ensures r.Answered? && r.status == 200 ==>
      r.body == FileListJson(Page(docs, Requester(sessions, token).value, ListParent(parentQuery).value, PageIndex(pageQuery)))
  {
    match SessionUser(sessions, token)
    case None => Unauthorized
    case Some(userText) =>
      var page := PageIndex(pageQuery);
      match (ListParent(parentQuery), ParseOid(userText))
      case (Some(parent), Some(owner)) =>
        if page < 0 then ServerError
        else Answered(200, FileListJson(Page(docs, owner, parent, page)))
      case _ => ServerError
  }

  /** Page `page` of the owner's documents under `parent`: `$skip: page * 20`, `$limit: 20`. */
  function Page(docs: seq<FileDoc>, owner: Oid, parent: StoredParent, page: nat): (p: seq<FileDoc>)
    ensures |p| <= PageSize
    ensures forall k :: 0 <= k < |p| ==> p[k] in docs && p[k].userId == owner && p[k].parentId == parent
  {
    Window(Matching(docs, owner, parent), page * PageSize, PageSize)
  }

  /**
   * A page holds at most 20 documents, all the owner's and under the parent,
   * and they are the matching documents `page * 20` to `page * 20 + 19` in
   * store order; a page before the end of the matches is full unless it is
   * the last one.
   */
  lemma PageContents(docs: seq<FileDoc>, owner: Oid, parent: StoredParent, page: nat)
    ensures var p := Page(docs, owner, parent, page);
      var all := Matching(docs, owner, parent);
      && |p| <= PageSize
      && (forall k :: 0 <= k < |p| ==>
            p[k] in docs && p[k].userId == owner && p[k].parentId == parent && p[k] == all[page * PageSize + k])
      && (page * PageSize < |all| ==> |p| == if |all| - page * PageSize < PageSize then |all| - page * PageSize else PageSize)
      && (page * PageSize >= |all| ==> p == [])
  {
    var all := Matching(docs, owner, parent);
    var p := Page(docs, owner, parent, page);
    forall k | 0 <= k < |p|
      ensures p[k] in docs && p[k].userId == owner && p[k].parentId == parent && p[k] == all[page * PageSize + k]
    {
      assert p[k] == all[page * PageSize + k];
    }
  }

  /** A new upload of the requester under the listed parent appears at the end of the listing. */
  lemma UploadListedLast(docs: seq<FileDoc>, d: FileDoc)
    ensures Matching(docs + [d], d.userId, d.parentId) == Matching(docs, d.userId, d.parentId) + [d]
  {
    assert (docs + [d])[..|docs|] == docs;
  }

  /** Documents of other owners or other parents never change a listing. */
  lemma ListingIgnoresOthers(docs: seq<FileDoc>, d: FileDoc, owner: Oid, parent: StoredParent)
    requires d.userId != owner || d.parentId != parent
    ensures Matching(docs + [d], owner, parent) == Matching(docs, owner, parent)
  {
    assert (docs + [d])[..|docs|] == docs;
  }

  // -------------------------------------------------------- publish, unpublish

  datatype VisibilityEffect = VisibilityEffect(response: Response, docs: seq<FileDoc>)

  /**
   * `putPublish` (`value` true) and `putUnpublish` (`value` false): look the
   * document up by `_id` and owner, then set `isPublic` on the document with
   * that `_id`. A malformed id is caught as a 500.
   */
  function SetVisibility(sessions: map<string, CacheEntry>, docs: seq<FileDoc>, token: Option<string>,
                         id: string, value: bool): (e: VisibilityEffect)
    ensures SessionUser(sessions, token).None? ==> e == VisibilityEffect(Unauthorized, docs)
    ensures e.response == Unauthorized <==> SessionUser(sessions, token).None?
    ensures e.response == ServerError <==>
      SessionUser(sessions, token).Some? && (ParseOid(id).None? || Requester(sessions, token).None?)
    ensures e.response == Unauthorized || e.response == NotFound || e.response == ServerError ||
            (e.response.Answered? && e.response.status == 200)
    ensures !(e.response.Answered? && e.response.status == 200) ==> e.docs == docs
    ensures e.response.Answered? && e.response.status == 200 <==>
      && Requester(sessions, token).Some? && ParseOid(id).Some?
      && exists j :: 0 <= j < |docs| && docs[j].id == ParseOid(id).value && docs[j].userId == Requester(sessions, token).value
    ensures e.response.Answered? && e.response.status == 200 ==>
      && e.response.body.FileJson?
      && e.response.body.file.isPublic == value && e.response.body.file.localPath.None?
      && Some(e.response.body.file.id) == ParseOid(id)
      && e.docs == UpdateFirst(docs, ParseOid(id).value, value)
  {
    match SessionUser(sessions, token)
    case None => VisibilityEffect(Unauthorized, docs)
    case Some(userText) =>
      match (ParseOid(id), ParseOid(userText))
      case (Some(o), Some(owner)) =>
        (match FindFile(docs, ByIdAndOwner(o, owner))
         case None => VisibilityEffect(NotFound, docs)
         case Some(j) =>
           VisibilityEffect(
             Answered(200, FileJson(docs[j].(isPublic := value, localPath := None))),
             UpdateFirst(docs, o, value)))
      case _ => VisibilityEffect(ServerError, docs)
  }

  /**
   * With distinct ids, a successful publish or unpublish changes exactly one
   * document, the requester's, and only its `isPublic` field.
   */
  lemma VisibilityChangesOneField(sessions: map<string, CacheEntry>, docs: seq<FileDoc>, next: Oid,
                                  token: Option<string>, id: string, value: bool)
    requires FileIdsFresh(docs, next)
    requires SetVisibility(sessions, docs, token, id, value).response.Answered?
    requires SetVisibility(sessions, docs, token, id, value).response.status == 200
    ensures exists j :: (0 <= j < |docs| && Some(docs[j].id) == ParseOid(id) && Some(docs[j].userId) == Requester(sessions, token) &&
      SetVisibility(sessions, docs, token, id, value).docs == docs[j := docs[j].(isPublic := value)])
  {
    var o := ParseOid(id).value;
    var j := FindFile(docs, ByIdAndOwner(o, Requester(sessions, token).value)).value;
    FirstWithOwnId(docs, next, j);
  }

  /** Setting the visibility keeps the collection's ids as they were. */
  lemma UpdateKeepsIds(docs: seq<FileDoc>, next: Oid, id: Oid, value: bool)
    requires FileIdsFresh(docs, next)
    ensures FileIdsFresh(UpdateFirst(docs, id, value), next)
    ensures forall j :: 0 <= j < |docs| ==> UpdateFirst(docs, id, value)[j].id == docs[j].id
  {
  }

  /** Publishing (or unpublishing) twice has the effect, and the reply, of doing it once. */
  lemma SetVisibilityIdempotent(sessions: map<string, CacheEntry>, docs: seq<FileDoc>, next: Oid,
                                token: Option<string>, id: string, value: bool)
    requires FileIdsFresh(docs, next)
    ensures var once := SetVisibility(sessions, docs, token, id, value);
      SetVisibility(sessions, once.docs, token, id, value) == once
  {
    var once := SetVisibility(sessions, docs, token, id, value);
    if once.response.Answered? && once.response.status == 200 {
      VisibilityChangesOneField(sessions, docs, next, token, id, value);
      var o := ParseOid(id).value;
      var owner := Requester(sessions, token).value;
      var j := FindFile(docs, ByIdAndOwner(o, owner)).value;
      FirstWithOwnId(docs, next, j);
      var after := docs[j := docs[j].(isPublic := value)];
      UpdateKeepsIds(docs, next, o, value);
      assert FileMatches(after[j], ByIdAndOwner(o, owner));
      assert FindFile(after, ByIdAndOwner(o, owner)) == Some(j);
      FirstWithOwnId(after, next, j);
      assert after[j := after[j].(isPublic := value)] == after;
    }
  }

  /** `putPublish` and `putUnpublish`, which differ only in the value they set. */
  method UpdateVisibility(cache: SessionCache, files: FilesCollection, token: Option<string>, id: string, value: bool)
    returns (res: Response)
    requires files.Valid()
    modifies files
    ensures files.Valid() && files.nextId == old(files.nextId)
    ensures SetVisibility(cache.entries, old(files.docs), token, id, value) == VisibilityEffect(res, files.docs)
  {
    var userText := cache.Get(SessionKey(token));
    if userText.None? {
      return Unauthorized;
    }
    var o := ParseOid(id);
    var owner := ParseOid(userText.value);
    if o.None? || owner.None? {
      return ServerError;
    }
    var found := FindFile(files.docs, ByIdAndOwner(o.value, owner.value));
    if found.None? {
      return NotFound;
    }
    var doc := files.docs[found.value];
    files.SetPublic(o.value, value);
    res := Answered(200, FileJson(doc.(isPublic := value, localPath := None)));
  }

  method PutPublish(cache: SessionCache, files: FilesCollection, token: Option<string>, id: string)
    returns (res: Response)
    requires files.Valid()
    modifies files
    ensures files.Valid() && files.nextId == old(files.nextId)
    ensures SetVisibility(cache.entries, old(files.docs), token, id, true) == VisibilityEffect(res, files.docs)
  {
    res := UpdateVisibility(cache, files, token, id, true);
  }

  method PutUnpublish(cache: SessionCache, files: FilesCollection, token: Option<string>, id: string)
    returns (res: Response)
    requires files.Valid()
    modifies files
    ensures files.Valid() && files.nextId == old(files.nextId)
    ensures SetVisibility(cache.entries, old(files.docs), token, id, false) == VisibilityEffect(res, files.docs)
  {
    res := UpdateVisibility(cache, files, token, id, false);
  }

  // --------------------------------------------------------------- content

  /** `mime.lookup(name) || 'application/octet-stream'`; `lookup` stands for `mime.lookup`. */
  function MimeType(name: string, lookup: string -> Option<string>): (m: string)
    ensures m != ""
    ensures lookup(name).None? ==> m == DefaultMimeType
    ensures lookup(name).Some? && lookup(name).value != "" ==> m == lookup(name).value
  {
    match lookup(name)
    case Some(t) => if t != "" then t else DefaultMimeType
    case None => DefaultMimeType
  }

  /** Whether a document may be read by the holder of `token`: public, or owned by them. */
  predicate Visible(sessions: map<string, CacheEntry>, token: Option<string>, d: FileDoc) {
    d.isPublic || SessionUser(sessions, token) == Some(OidText(d.userId))
  }

  /**
   * A document the holder of `token` may read is public or is the
   * requester's own: the test on id texts is a test on ids.
   */
  lemma VisibleMeansPublicOrOwned(sessions: map<string, CacheEntry>, token: Option<string>, d: FileDoc)
    requires d.userId < OidSpace
    ensures Visible(sessions, token, d) ==> d.isPublic || Requester(sessions, token) == Some(d.userId)
    ensures d.isPublic ==> Visible(sessions, token, d)
  {
    if !d.isPublic && Visible(sessions, token, d) {
      OidTextRoundTrip(d.userId);
    }
  }

  /**
   * `getFile`: no session is needed. The owner test compares the session's
   * id text with `userId.toString()`.
   */
  function GetFile(sessions: map<string, CacheEntry>, docs: seq<FileDoc>, disk: map<string, Bytes>,
                   token: Option<string>, id: string, lookup: string -> Option<string>): (r: Response)
    ensures ParseOid(id).None? ==> r == ServerError
    ensures ParseOid(id).Some? && (forall j :: 0 <= j < |docs| ==> docs[j].id != ParseOid(id).value) ==> r == NotFound
    ensures r.Answered? && r.status == 200 ==>
      && ParseOid(id).Some?
      && exists j :: 0 <= j < |docs| && docs[j].id == ParseOid(id).value
           && Visible(sessions, token, docs[j]) && docs[j].fileType != Folder
           && docs[j].localPath.Some? && docs[j].localPath.value in disk
           && r.body == Content(MimeType(docs[j].name, lookup), disk[docs[j].localPath.value])
    ensures r == ServerError || r == NotFound || r == BadRequest(FolderHasNoContent) || (r.Answered? && r.status == 200)
  {
    var userText := SessionUser(sessions, token);
    match ParseOid(id)
    case None => ServerError
    case Some(o) =>
      match FindFile(docs, ById(o))
      case None => NotFound
      case Some(j) =>
        var d := docs[j];
        if !d.isPublic && (userText.None? || OidText(d.userId) != userText.value) then NotFound
        else if d.fileType == Folder then BadRequest(FolderHasNoContent)
        else if !Truthy(d.localPath) || d.localPath.value !in disk then NotFound
        else Answered(200, Content(MimeType(d.name, lookup), disk[d.localPath.value]))
  }

  /**
   * The non-leak rule: a private document the requester does not own, also
   * when there is no session at all, gets exactly the reply its absence would.
   */
  lemma GetFileHidesPrivate(sessions: map<string, CacheEntry>, docs: seq<FileDoc>, next: Oid, disk: map<string, Bytes>,
                            token: Option<string>, j: nat, id: string, lookup: string -> Option<string>)
    requires FileIdsFresh(docs, next) && j < |docs|
    requires ParseOid(id) == Some(docs[j].id)
    requires !Visible(sessions, token, docs[j])
    ensures GetFile(sessions, docs, disk, token, id, lookup) == NotFound
    ensures GetFile(sessions, docs, disk, token, id, lookup) == GetFile(sessions, Without(docs, j), disk, token, id, lookup)
  {
    FirstWithOwnId(docs, next, j);
    WithoutHasNoSuchId(docs, next, j);
  }

  /** The reply for a document visible to the requester, in the source's order of checks. */
  lemma GetFileOfVisible(sessions: map<string, CacheEntry>, docs: seq<FileDoc>, next: Oid, disk: map<string, Bytes>,
                         token: Option<string>, j: nat, lookup: string -> Option<string>)
    requires FileIdsFresh(docs, next) && next <= OidSpace && j < |docs|
    requires Visible(sessions, token, docs[j])
    ensures var r := GetFile(sessions, docs, disk, token, OidText(docs[j].id), lookup);
      && (docs[j].fileType == Folder ==> r == BadRequest(FolderHasNoContent))
      && (docs[j].fileType != Folder && (!Truthy(docs[j].localPath) || docs[j].localPath.value !in disk) ==> r == NotFound)
      && (docs[j].fileType != Folder && Truthy(docs[j].localPath) && docs[j].localPath.value in disk ==>
            r == Answered(200, Content(MimeType(docs[j].name, lookup), disk[docs[j].localPath.value])))
  {
    OidTextRoundTrip(docs[j].id);
    FirstWithOwnId(docs, next, j);
  }

  /** Once a document is public, every requester, with or without a session, gets the same reply. */
  lemma PublicSameForEveryone(sessions: map<string, CacheEntry>, docs: seq<FileDoc>, disk: map<string, Bytes>,
                              t1: Option<string>, t2: Option<string>, id: string, lookup: string -> Option<string>)
    requires ParseOid(id).Some?
    requires forall j :: 0 <= j < |docs| && docs[j].id == ParseOid(id).value ==> docs[j].isPublic
    ensures GetFile(sessions, docs, disk, t1, id, lookup) == GetFile(sessions, docs, disk, t2, id, lookup)
  {
  }

  /** After a successful publish, the document's content no longer depends on who asks. */
  lemma PublishedReadableByAll(sessions: map<string, CacheEntry>, docs: seq<FileDoc>, next: Oid, disk: map<string, Bytes>,
                               token: Option<string>, id: string, other: Option<string>, lookup: string -> Option<string>)
    requires FileIdsFresh(docs, next)
    requires SetVisibility(sessions, docs, token, id, true).response.Answered?
    requires SetVisibility(sessions, docs, token, id, true).response.status == 200
    ensures var after := SetVisibility(sessions, docs, token, id, true).docs;
      GetFile(sessions, after, disk, other, id, lookup) == GetFile(sessions, after, disk, token, id, lookup)
  {
    VisibilityChangesOneField(sessions, docs, next, token, id, true);
    var after := SetVisibility(sessions, docs, token, id, true).docs;
    var o := ParseOid(id).value;
    forall k | 0 <= k < |after| && after[k].id == o
      ensures after[k].isPublic
    {
      var j :| 0 <= j < |docs| && Some(docs[j].id) == ParseOid(id) && after == docs[j := docs[j].(isPublic := true)];
    }
    PublicSameForEveryone(sessions, after, disk, other, token, id, lookup);
  }
}
