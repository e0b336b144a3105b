/**
 * The persistent state the handlers work on: the `files` and `users`
 * collections of the document store, kept in insertion order, and the local
 * disk as a map from path to content. `findOne` returns the first document
 * in insertion order that matches its filter.
 */
module Stores {
  import opened Values
  import opened ObjectIds

  datatype FileType = Folder | File | Image

  /** The `type` string stored for each kind. */
  function TypeName(t: FileType): string {
    match t
    case Folder => "folder"
    case File => "file"
    case Image => "image"
  }

  /** The stored `parentId`: the string `'0'` for the root, else the parent's ObjectId. */
  datatype StoredParent = RootMark | Under(folder: Oid)

  /** `parentId` as an upload request gives it: the number 0 (the default) or a string. */
  datatype ParentArg = Zero | Given(text: string)

  /**
   * A document of the `files` collection. `localPath` is `None` where the
   * document has no such field (folders); in a JSON reply it is omitted.
   */
  datatype FileDoc = FileDoc(
    id: Oid,
    userId: Oid,
    name: string,
    fileType: FileType,
    isPublic: bool,
    parentId: StoredParent,
    localPath: Option<string>)

  /** A document of the `users` collection; `password` holds the SHA1 hex digest. */
  datatype UserDoc = UserDoc(id: Oid, email: string, password: string)

  /** The filters the handlers pass to `findOne` on the files collection. */
  datatype FileFilter =
    | ById(id: Oid)                       // { _id }
    | ByIdAndOwner(id: Oid, owner: Oid)   // { _id, userId }

  predicate FileMatches(d: FileDoc, f: FileFilter) {
    match f
    case ById(id) => d.id == id
    case ByIdAndOwner(id, owner) => d.id == id && d.userId == owner
  }

  /** `findOne(filter)` on the files collection: the index of the first match. */
  function FindFile(docs: seq<FileDoc>, f: FileFilter): (r: Option<nat>)
    ensures r.Some? ==> r.value < |docs| && FileMatches(docs[r.value], f)
    ensures r.Some? ==> forall j :: 0 <= j < r.value ==> !FileMatches(docs[j], f)
    ensures r.None? <==> forall j :: 0 <= j < |docs| ==> !FileMatches(docs[j], f)
  {
    if |docs| == 0 then None
    else if FileMatches(docs[0], f) then Some(0)
    else match FindFile(docs[1..], f)
      case None => None
      case Some(i) => Some(i + 1)
  }

  /** The filters the handlers pass to `findOne` on the users collection. */
  datatype UserFilter =
    | ByEmail(email: string)                          // { email }
    | ByCredentials(email: string, password: string)  // { email, password }
    | ByUserId(id: Oid)                               // { _id }

  predicate UserMatches(u: UserDoc, f: UserFilter) {
    match f
    case ByEmail(e) => u.email == e
    case ByCredentials(e, p) => u.email == e && u.password == p
    case ByUserId(id) => u.id == id
  }

  /** `findOne(filter)` on the users collection: the index of the first match. */
  function FindUser(users: seq<UserDoc>, f: UserFilter): (r: Option<nat>)
    ensures r.Some? ==> r.value < |users| && UserMatches(users[r.value], f)
    ensures r.Some? ==> forall j :: 0 <= j < r.value ==> !UserMatches(users[j], f)
    ensures r.None? <==> forall j :: 0 <= j < |users| ==> !UserMatches(users[j], f)
  {
    if |users| == 0 then None
    else if UserMatches(users[0], f) then Some(0)
    else match FindUser(users[1..], f)
      case None => None
      case Some(i) => Some(i + 1)
  }

  /** Ids below `next`, strictly increasing in insertion order (so pairwise distinct). */
  ghost predicate FileIdsFresh(docs: seq<FileDoc>, next: Oid) {
    && (forall i :: 0 <= i < |docs| ==> docs[i].id < next)
    && (forall i, j :: 0 <= i < j < |docs| ==> docs[i].id < docs[j].id)
  }

  ghost predicate UserIdsFresh(users: seq<UserDoc>, next: Oid) {
    && (forall i :: 0 <= i < |users| ==> users[i].id < next)
    && (forall i, j :: 0 <= i < j < |users| ==> users[i].id < users[j].id)
  }

  /** In a collection with distinct ids, a document is the first one carrying its id. */
  lemma FirstWithOwnId(docs: seq<FileDoc>, next: Oid, i: nat)
    requires FileIdsFresh(docs, next) && i < |docs|
    ensures FindFile(docs, ById(docs[i].id)) == Some(i)
  {
    assert FileMatches(docs[i], ById(docs[i].id));
  }

  /**
   * The `files` collection. Inserting assigns the next id of a counter, which
   * stands for the driver's `insertedId`.
   */
  class FilesCollection {
    var docs: seq<FileDoc>
    var nextId: Oid

    ghost predicate Valid()
      reads this
    {
      FileIdsFresh(docs, nextId)
    }

    constructor ()
      ensures Valid() && docs == [] && nextId == 0
    {
      docs := [];
      nextId := 0;
    }

    /** `insertOne(doc)`: append the document under a fresh id and return that id. */
    method InsertOne(doc: FileDoc) returns (id: Oid)
      requires Valid()
      modifies this
      ensures Valid()
      ensures id == old(nextId) && nextId == id + 1
      ensures docs == old(docs) + [doc.(id := id)]
    {
      id := nextId;
      docs := docs + [doc.(id := id)];
      nextId := nextId + 1;
    }

    /** `updateOne({ _id: id }, { $set: { isPublic: value } })`. */
    method SetPublic(id: Oid, value: bool)
      requires Valid()
      modifies this
      ensures Valid() && nextId == old(nextId)
      ensures docs == UpdateFirst(old(docs), id, value)
    {
      var found := FindFile(docs, ById(id));
      if found.Some? {
        var i := found.value;
        docs := docs[i := docs[i].(isPublic := value)];
      }
    }
  }

  /** The collection after `updateOne({ _id: id }, { $set: { isPublic: value } })`. */
  function UpdateFirst(docs: seq<FileDoc>, id: Oid, value: bool): (r: seq<FileDoc>)
    ensures |r| == |docs|
    ensures forall j :: 0 <= j < |docs| && docs[j].id != id ==> r[j] == docs[j]
    ensures (forall j :: 0 <= j < |docs| ==> docs[j].id != id) ==> r == docs
    ensures FindFile(docs, ById(id)).Some? ==>
      && var i := FindFile(docs, ById(id)).value;
      && r[i] == docs[i].(isPublic := value)
      && forall j :: 0 <= j < |docs| && j != i ==> r[j] == docs[j]
  {
    match FindFile(docs, ById(id))
    case None => docs
    case Some(i) => docs[i := docs[i].(isPublic := value)]
  }

  /** The `users` collection, with the same id counter. */
  class UsersCollection {
    var users: seq<UserDoc>
    var nextId: Oid

    ghost predicate Valid()
      reads this
    {
      UserIdsFresh(users, nextId)
    }

    constructor ()
      ensures Valid() && users == [] && nextId == 0
    {
      users := [];
      nextId := 0;
    }

    /** `insertOne({ email, password })`. */
    method InsertOne(email: string, password: string) returns (id: Oid)
      requires Valid()
      modifies this
      ensures Valid()
      ensures id == old(nextId) && nextId == id + 1
      ensures users == old(users) + [UserDoc(id, email, password)]
    {
      id := nextId;
      users := users + [UserDoc(id, email, password)];
      nextId := nextId + 1;
    }
  }

  /** The local file system, path to content. Directories are not modelled. */
  class Disk {
    var files: map<string, Bytes>

    constructor ()
      ensures files == map[]
    {
      files := map[];
    }

    /** `fs.writeFile(path, content)`: create or overwrite one file. */
    method WriteFile(path: string, content: Bytes)
      modifies this
      ensures files == old(files)[path := content]
    {
      files := files[path := content];
    }
  }
}
