/** The remote services the utility talks to, as one in-memory store: the
    people, biometry and files collections, the profile-album links, the
    photo albums and their photos, the file storage behind download URLs, the
    endpoint registry, and the stations client that derives and compares
    face templates. Everything here stands for code outside the utility; its
    only job is to give the utility's calls a state to act on. */
module Remote {
  import opened Wrappers
  import opened Strings

  type Id = string
  type Bytes = seq<bv8>

  /** The field names of the records exchanged with the services
      (`utility/const.py`): `last_name`, `first_name`, `patronymic`,
      `owner_id`, `biometry_type_id`, `object_id`, `download_url`,
      `template_file_kind`, `id_photo_type`, `hashType`, `quality`,
      `faceQuality`. The nested `attributes` and `properties` dictionaries
      are the `attributes` part of a record. */
  datatype Field =
    | LastName | FirstName | Patronymic
    | OwnerId | BiometryTypeId
    | ObjectId | DownloadUrl
    | TemplateFileKind | IdPhotoType | HashType | Quality | FaceQuality

  /** A record of a collection: its identifier (`person_id`, `biometry_id`,
      a file's id), its top-level fields and its nested attributes. */
  datatype Row = Row(id: Id, fields: map<Field, string>, attributes: map<Field, string>)

  /** A `{field: {'values': [...]}}` filter; `attributes` is the nested
      `{'attributes': {field: {'values': [...]}}}` part. */
  datatype Filter = Filter(fields: map<Field, seq<string>>, attributes: map<Field, seq<string>>)

  /** The arguments of `get_list_by_filter(filter, order, limit, offset)`. */
  datatype Query = Query(filter: Filter, order: seq<string>, limit: nat, offset: nat)

  /** What the stations client derives from an image (`get_template_by_image`). */
  datatype Template = Template(faceQuality: string, hash: string, quality: string, hashType: string)

  /** The reply of `check_biorecord_photos`: the indices of the photos that
      are of bad quality, do not match, or duplicate another. */
  datatype CheckResult = CheckResult(badImages: seq<int>, mismatchImages: seq<int>, duplicateImages: seq<int>)

  datatype Album = Album(id: Id, name: string)

  datatype Photo = Photo(albumId: Id, fileName: string, content: Bytes, fileId: Id)

  /** How the profile-album service answers an `assign`. */
  datatype AssignReply = Assigned | AlreadyExists

  /** The collections reached through `get_list_by_filter` and `add`. */
  datatype Collection = PeopleCollection | BiometryCollection | FilesCollection

  /** The kinds of remote call the utility makes. A kind in `down` fails
      every time, so each call of the utility can fail on its own. */
  datatype Call =
    | ListCall(collection: Collection) | AddCall(collection: Collection)
    | ProfileGetCall | AssignCall | AlbumAddCall | PhotoListCall
    | BiometryUploadCall | PhotoUploadCall | DownloadCall | DeriveCall | CheckCall

  /** A JSON reply of an upload: field name to value. */
  type Reply = map<string, string>

  /** The `*_upload_properties` of an uploaded file: `biometry_id` and the
      nested `attributes`. */
  datatype Properties = Properties(biometryId: Id, attributes: map<Field, string>)

  /** The form of the combined template and image upload. */
  datatype BiometryForm = BiometryForm(
    templateName: string, template: Template, templateProperties: Properties,
    imageName: string, image: Bytes, imageProperties: Properties)

  /** The names `get_url` resolves (`utility/const.py`). */
  const BiometryEndpoint := "m7:biometry"
  const StationsEndpoint := "id:id-stations-client:stations-client"
  const ProfileAlbumEndpoint := "m7:profile-album"
  const PhotoAlbumEndpoint := "m7:photo-album"
  const PhotoAlbumUploadEndpoint := "m7:photo-album:upload"

  predicate Matches(f: Filter, r: Row) {
    && (forall k | k in f.fields :: k in r.fields && r.fields[k] in f.fields[k])
    && (forall k | k in f.attributes :: k in r.attributes && r.attributes[k] in f.attributes[k])
  }

  /** The rows that match, in collection order. */
  function Filtered(rows: seq<Row>, f: Filter): (r: seq<Row>)
    ensures |r| <= |rows|
    decreases |rows|
  {
    if rows == [] then []
    else (if Matches(f, rows[0]) then [rows[0]] else []) + Filtered(rows[1..], f)
  }

  /** Exactly the matching rows are kept. */
  lemma {:induction false} FilteredMembers(rows: seq<Row>, f: Filter, x: Row)
    ensures x in Filtered(rows, f) <==> x in rows && Matches(f, x)
    decreases |rows|
  {
    if rows != [] {
      FilteredMembers(rows[1..], f, x);
      assert rows == [rows[0]] + rows[1..];
    }
  }

  lemma {:induction false} FilteredAppend(rows: seq<Row>, x: Row, f: Filter)
    ensures Filtered(rows + [x], f) == Filtered(rows, f) + (if Matches(f, x) then [x] else [])
    decreases |rows|
  {
    var t := rows + [x];
    var tail := if Matches(f, x) then [x] else [];
    if rows == [] {
      assert t == [x] && t[1..] == [];
    } else {
      assert t[0] == rows[0] && t[1..] == rows[1..] + [x];
      FilteredAppend(rows[1..], x, f);
      var head := if Matches(f, rows[0]) then [rows[0]] else [];
      assert Filtered(t, f) == head + (Filtered(rows[1..], f) + tail);
      assert Filtered(rows, f) == head + Filtered(rows[1..], f);
    }
  }

  /** `offset` then `limit` applied to a result list. */
  function Page<T>(s: seq<T>, offset: nat, limit: nat): (r: seq<T>)
    ensures |r| <= limit
    ensures offset <= |s| ==> r == s[offset..][..if limit <= |s| - offset then limit else |s| - offset]
  {
    var rest := if offset <= |s| then s[offset..] else [];
    if limit <= |rest| then rest[..limit] else rest
  }

  /** A first page of a positive size is empty only for an empty list. */
  lemma FirstPageEmpty<T>(s: seq<T>, limit: nat)
    requires limit > 0
    ensures Page(s, 0, limit) == [] <==> s == []
  {
    if s != [] {
      assert Page(s, 0, limit)[0] == s[0];
    }
  }

  /** What a collection answers to a query. */
  function Select(rows: seq<Row>, q: Query): seq<Row> {
    Page(Filtered(rows, q.filter), q.offset, q.limit)
  }

  /** The photos of the albums a filter names, in upload order. */
  function PhotosIn(photos: seq<Photo>, albumIds: seq<Id>): (r: seq<Photo>)
    ensures forall p | p in r :: p in photos && p.albumId in albumIds
    decreases |photos|
  {
    if photos == [] then []
    else (if photos[0].albumId in albumIds then [photos[0]] else []) + PhotosIn(photos[1..], albumIds)
  }

  /** The `n`-th identifier the store hands out: non-empty, so truthy, and
      without `/`, so it can be the last segment of a URL. */
  function MintId(n: nat): (id: Id)
    ensures |id| == n + 1 && '/' !in id
  {
    seq(n + 1, _ => '#')
  }

  /** The album an upload URL `base/album_id` addresses. */
  function AlbumOfUploadUrl(base: string, url: string): Option<Id> {
    if |url| > |base| && url[..|base| + 1] == base + "/" then Some(url[|base| + 1..]) else None
  }

  /** Everything the services hold. */
  datatype StoreState = StoreState(
    people: seq<Row>,
    owners: seq<Row>,
    files: seq<Row>,
    blobs: map<string, Bytes>,
    profileAlbums: map<Id, Id>,
    albums: seq<Album>,
    photos: seq<Photo>,
    nextId: nat)

  function TableOf(s: StoreState, c: Collection): seq<Row> {
    match c
    case PeopleCollection => s.people
    case BiometryCollection => s.owners
    case FilesCollection => s.files
  }

  /** `s` with `row` appended to collection `c`. */
  function WithRow(s: StoreState, c: Collection, row: Row): (t: StoreState)
    ensures TableOf(t, c) == TableOf(s, c) + [row]
    ensures forall d | d != c :: TableOf(t, d) == TableOf(s, d)
  {
    match c
    case PeopleCollection => s.(people := s.people + [row])
    case BiometryCollection => s.(owners := s.owners + [row])
    case FilesCollection => s.(files := s.files + [row])
  }

  /** The state after `add` on collection `c`: the record is appended under
      the next identifier. */
  function Created(s: StoreState, c: Collection, fields: map<Field, string>, attributes: map<Field, string>): StoreState {
    WithRow(s, c, Row(MintId(s.nextId), fields, attributes)).(nextId := s.nextId + 1)
  }

  /** The two file records an upload creates: the template, then the image
      with its download URL; both are filed under the biometry (`object_id`). */
  function UploadRows(form: BiometryForm, n: nat): seq<Row> {
    [ Row(MintId(n), map[ObjectId := form.templateProperties.biometryId], form.templateProperties.attributes),
      Row(MintId(n + 1), map[ObjectId := form.imageProperties.biometryId, DownloadUrl := MintId(n + 1)],
          form.imageProperties.attributes) ]
  }

  class RemoteStore {
    var people: seq<Row>
    var owners: seq<Row>
    var files: seq<Row>
    /** The file storage: download URL to content. */
    var blobs: map<string, Bytes>
    /** The profile-album links: person id to album id. */
    var profileAlbums: map<Id, Id>
    var albums: seq<Album>
    var photos: seq<Photo>
    var nextId: nat
    const down: set<Call>
    /** The endpoint registry behind `get_url`. */
    const urlOf: string -> string
    /** The stations client's template derivation and photo check. */
    const derive: (string, Bytes) -> Template
    const check: (string, seq<Template>) -> CheckResult

    function Contents(): StoreState
      reads this
    {
      StoreState(people, owners, files, blobs, profileAlbums, albums, photos, nextId)
    }

    function Table(c: Collection): seq<Row>
      reads this
    {
      TableOf(Contents(), c)
    }

    /** `get_list_by_filter` on a collection. */
    method List(c: Collection, q: Query) returns (r: Result<seq<Row>, Call>)
      ensures r == if ListCall(c) in down then Err(ListCall(c)) else Ok(Select(Table(c), q))
    {
      if ListCall(c) in down {
        return Err(ListCall(c));
      }
      return Ok(Select(Table(c), q));
    }

    /** `add` on a collection: appends a record with a new identifier. */
    method Add(c: Collection, fields: map<Field, string>, attributes: map<Field, string>) returns (r: Result<Id, Call>)
      modifies this
      ensures AddCall(c) in down ==> r == Err(AddCall(c)) && Contents() == old(Contents())
      ensures AddCall(c) !in down ==>
        && r == Ok(MintId(old(nextId)))
        && Contents() == Created(old(Contents()), c, fields, attributes)
    {
      if AddCall(c) in down {
        return Err(AddCall(c));
      }
      var row := Row(MintId(nextId), fields, attributes);
      match c {
        case PeopleCollection => people := people + [row];
        case BiometryCollection => owners := owners + [row];
        case FilesCollection => files := files + [row];
      }
      r := Ok(MintId(nextId));
      nextId := nextId + 1;
    }

    /** The profile-album service's `get(person_ids)`: the album of each
        listed person that has one. */
    method ProfileGet(personIds: seq<Id>) returns (r: Result<map<Id, Id>, Call>)
      ensures r == if ProfileGetCall in down then Err(ProfileGetCall)
        else Ok(map p | p in personIds && p in profileAlbums :: profileAlbums[p])
    {
      if ProfileGetCall in down {
        return Err(ProfileGetCall);
      }
      return Ok(map p | p in personIds && p in profileAlbums :: profileAlbums[p]);
    }

    /** The profile-album service's `assign`: links a person to an album,
        answering `AlreadyExists` when that link is already there. */
    method Assign(personId: Id, albumId: Id) returns (r: Result<AssignReply, Call>)
      modifies this
      ensures AssignCall in down ==> r == Err(AssignCall) && Contents() == old(Contents())
      ensures AssignCall !in down && old(personId in profileAlbums && profileAlbums[personId] == albumId) ==>
        r == Ok(AlreadyExists) && Contents() == old(Contents())
      ensures AssignCall !in down && !old(personId in profileAlbums && profileAlbums[personId] == albumId) ==>
        r == Ok(Assigned) && Contents() == old(Contents()).(profileAlbums := old(profileAlbums)[personId := albumId])
    {
      if AssignCall in down {
        return Err(AssignCall);
      }
      if personId in profileAlbums && profileAlbums[personId] == albumId {
        return Ok(AlreadyExists);
      }
      profileAlbums := profileAlbums[personId := albumId];
      return Ok(Assigned);
    }

    /** The photo-album service's `add`: a new album named `name`. */
    method AddAlbum(name: string) returns (r: Result<Id, Call>)
      modifies this
      ensures AlbumAddCall in down ==> r == Err(AlbumAddCall) && Contents() == old(Contents())
      ensures AlbumAddCall !in down ==>
        && r == Ok(MintId(old(nextId)))
        && Contents() == old(Contents()).(albums := old(albums) + [Album(MintId(old(nextId)), name)], nextId := old(nextId) + 1)
    {
      if AlbumAddCall in down {
        return Err(AlbumAddCall);
      }
      r := Ok(MintId(nextId));
      albums := albums + [Album(MintId(nextId), name)];
      nextId := nextId + 1;
    }

    /** The photo-album service's `get_photo_list_by_filter`. */
    method PhotoList(albumIds: seq<Id>, order: seq<string>, limit: nat, offset: nat) returns (r: Result<seq<Photo>, Call>)
      ensures r == if PhotoListCall in down then Err(PhotoListCall)
        else Ok(Page(PhotosIn(photos, albumIds), offset, limit))
    {
      if PhotoListCall in down {
        return Err(PhotoListCall);
      }
      return Ok(Page(PhotosIn(photos, albumIds), offset, limit));
    }

    /** The biometry upload endpoint: stores the template and the image as
        two file records of the biometry and answers with the new
        template's id. */
    method UploadBiometry(form: BiometryForm) returns (r: Result<Reply, Call>)
      modifies this
      ensures BiometryUploadCall in down ==> r == Err(BiometryUploadCall) && Contents() == old(Contents())
      ensures BiometryUploadCall !in down ==>
        && r == Ok(map["template_id" := MintId(old(nextId))])
        && Contents() == old(Contents()).(
             files := old(files) + UploadRows(form, old(nextId)),
             blobs := old(blobs)[MintId(old(nextId) + 1) := form.image],
             nextId := old(nextId) + 2)
    {
      if BiometryUploadCall in down {
        return Err(BiometryUploadCall);
      }
      files := files + UploadRows(form, nextId);
      blobs := blobs[MintId(nextId + 1) := form.image];
      r := Ok(map["template_id" := MintId(nextId)]);
      nextId := nextId + 2;
    }

    /** The photo-album upload endpoint: `POST base/album_id` adds the photo
        to that album and answers with the new file's id. */
    method UploadPhoto(url: string, fileName: string, content: Bytes) returns (r: Result<Reply, Call>)
      modifies this
      ensures var album := AlbumOfUploadUrl(urlOf(PhotoAlbumUploadEndpoint), url);
        PhotoUploadCall in down || album.None? ==> r == Err(PhotoUploadCall) && Contents() == old(Contents())
      ensures var album := AlbumOfUploadUrl(urlOf(PhotoAlbumUploadEndpoint), url);
        PhotoUploadCall !in down && album.Some? ==>
        && r == Ok(map["file_id" := MintId(old(nextId))])
        && Contents() == old(Contents()).(
             photos := old(photos) + [Photo(album.value, fileName, content, MintId(old(nextId)))],
             nextId := old(nextId) + 1)
    {
      var album := AlbumOfUploadUrl(urlOf(PhotoAlbumUploadEndpoint), url);
      if PhotoUploadCall in down || album.None? {
        return Err(PhotoUploadCall);
      }
      photos := photos + [Photo(album.value, fileName, content, MintId(nextId))];
      r := Ok(map["file_id" := MintId(nextId)]);
      nextId := nextId + 1;
    }
    /** A GET of a download URL. */
    method Download(url: string) returns (r: Result<Bytes, Call>)
      ensures r == if DownloadCall in down || url !in blobs then Err(DownloadCall) else Ok(blobs[url])
    {
      if DownloadCall in down || url !in blobs {
        return Err(DownloadCall);
      }
      return Ok(blobs[url]);
    }

    /** The stations client's `get_template_by_image`. */
    method DeriveTemplate(sdkType: string, image: Bytes) returns (r: Result<Template, Call>)
      ensures r == if DeriveCall in down then Err(DeriveCall) else Ok(derive(sdkType, image))
    {
      if DeriveCall in down {
        return Err(DeriveCall);
      }
      return Ok(derive(sdkType, image));
    }

    /** The stations client's `check_biorecord_photos`. */
    method CheckPhotos(sdkType: string, photos: seq<Template>) returns (r: Result<CheckResult, Call>)
      ensures r == if CheckCall in down then Err(CheckCall) else Ok(check(sdkType, photos))
    {
      if CheckCall in down {
        return Err(CheckCall);
      }
      return Ok(check(sdkType, photos));
    }
  }
}
