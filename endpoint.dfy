/** `EndpointServices`: the utility's wrapper around the remote services. It
    builds the queries, decides what counts as a failure, translates the
    services' errors into the utility's, checks the ids in upload replies
    and decides whether the photo check rejects a candidate. */
module Endpoint {
  import opened Wrappers
  import opened Strings
  import opened Remote

  /** The quality gates of `check_biorecord_photos`, in the order checked. */
  datatype Gate = BadQuality | Mismatch | Duplicate

  /** The errors the utility raises or lets through. */
  datatype Error =
      /** `UtilityError('Cant get list elements from url: ...')` */
    | ListFailed(url: string)
      /** `UtilityError('Cant add_data_m7_people: ...')` */
    | AddPersonFailed
      /** A failed remote call, logged and re-raised unchanged. */
    | CallFailed(call: Call)
      /** `UtilityError('IdBioxidBadQualityOfImage')`, `...MismatchImage`,
          `...DuplicateImage`. */
    | Rejected(gate: Gate)
      /** `UtilityError('Error upload m7_biometry ...')` or
          `UtilityError('Error upload m7_photo_album ...')`: the reply lacks a
          truthy `key`. */
    | MissingResponseId(key: string)
      /** The `KeyError` of the SDK lookup. */
    | UnknownBiometryType(biometryTypeId: string)
      /** `UtilityError('Error _get_file_image_bytes: ...')` */
    | FileUnreadable(path: string)
      /** The `IndexError` of `str.format` with too few arguments. */
    | BadUrlTemplate
      /** A files record without a `download_url`: `get_file_bytes(None)` fails. */
    | MissingDownloadUrl
      /** A group read before the stage that sets its `person_id`,
          `album_id` or `biometry_id`. */
    | MissingId

  /** `check_config`: which gates are enabled. */
  datatype CheckConfig = CheckConfig(badImages: bool, mismatchImages: bool, duplicateImages: bool)

  const NoFilter := Filter(map[], map[])

  /** The query `get_list_by_filter_from_url` sends: a missing filter
      becomes the empty one; no order, at most 100 rows, from the first. */
  function ListQuery(filter: Option<Filter>): (q: Query)
    ensures q.order == [] && q.limit == 100 && q.offset == 0
    ensures filter.Some? ==> q.filter == filter.value
    ensures filter.None? ==> q.filter == NoFilter
  {
    Query(if filter.Some? then filter.value else NoFilter, [], 100, 0)
  }

  /** The empty filter matches every row. */
  lemma NoFilterMatchesAll(rows: seq<Row>)
    ensures Filtered(rows, NoFilter) == rows
    decreases |rows|
  {
    if rows != [] {
      NoFilterMatchesAll(rows[1..]);
      assert rows == [rows[0]] + rows[1..];
    }
  }

  /** A list query answers with the first 100 matching rows, or all of them
      when there are fewer; without a filter, with the first 100 rows. */
  lemma ListQueryAnswer(rows: seq<Row>, filter: Option<Filter>)
    ensures var m := Filtered(rows, ListQuery(filter).filter);
      Select(rows, ListQuery(filter)) == if |m| <= 100 then m else m[..100]
    ensures filter.None? ==> Select(rows, ListQuery(filter)) == if |rows| <= 100 then rows else rows[..100]
  {
    NoFilterMatchesAll(rows);
  }

  /** A list query finds something exactly when some row matches the filter. */
  lemma ListQueryNonEmpty(rows: seq<Row>, f: Filter)
    ensures Select(rows, ListQuery(Some(f))) != [] <==> exists x | x in rows :: Matches(f, x)
  {
    FilteredNonEmpty(rows, f);
  }

  lemma {:induction false} FilteredNonEmpty(rows: seq<Row>, f: Filter)
    ensures Filtered(rows, f) != [] <==> exists x | x in rows :: Matches(f, x)
    decreases |rows|
  {
    if rows != [] {
      FilteredNonEmpty(rows[1..], f);
      if Matches(f, rows[0]) {
        assert rows[0] in rows;
      } else {
        forall x | x in rows && Matches(f, x) ensures x in rows[1..] {
          var i :| 0 <= i < |rows| && rows[i] == x;
          assert i != 0;
          assert rows[1..][i - 1] == x;
        }
      }
    }
  }

  /** The gates that are enabled and flag the candidate, index 0, in test order. */
  function Triggered(cfg: CheckConfig, res: CheckResult): seq<Gate> {
    (if cfg.badImages && 0 in res.badImages then [BadQuality] else [])
      + (if cfg.mismatchImages && 0 in res.mismatchImages then [Mismatch] else [])
      + (if cfg.duplicateImages && 0 in res.duplicateImages then [Duplicate] else [])
  }

  /** The decision of `check_biorecord_photos` on the service's reply. */
  function GateVerdict(cfg: CheckConfig, res: CheckResult): (r: Outcome<Error>)
    ensures r.Fail? ==> r.error.Rejected?
  {
    if cfg.badImages && 0 in res.badImages then Fail(Rejected(BadQuality))
    else if cfg.mismatchImages && 0 in res.mismatchImages then Fail(Rejected(Mismatch))
    else if cfg.duplicateImages && 0 in res.duplicateImages then Fail(Rejected(Duplicate))
    else Pass
  }

  /** The check rejects exactly when some enabled gate's list holds the
      candidate's index 0. */
  lemma GateRejectsIff(cfg: CheckConfig, res: CheckResult)
    ensures GateVerdict(cfg, res).Fail? <==>
      || (cfg.badImages && 0 in res.badImages)
      || (cfg.mismatchImages && 0 in res.mismatchImages)
      || (cfg.duplicateImages && 0 in res.duplicateImages)
  {
  }

  /** The first triggered gate, in the order bad quality, mismatch,
      duplicate, names the error. */
  lemma GateFirstDecides(cfg: CheckConfig, res: CheckResult)
    ensures GateVerdict(cfg, res) == if Triggered(cfg, res) == [] then Pass else Fail(Rejected(Triggered(cfg, res)[0]))
  {
  }

  /** With every gate disabled the check never rejects. */
  lemma GatesOffNeverReject(res: CheckResult)
    ensures GateVerdict(CheckConfig(false, false, false), res) == Pass
  {
  }

  /** A candidate that no list flags passes, whatever the toggles. */
  lemma UnflaggedPasses(cfg: CheckConfig, res: CheckResult)
    requires 0 !in res.badImages && 0 !in res.mismatchImages && 0 !in res.duplicateImages
    ensures GateVerdict(cfg, res) == Pass
  {
  }

  /** The id an upload reply must carry under `key`: present and truthy
      (a non-empty string), otherwise an error. */
  function ResponseId(reply: Reply, key: string): (r: Result<Id, Error>)
    ensures r.Ok? <==> key in reply && reply[key] != ""
    ensures r.Ok? ==> r.value == reply[key]
    ensures r.Err? ==> r.error == MissingResponseId(key)
  {
    if key in reply && reply[key] != "" then Ok(reply[key]) else Err(MissingResponseId(key))
  }

  /** The URL `upload_m7_photo_album` posts to: `base/album_id`. */
  function UploadPhotoUrl(base: string, albumId: Id): string {
    base + "/" + albumId
  }

  /** The upload URL addresses exactly the album it was built for. */
  lemma UploadPhotoUrlAddressesAlbum(base: string, albumId: Id)
    ensures AlbumOfUploadUrl(base, UploadPhotoUrl(base, albumId)) == Some(albumId)
  {
    var url := UploadPhotoUrl(base, albumId);
    assert url[..|base| + 1] == base + "/";
    assert url[|base| + 1..] == albumId;
  }

  /** When the album id has no `/`, it is the last path segment of the URL. */
  lemma UploadPhotoUrlLastSegment(base: string, albumId: Id)
    requires '/' !in albumId
    ensures var segs := Split(UploadPhotoUrl(base, albumId), '/'); segs[|segs| - 1] == albumId
  {
    SplitNoSep(albumId, '/');
    SplitConcat(base, albumId, '/');
    assert UploadPhotoUrl(base, albumId) == base + ['/'] + albumId;
  }

  /** A photo list query for one album is empty exactly when that album has
      no photos. */
  lemma PhotoListEmptyIff(photos: seq<Photo>, albumId: Id)
    ensures Page(PhotosIn(photos, [albumId]), 0, 100) == [] <==> forall p | p in photos :: p.albumId != albumId
  {
    PhotosInEmpty(photos, albumId);
  }

  lemma {:induction false} PhotosInEmpty(photos: seq<Photo>, albumId: Id)
    ensures PhotosIn(photos, [albumId]) == [] <==> forall p | p in photos :: p.albumId != albumId
    decreases |photos|
  {
    if photos != [] {
      PhotosInEmpty(photos[1..], albumId);
      assert photos[0] in photos;
      forall p | p in photos && p != photos[0] ensures p in photos[1..] {
        var i :| 0 <= i < |photos| && photos[i] == p;
        assert photos[1..][i - 1] == p;
      }
    }
  }

  /** What a call that changes the services answers, and the services'
      state after it. */
  datatype Step<R> = Step(reply: R, after: StoreState)

  /** `add_data_m7_people`: a new person record; a failure is wrapped. */
  function AddPersonStep(s: StoreState, down: set<Call>, person: map<Field, string>): Step<Result<Id, Error>> {
    if AddCall(PeopleCollection) in down then Step(Err(AddPersonFailed), s)
    else Step(Ok(MintId(s.nextId)), Created(s, PeopleCollection, person, map[]))
  }

  /** `add_data_m7_biometry`: a new biometry-owner record; a failure passes through. */
  function AddOwnerStep(s: StoreState, down: set<Call>, owner: map<Field, string>, properties: map<Field, string>): Step<Result<Id, Error>> {
    if AddCall(BiometryCollection) in down then Step(Err(CallFailed(AddCall(BiometryCollection))), s)
    else Step(Ok(MintId(s.nextId)), Created(s, BiometryCollection, owner, properties))
  }

  /** The profile-album service knows a truthy album for the person. */
  predicate HasAlbum(links: map<Id, Id>, personId: Id) {
    personId in links && links[personId] != ""
  }

  /** `get_album_id_by_person_id`: the person's album when the profile-album
      service knows a truthy one (an empty or missing one counts as
      `NotFound`), otherwise a new album named `name`. */
  function AlbumStep(s: StoreState, down: set<Call>, personId: Id, name: string): Step<Result<Id, Error>> {
    if ProfileGetCall in down then Step(Err(CallFailed(ProfileGetCall)), s)
    else if HasAlbum(s.profileAlbums, personId) then Step(Ok(s.profileAlbums[personId]), s)
    else if AlbumAddCall in down then Step(Err(CallFailed(AlbumAddCall)), s)
    else Step(Ok(MintId(s.nextId)), s.(albums := s.albums + [Album(MintId(s.nextId), name)], nextId := s.nextId + 1))
  }

  /** `assign_person_id_to_album_id`: links the person to the album, an
      `AlreadyExists` answer counting as success. */
  function AssignStep(s: StoreState, down: set<Call>, personId: Id, albumId: Id): Step<Outcome<Error>> {
    if AssignCall in down then Step(Fail(CallFailed(AssignCall)), s)
    else Step(Pass, s.(profileAlbums := s.profileAlbums[personId := albumId]))
  }

  /** `upload_m7_biometry`: the combined template and image upload, answered
      with the new template's id. */
  function UploadBiometryStep(s: StoreState, down: set<Call>, form: BiometryForm): Step<Result<Id, Error>> {
    if BiometryUploadCall in down then Step(Err(CallFailed(BiometryUploadCall)), s)
    else Step(Ok(MintId(s.nextId)), s.(
      files := s.files + UploadRows(form, s.nextId),
      blobs := s.blobs[MintId(s.nextId + 1) := form.image],
      nextId := s.nextId + 2))
  }

  /** `upload_m7_photo_album`: the photo lands in album `albumId` and the
      reply's `file_id` is returned. */
  function UploadPhotoStep(s: StoreState, down: set<Call>, albumId: Id, fileName: string, image: Bytes): Step<Result<Id, Error>> {
    if PhotoUploadCall in down then Step(Err(CallFailed(PhotoUploadCall)), s)
    else Step(Ok(MintId(s.nextId)), s.(photos := s.photos + [Photo(albumId, fileName, image, MintId(s.nextId))], nextId := s.nextId + 1))
  }

  /** Get-or-create: a truthy known album is returned and nothing is
      created; otherwise, when the lookup and the creation succeed, exactly
      one album named `name` is added and its id returned; a failure
      changes nothing. */
  lemma AlbumGetOrCreate(s: StoreState, down: set<Call>, personId: Id, name: string)
    ensures var st := AlbumStep(s, down, personId, name);
      && (st.reply.Ok? <==> ProfileGetCall !in down && (HasAlbum(s.profileAlbums, personId) || AlbumAddCall !in down))
      && (st.reply.Ok? && HasAlbum(s.profileAlbums, personId) ==> st.reply.value == s.profileAlbums[personId] && st.after == s)
      && (st.reply.Ok? && !HasAlbum(s.profileAlbums, personId) ==>
            && st.after.albums == s.albums + [Album(st.reply.value, name)]
            && st.after == s.(albums := st.after.albums, nextId := s.nextId + 1))
      && (st.reply.Err? ==> st.after == s)
      && (st.reply.Ok? ==> st.reply.value != "")
  {
  }

  /** Assigning links the person to the album and touches no other link;
      assigning the same pair again succeeds and changes nothing. */
  lemma AssignIdempotent(s: StoreState, down: set<Call>, personId: Id, albumId: Id)
    requires AssignCall !in down
    ensures var st := AssignStep(s, down, personId, albumId);
      && st.reply == Pass
      && st.after.profileAlbums.Keys == s.profileAlbums.Keys + {personId}
      && st.after.profileAlbums[personId] == albumId
      && (forall p | p in s.profileAlbums && p != personId :: st.after.profileAlbums[p] == s.profileAlbums[p])
      && AssignStep(st.after, down, personId, albumId) == st
  {
  }

  /** A biometry upload files the template under the returned id and the
      image under a download URL that serves exactly the uploaded image. */
  lemma UploadBiometryRecords(s: StoreState, down: set<Call>, form: BiometryForm)
    requires BiometryUploadCall !in down
    ensures var st := UploadBiometryStep(s, down, form);
      && st.reply.Ok?
      && |st.after.files| == |s.files| + 2
      && st.after.files[..|s.files|] == s.files
      && st.after.files[|s.files|].id == st.reply.value
      && st.after.files[|s.files|].attributes == form.templateProperties.attributes
      && st.after.files[|s.files| + 1].attributes == form.imageProperties.attributes
      && DownloadUrl in st.after.files[|s.files| + 1].fields
      && st.after.blobs[st.after.files[|s.files| + 1].fields[DownloadUrl]] == form.image
  {
  }

  /** The uploaded photo is added to the album it names and to no other. */
  lemma UploadPhotoLandsInAlbum(s: StoreState, down: set<Call>, albumId: Id, fileName: string, image: Bytes, other: Id)
    requires PhotoUploadCall !in down
    ensures var st := UploadPhotoStep(s, down, albumId, fileName, image);
      && st.reply.Ok?
      && PhotosIn(st.after.photos, [albumId]) == PhotosIn(s.photos, [albumId]) + [Photo(albumId, fileName, image, st.reply.value)]
      && (other != albumId ==> PhotosIn(st.after.photos, [other]) == PhotosIn(s.photos, [other]))
  {
    var p := Photo(albumId, fileName, image, MintId(s.nextId));
    PhotosInAppend(s.photos, p, [albumId]);
    PhotosInAppend(s.photos, p, [other]);
  }

  lemma {:induction false} PhotosInAppend(photos: seq<Photo>, p: Photo, albumIds: seq<Id>)
    ensures PhotosIn(photos + [p], albumIds) == PhotosIn(photos, albumIds) + (if p.albumId in albumIds then [p] else [])
    decreases |photos|
  {
    var t := photos + [p];
    var tail := if p.albumId in albumIds then [p] else [];
    if photos == [] {
      assert t == [p] && t[1..] == [];
    } else {
      assert t[0] == photos[0] && t[1..] == photos[1..] + [p];
      PhotosInAppend(photos[1..], p, albumIds);
      var head := if photos[0].albumId in albumIds then [photos[0]] else [];
      assert PhotosIn(t, albumIds) == head + (PhotosIn(photos[1..], albumIds) + tail);
      assert PhotosIn(photos, albumIds) == head + PhotosIn(photos[1..], albumIds);
    }
  }

  class EndpointServices {
    const remote: RemoteStore

    constructor(remote: RemoteStore)
      ensures this.remote == remote
    {
      this.remote := remote;
    }

    /** `get_url`: the endpoint registry, taken as total. */
    function GetUrl(name: string): string {
      remote.urlOf(name)
    }

    /** `get_list_by_filter_from_url`: the fixed query shape, with any
        failure wrapped as a `UtilityError` naming the URL. */
    method GetListByFilterFromUrl(c: Collection, url: string, filter: Option<Filter>) returns (r: Result<seq<Row>, Error>)
      ensures r == if ListCall(c) in remote.down then Err(ListFailed(url))
        else Ok(Select(remote.Table(c), ListQuery(filter)))
    {
      var reply := remote.List(c, ListQuery(filter));
      if reply.Err? {
        return Err(ListFailed(url));
      }
      return Ok(reply.value);
    }

    method AddDataPeople(url: string, person: map<Field, string>) returns (r: Result<Id, Error>)
      modifies remote
      ensures Step(r, remote.Contents()) == AddPersonStep(old(remote.Contents()), remote.down, person)
    {
      var reply := remote.Add(PeopleCollection, person, map[]);
      if reply.Err? {
        return Err(AddPersonFailed);
      }
      return Ok(reply.value);
    }

    method AddDataBiometry(url: string, owner: map<Field, string>, properties: map<Field, string>) returns (r: Result<Id, Error>)
      modifies remote
      ensures Step(r, remote.Contents()) == AddOwnerStep(old(remote.Contents()), remote.down, owner, properties)
    {
      var reply := remote.Add(BiometryCollection, owner, properties);
      if reply.Err? {
        return Err(CallFailed(reply.error));
      }
      return Ok(reply.value);
    }

    /** `get_template_by_image`. */
    method GetTemplateByImage(image: Bytes, sdkType: string) returns (r: Result<Template, Error>)
      ensures r == if DeriveCall in remote.down then Err(CallFailed(DeriveCall)) else Ok(remote.derive(sdkType, image))
    {
      var reply := remote.DeriveTemplate(sdkType, image);
      if reply.Err? {
        return Err(CallFailed(reply.error));
      }
      return Ok(reply.value);
    }

    /** `upload_m7_biometry`: posts the form and returns the reply's
        `template_id`, failing when it is missing or empty. */
    method UploadM7Biometry(url: string, form: BiometryForm) returns (r: Result<Id, Error>)
      modifies remote
      ensures Step(r, remote.Contents()) == UploadBiometryStep(old(remote.Contents()), remote.down, form)
    {
      var reply := remote.UploadBiometry(form);
      if reply.Err? {
        return Err(CallFailed(reply.error));
      }
      r := ResponseId(reply.value, "template_id");
    }

    method GetAlbumIdByPersonId(personId: Id, name: string) returns (r: Result<Id, Error>)
      modifies remote
      ensures Step(r, remote.Contents()) == AlbumStep(old(remote.Contents()), remote.down, personId, name)
    {
      var result := remote.ProfileGet([personId]);
      if result.Err? {
        return Err(CallFailed(result.error));
      }
      if personId in result.value && result.value[personId] != "" {
        return Ok(result.value[personId]);
      }
      var album := remote.AddAlbum(name);
      if album.Err? {
        return Err(CallFailed(album.error));
      }
      return Ok(album.value);
    }

    method AssignPersonIdToAlbumId(personId: Id, albumId: Id) returns (r: Outcome<Error>)
      modifies remote
      ensures Step(r, remote.Contents()) == AssignStep(old(remote.Contents()), remote.down, personId, albumId)
    {
      var reply := remote.Assign(personId, albumId);
      if reply.Err? {
        return Fail(CallFailed(reply.error));
      }
      if reply.value == AlreadyExists {
        assert old(remote.profileAlbums)[personId := albumId] == old(remote.profileAlbums);
      }
      return Pass;
    }

    /** `upload_m7_photo_album`: posts the photo to `base/album_id` and
        returns the reply's `file_id`, failing when it is missing or empty. */
    method UploadM7PhotoAlbum(image: Bytes, albumId: Id, fileName: string) returns (r: Result<Id, Error>)
      modifies remote
      ensures Step(r, remote.Contents()) == UploadPhotoStep(old(remote.Contents()), remote.down, albumId, fileName, image)
    {
      var url := UploadPhotoUrl(GetUrl(PhotoAlbumUploadEndpoint), albumId);
      UploadPhotoUrlAddressesAlbum(GetUrl(PhotoAlbumUploadEndpoint), albumId);
      var reply := remote.UploadPhoto(url, fileName, image);
      if reply.Err? {
        return Err(CallFailed(reply.error));
      }
      r := ResponseId(reply.value, "file_id");
    }

    /** `get_file_bytes`: GET of a download URL. */
    method GetFileBytes(url: string) returns (r: Result<Bytes, Error>)
      ensures r == if DownloadCall in remote.down || url !in remote.blobs then Err(CallFailed(DownloadCall))
        else Ok(remote.blobs[url])
    {
      var reply := remote.Download(url);
      if reply.Err? {
        return Err(CallFailed(reply.error));
      }
      return Ok(reply.value);
    }

    /** `check_biorecord_photos`: asks the stations client and applies the gates. */
    method CheckBiorecordPhotos(templates: seq<Template>, sdkType: string, cfg: CheckConfig) returns (r: Outcome<Error>)
      ensures r == if CheckCall in remote.down then Fail(CallFailed(CheckCall))
        else GateVerdict(cfg, remote.check(sdkType, templates))
    {
      var result := remote.CheckPhotos(sdkType, templates);
      if result.Err? {
        return Fail(CallFailed(result.error));
      }
      var res := result.value;
      if cfg.badImages && 0 in res.badImages {
        return Fail(Rejected(BadQuality));
      }
      if cfg.mismatchImages && 0 in res.mismatchImages {
        return Fail(Rejected(Mismatch));
      }
      if cfg.duplicateImages && 0 in res.duplicateImages {
        return Fail(Rejected(Duplicate));
      }
      return Pass;
    }

    /** `get_photo_list_by_filter`: the photos of exactly this album, at
        most 100, from the first. */
    method GetPhotoListByFilter(albumId: Id) returns (r: Result<seq<Photo>, Error>)
      ensures r == if PhotoListCall in remote.down then Err(CallFailed(PhotoListCall))
        else Ok(Page(PhotosIn(remote.photos, [albumId]), 0, 100))
    {
      var result := remote.PhotoList([albumId], [], 100, 0);
      if result.Err? {
        return Err(CallFailed(result.error));
      }
      return Ok(result.value);
    }
  }
}
