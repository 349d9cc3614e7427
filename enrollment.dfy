/** The enrollment stage of a run, `_create_templates_m7_biometry_service`,
    as functions of the services' state: for every file of every group,
    derive a template from the image, check it against the person's current
    templates, upload template and image together, count the upload, and
    seed the person's album with the photo when the album is empty. A file
    that fails is logged and the stage goes on with the next one. */
module Enrollment {
  import opened Wrappers
  import opened Grouper
  import opened Grouping
  import opened Remote
  import opened Endpoint
  import opened Settings
  import opened UrlFormat
  import opened Reconcile

  /** `BIOMETRY_TYPE_ID_VISION_LABS_LUNA_SDK`. */
  const LunaSdkBiometryTypeId := "95b312bf0be942b19d69fdcb7cdfd6c6"

  /** `_get_sdk_type_by_biometry_type_id`: a one-entry table, so only the
      Luna SDK's biometry type has an SDK, and any other id is a `KeyError`. */
  function SdkTypeFor(biometryTypeId: string): (r: Result<string, Error>)
    ensures r.Ok? <==> biometryTypeId == LunaSdkBiometryTypeId
    ensures r.Ok? ==> r.value == "lunasdk"
    ensures r.Err? ==> r.error == UnknownBiometryType(biometryTypeId)
  {
    if biometryTypeId == LunaSdkBiometryTypeId then Ok("lunasdk") else Err(UnknownBiometryType(biometryTypeId))
  }

  /** `_get_biometry_upload_url`: the configured template formatted with the
      protocol and the root domain. */
  function BiometryUploadUrl(config: Config): Result<string, Error> {
    var url := Format(config.biometryUploadUrl, [config.protocol, config.rootDomain]);
    if url.Some? then Ok(url.value) else Err(BadUrlTemplate)
  }

  /** The URL can be built exactly when the template is well formed and has
      at most two fields; a template of the form `a{}b{}c` gets the protocol
      and the domain in that order. */
  lemma BiometryUploadUrlBuilt(config: Config, a: string, b: string, c: string)
    ensures BiometryUploadUrl(config).Ok? <==> WellFormed(config.biometryUploadUrl) && Fields(config.biometryUploadUrl) <= 2
    ensures NoBraces(a) && NoBraces(b) && NoBraces(c) && config.biometryUploadUrl == a + ("{}" + (b + ("{}" + c))) ==>
      BiometryUploadUrl(config) == Ok(a + (config.protocol + (b + (config.rootDomain + c))))
  {
    FormatSucceedsIff(config.biometryUploadUrl, [config.protocol, config.rootDomain]);
    if NoBraces(a) && NoBraces(b) && NoBraces(c) && config.biometryUploadUrl == a + ("{}" + (b + ("{}" + c))) {
      FormatTwoFields(a, b, c, config.protocol, config.rootDomain);
    }
  }

  /** The files filter of `_get_all_current_templates_by_biometry_id`: the
      biometry's files whose `template_file_kind` attribute is `image`. */
  function ImageFilesFilter(biometryId: Id): Filter {
    Filter(map[ObjectId := [biometryId]], map[TemplateFileKind := ["image"]])
  }

  function ImageFiles(s: StoreState, biometryId: Id): seq<Row> {
    Select(s.files, ListQuery(Some(ImageFilesFilter(biometryId))))
  }

  /** `get_file_bytes` of a file record's `download_url`, then
      `get_template_by_image`. */
  function TemplateOfFile(env: Env, s: StoreState, row: Row, sdkType: string): (r: Result<Template, Error>)
    ensures r.Ok? <==> DownloadUrl in row.fields && DownloadCall !in env.down && row.fields[DownloadUrl] in s.blobs && DeriveCall !in env.down
    ensures r.Ok? ==> r.value == env.derive(sdkType, s.blobs[row.fields[DownloadUrl]])
  {
    if DownloadUrl !in row.fields then Err(MissingDownloadUrl)
    else if DownloadCall in env.down || row.fields[DownloadUrl] !in s.blobs then Err(CallFailed(DownloadCall))
    else if DeriveCall in env.down then Err(CallFailed(DeriveCall))
    else Ok(env.derive(sdkType, s.blobs[row.fields[DownloadUrl]]))
  }

  /** The templates of the image files, in list order; the first file that
      fails ends the computation. */
  function TemplatesOf(env: Env, s: StoreState, rows: seq<Row>, sdkType: string): Result<seq<Template>, Error>
    decreases |rows|
  {
    if rows == [] then Ok([])
    else
      var pre := TemplatesOf(env, s, rows[..|rows| - 1], sdkType);
      if pre.Err? then pre
      else
        var t := TemplateOfFile(env, s, rows[|rows| - 1], sdkType);
        if t.Err? then Err(t.error) else Ok(pre.value + [t.value])
  }

  /** One template per file, in order, each derived from that file's
      stored image; it succeeds exactly when every file's does. */
  lemma {:induction false} TemplatesOfFiles(env: Env, s: StoreState, rows: seq<Row>, sdkType: string)
    ensures var r := TemplatesOf(env, s, rows, sdkType);
      && (r.Ok? <==> forall i | 0 <= i < |rows| :: TemplateOfFile(env, s, rows[i], sdkType).Ok?)
      && (r.Ok? ==> |r.value| == |rows| && forall i | 0 <= i < |rows| :: r.value[i] == TemplateOfFile(env, s, rows[i], sdkType).value)
    decreases |rows|
  {
    if rows != [] {
      var init := rows[..|rows| - 1];
      TemplatesOfFiles(env, s, init, sdkType);
      assert forall i | 0 <= i < |init| :: rows[i] == init[i];
    }
  }

  /** One more file: its template is appended, or the first failure stays. */
  lemma TemplatesOfStep(env: Env, s: StoreState, rows: seq<Row>, sdkType: string, i: nat)
    requires i < |rows|
    ensures var pre, t := TemplatesOf(env, s, rows[..i], sdkType), TemplateOfFile(env, s, rows[i], sdkType);
      TemplatesOf(env, s, rows[..i + 1], sdkType) ==
        if pre.Err? then pre else if t.Err? then Err(t.error) else Ok(pre.value + [t.value])
  {
    assert rows[..i + 1][..i] == rows[..i];
  }

  /** The first file whose template cannot be had decides the result. */
  lemma {:induction false} TemplatesOfAbort(env: Env, s: StoreState, rows: seq<Row>, sdkType: string, i: nat)
    requires i <= |rows|
    requires TemplatesOf(env, s, rows[..i], sdkType).Err?
    ensures TemplatesOf(env, s, rows, sdkType) == TemplatesOf(env, s, rows[..i], sdkType)
    decreases |rows|
  {
    if i < |rows| {
      var init := rows[..|rows| - 1];
      assert init[..i] == rows[..i];
      TemplatesOfAbort(env, s, init, sdkType, i);
    } else {
      assert rows[..i] == rows;
    }
  }

  /** `_get_all_current_templates_by_biometry_id`: no image files means no
      templates; otherwise the template of each image file. */
  function CurrentTemplates(env: Env, s: StoreState, biometryId: Id, sdkType: string): Result<seq<Template>, Error> {
    if ListCall(FilesCollection) in env.down then Err(ListFailed(env.config.filesUrl))
    else if ImageFiles(s, biometryId) == [] then Ok([])
    else TemplatesOf(env, s, ImageFiles(s, biometryId), sdkType)
  }

  /** The attributes of an uploaded template file. */
  function TemplateAttributes(t: Template): map<Field, string> {
    map[TemplateFileKind := "template", IdPhotoType := "user", HashType := t.hashType, Quality := t.quality, FaceQuality := t.faceQuality]
  }

  /** The attributes of an uploaded image file. */
  const ImageAttributes: map<Field, string> := map[TemplateFileKind := "image", IdPhotoType := "user"]

  /** The combined upload: the template and the image, both under the file
      name and both filed under the biometry. */
  function UploadForm(fileName: string, candidate: Template, biometryId: Id, image: Bytes): BiometryForm {
    BiometryForm(fileName, candidate, Properties(biometryId, TemplateAttributes(candidate)),
                 fileName, image, Properties(biometryId, ImageAttributes))
  }

  /** An upload adds exactly one record to the biometry's image files: the
      image, so later files of the person are checked against it; the
      template record is not an image file. */
  lemma UploadAddsImageFile(s: StoreState, down: set<Call>, fileName: string, candidate: Template, biometryId: Id, image: Bytes)
    requires BiometryUploadCall !in down
    ensures var after := UploadBiometryStep(s, down, UploadForm(fileName, candidate, biometryId, image)).after;
      exists row :: Filtered(after.files, ImageFilesFilter(biometryId)) == Filtered(s.files, ImageFilesFilter(biometryId)) + [row]
        && DownloadUrl in row.fields && row.fields[DownloadUrl] in after.blobs
        && after.blobs[row.fields[DownloadUrl]] == image
  {
    var form := UploadForm(fileName, candidate, biometryId, image);
    var rows := UploadRows(form, s.nextId);
    UploadRowsKinds(form, s.nextId, biometryId);
    FilteredPair(s.files, rows, ImageFilesFilter(biometryId));
    assert UploadBiometryStep(s, down, form).after.files == s.files + rows;
  }

  /** Appending a non-matching row and then a matching one adds just the
      matching one to the filtered rows. */
  lemma FilteredPair(rows: seq<Row>, extra: seq<Row>, f: Filter)
    requires |extra| == 2 && !Matches(f, extra[0]) && Matches(f, extra[1])
    ensures Filtered(rows + extra, f) == Filtered(rows, f) + [extra[1]]
  {
    FilteredAppend(rows, extra[0], f);
    FilteredAppend(rows + [extra[0]], extra[1], f);
    assert rows + extra == rows + [extra[0]] + [extra[1]];
  }

  /** Of the two uploaded records only the second, the image, is an image file. */
  lemma UploadRowsKinds(form: BiometryForm, n: nat, biometryId: Id)
    requires form.templateProperties == Properties(biometryId, TemplateAttributes(form.template))
    requires form.imageProperties == Properties(biometryId, ImageAttributes)
    ensures var rows := UploadRows(form, n);
      !Matches(ImageFilesFilter(biometryId), rows[0]) && Matches(ImageFilesFilter(biometryId), rows[1])
      && rows[1].fields[DownloadUrl] == MintId(n + 1)
  {
    var rows := UploadRows(form, n);
    assert rows[0].attributes[TemplateFileKind] == "template";
  }

  /** `check_biorecord_photos` on the candidate and the current templates. */
  function CheckGate(env: Env, templates: seq<Template>, sdkType: string): Outcome<Error> {
    if CheckCall in env.down then Fail(CallFailed(CheckCall))
    else GateVerdict(env.config.checkConfig, env.check(sdkType, templates))
  }

  /** `add_photo_to_photo_album`: the photo is uploaded only when the
      album's photo list is empty. */
  function SeedAlbum(env: Env, s: StoreState, albumId: Id, fileName: string, image: Bytes): Step<Outcome<Error>> {
    if PhotoListCall in env.down then Step(Fail(CallFailed(PhotoListCall)), s)
    else if Page(PhotosIn(s.photos, [albumId]), 0, 100) != [] then Step(Pass, s)
    else
      var up := UploadPhotoStep(s, env.down, albumId, fileName, image);
      Step(if up.reply.Err? then Fail(up.reply.error) else Pass, up.after)
  }

  /** What happened to one file: its name, how it ended, and whether its
      template and image were uploaded (the `new_bio_templates` increment). */
  datatype FileResult = FileResult(file: string, outcome: Outcome<Error>, uploaded: bool)

  datatype FileStep = FileStep(result: FileResult, after: StoreState)

  /** The full path `folder/name` of a file of the source folder. */
  function FullPath(folder: string, fileName: string): string {
    folder + "/" + fileName
  }

  /** What the checks before the upload hand on: the group's ids, the
      file's bytes and the candidate template. */
  datatype Prepared = Prepared(biometryId: Id, albumId: Id, image: Bytes, candidate: Template)

  /** The part of `_create_template_by_file` before the upload: group ids,
      file bytes, SDK type, the candidate template, the current templates,
      the gate (only when there are current templates, the candidate
      first) and the upload URL. None of it changes the services. */
  function Prepare(env: Env, s: StoreState, g: Group, fileName: string): Result<Prepared, Error> {
    var path := FullPath(env.config.sourceFolder, fileName);
    if g.biometryId.None? || g.albumId.None? then Err(MissingId)
    else if path !in env.disk then Err(FileUnreadable(path))
    else
      var image := env.disk[path];
      var sdk := SdkTypeFor(env.config.biometryTypeId);
      if sdk.Err? then Err(sdk.error)
      else if DeriveCall in env.down then Err(CallFailed(DeriveCall))
      else
        var candidate := env.derive(sdk.value, image);
        var current := CurrentTemplates(env, s, g.biometryId.value, sdk.value);
        if current.Err? then Err(current.error)
        else
          var gate := if current.value == [] then Pass else CheckGate(env, [candidate] + current.value, sdk.value);
          if gate.Fail? then Err(gate.error)
          else if BiometryUploadUrl(env.config).Err? then Err(BadUrlTemplate)
          else Ok(Prepared(g.biometryId.value, g.albumId.value, image, candidate))
  }

  /** What reaches the upload is the group's own ids, the bytes of the file
      and the SDK's template of those bytes, and only for the Luna biometry
      type with a buildable upload URL. */
  lemma PreparedFromFile(env: Env, s: StoreState, g: Group, fileName: string)
    ensures var p := Prepare(env, s, g, fileName);
      var path := FullPath(env.config.sourceFolder, fileName);
      p.Ok? ==>
        && g.biometryId == Some(p.value.biometryId) && g.albumId == Some(p.value.albumId)
        && path in env.disk && p.value.image == env.disk[path]
        && env.config.biometryTypeId == LunaSdkBiometryTypeId
        && p.value.candidate == env.derive("lunasdk", p.value.image)
        && BiometryUploadUrl(env.config).Ok?
  {
  }

  /** `_create_template_by_file`: the checks of `Prepare`, the upload,
      then the album seeding. */
  function CreateTemplate(env: Env, s: StoreState, g: Group, fileName: string): FileStep {
    var p := Prepare(env, s, g, fileName);
    if p.Err? then FileStep(FileResult(fileName, Fail(p.error), false), s)
    else
      var up := UploadBiometryStep(s, env.down, UploadForm(fileName, p.value.candidate, p.value.biometryId, p.value.image));
      if up.reply.Err? then FileStep(FileResult(fileName, Fail(up.reply.error), false), s)
      else
        var seed := SeedAlbum(env, up.after, p.value.albumId, fileName, p.value.image);
        FileStep(FileResult(fileName, seed.reply, true), seed.after)
  }

  /** From `s` to `t` the files collection grew by `n` uploads (two
      records each) at its end, and the people, the owners and the
      profile-album links were left alone. */
  predicate Grew(s: StoreState, t: StoreState, n: nat) {
    && |t.files| == |s.files| + 2 * n && t.files[..|s.files|] == s.files
    && t.people == s.people && t.owners == s.owners && t.profileAlbums == s.profileAlbums
  }

  lemma GrewTransitive(s: StoreState, t: StoreState, u: StoreState, m: nat, n: nat)
    requires Grew(s, t, m) && Grew(t, u, n)
    ensures Grew(s, u, m + n)
  {
    assert u.files[..|s.files|] == u.files[..|t.files|][..|s.files|];
  }

  /** A file either is uploaded, adding its two records at the end of the
      files collection (and possibly a seed photo), or leaves the services
      exactly as they were. */
  lemma CreateTemplateUploads(env: Env, s: StoreState, g: Group, fileName: string)
    ensures var st := CreateTemplate(env, s, g, fileName);
      && Grew(s, st.after, if st.result.uploaded then 1 else 0)
      && (!st.result.uploaded ==> st.after == s)
  {
    var p := Prepare(env, s, g, fileName);
    if p.Ok? {
      var up := UploadBiometryStep(s, env.down, UploadForm(fileName, p.value.candidate, p.value.biometryId, p.value.image));
      if up.reply.Ok? {
        assert Grew(s, up.after, 1);
        SeedAlbumOnlyEmpty(env, up.after, p.value.albumId, fileName, p.value.image);
      }
    }
  }

  /** Each file's result names it; a file that ends well was uploaded, and
      a file the gate rejects was not. */
  lemma CreateTemplateOutcome(env: Env, s: StoreState, g: Group, fileName: string)
    ensures var r := CreateTemplate(env, s, g, fileName).result;
      && r.file == fileName
      && (r.outcome.Pass? ==> r.uploaded)
      && (r.outcome.Fail? && r.outcome.error.Rejected? ==> !r.uploaded)
  {
    var p := Prepare(env, s, g, fileName);
    if p.Ok? {
      var up := UploadBiometryStep(s, env.down, UploadForm(fileName, p.value.candidate, p.value.biometryId, p.value.image));
      if up.reply.Ok? {
        var seed := SeedAlbum(env, up.after, p.value.albumId, fileName, p.value.image);
        assert CreateTemplate(env, s, g, fileName).result.outcome == seed.reply;
      }
    }
  }

  /** Without current templates the photo check is never asked: the
      outcome is the same whatever the check would answer, even when it is
      unreachable. */
  lemma GateSkippedWithoutTemplates(env: Env, s: StoreState, g: Group, fileName: string, check: (string, seq<Template>) -> CheckResult, checkDown: bool)
    requires g.biometryId.Some?
    requires CurrentTemplates(env, s, g.biometryId.value, "lunasdk") == Ok([])
    ensures var other := env.(check := check, down := if checkDown then env.down + {CheckCall} else env.down - {CheckCall});
      CreateTemplate(other, s, g, fileName) == CreateTemplate(env, s, g, fileName)
  {
    var other := env.(check := check, down := if checkDown then env.down + {CheckCall} else env.down - {CheckCall});
    assert ListCall(FilesCollection) in other.down <==> ListCall(FilesCollection) in env.down;
    assert CurrentTemplates(other, s, g.biometryId.value, "lunasdk") == Ok([]);
    assert Prepare(other, s, g, fileName) == Prepare(env, s, g, fileName);
  }

  /** With current templates the check sees the candidate first, then the
      current templates in order, and the gate's verdict on that reply
      decides whether the file is rejected. */
  lemma GateSeesCandidateFirst(env: Env, s: StoreState, g: Group, fileName: string)
    requires g.biometryId.Some? && g.albumId.Some?
    requires FullPath(env.config.sourceFolder, fileName) in env.disk
    requires env.config.biometryTypeId == LunaSdkBiometryTypeId
    requires DeriveCall !in env.down && CheckCall !in env.down
    requires CurrentTemplates(env, s, g.biometryId.value, "lunasdk").Ok?
    requires CurrentTemplates(env, s, g.biometryId.value, "lunasdk").value != []
    ensures var candidate := env.derive("lunasdk", env.disk[FullPath(env.config.sourceFolder, fileName)]);
      var verdict := GateVerdict(env.config.checkConfig,
        env.check("lunasdk", [candidate] + CurrentTemplates(env, s, g.biometryId.value, "lunasdk").value));
      var r := CreateTemplate(env, s, g, fileName).result;
      (r.outcome.Fail? && r.outcome.error.Rejected?) <==> verdict.Fail?
  {
    var candidate := env.derive("lunasdk", env.disk[FullPath(env.config.sourceFolder, fileName)]);
    var verdict := GateVerdict(env.config.checkConfig,
        env.check("lunasdk", [candidate] + CurrentTemplates(env, s, g.biometryId.value, "lunasdk").value));
    var p := Prepare(env, s, g, fileName);
    assert p.Err? <==> verdict.Fail? || BiometryUploadUrl(env.config).Err?;
    if p.Ok? {
      var up := UploadBiometryStep(s, env.down, UploadForm(fileName, p.value.candidate, p.value.biometryId, p.value.image));
      if up.reply.Ok? {
        assert CreateTemplate(env, s, g, fileName).result.outcome == SeedAlbum(env, up.after, p.value.albumId, fileName, p.value.image).reply;
      }
    }
  }

  /** The photos of album `a`. */
  function AlbumPhotos(s: StoreState, a: Id): seq<Photo> {
    PhotosIn(s.photos, [a])
  }

  /** From `s` to `t` photos were only appended, and every album either kept
      its photos or was empty and received exactly one. */
  ghost predicate SeededAtMostOnce(s: StoreState, t: StoreState) {
    && |s.photos| <= |t.photos| && t.photos[..|s.photos|] == s.photos
    && forall a :: AlbumPhotos(t, a) == AlbumPhotos(s, a) || (AlbumPhotos(s, a) == [] && |AlbumPhotos(t, a)| == 1)
  }

  lemma SeededTransitive(s: StoreState, t: StoreState, u: StoreState)
    requires SeededAtMostOnce(s, t) && SeededAtMostOnce(t, u)
    ensures SeededAtMostOnce(s, u)
  {
    assert u.photos[..|s.photos|] == u.photos[..|t.photos|][..|s.photos|];
  }

  lemma SeededReflexive(s: StoreState)
    ensures SeededAtMostOnce(s, s)
  {
  }

  /** Seeding uploads the photo only into an album that has none. */
  lemma SeedAlbumOnlyEmpty(env: Env, s: StoreState, albumId: Id, fileName: string, image: Bytes)
    ensures var st := SeedAlbum(env, s, albumId, fileName, image);
      && SeededAtMostOnce(s, st.after)
      && st.after == s.(photos := st.after.photos, nextId := st.after.nextId)
  {
    var st := SeedAlbum(env, s, albumId, fileName, image);
    if PhotoListCall !in env.down && Page(PhotosIn(s.photos, [albumId]), 0, 100) == [] && PhotoUploadCall !in env.down {
      FirstPageEmpty(PhotosIn(s.photos, [albumId]), 100);
      forall a ensures AlbumPhotos(st.after, a) == AlbumPhotos(s, a) || (AlbumPhotos(s, a) == [] && |AlbumPhotos(st.after, a)| == 1) {
        UploadPhotoLandsInAlbum(s, env.down, albumId, fileName, image, a);
      }
    }
  }

  lemma CreateTemplateSeeds(env: Env, s: StoreState, g: Group, fileName: string)
    ensures SeededAtMostOnce(s, CreateTemplate(env, s, g, fileName).after)
  {
    var p := Prepare(env, s, g, fileName);
    if p.Ok? && UploadBiometryStep(s, env.down, UploadForm(fileName, p.value.candidate, p.value.biometryId, p.value.image)).reply.Ok? {
      var up := UploadBiometryStep(s, env.down, UploadForm(fileName, p.value.candidate, p.value.biometryId, p.value.image));
      SeedAlbumOnlyEmpty(env, up.after, p.value.albumId, fileName, p.value.image);
      assert up.after.photos == s.photos;
      forall a ensures AlbumPhotos(up.after, a) == AlbumPhotos(s, a) { }
    } else {
      SeededReflexive(s);
    }
  }

  /** The stage's log: one result per file processed, and the services' state. */
  datatype Enrolled = Enrolled(results: seq<FileResult>, after: StoreState)

  /** The inner loop over a group's files, each in its own `try`. */
  function EnrollFiles(env: Env, s: StoreState, g: Group, files: seq<string>): Enrolled
    decreases |files|
  {
    if files == [] then Enrolled([], s)
    else
      var pre := EnrollFiles(env, s, g, files[..|files| - 1]);
      var st := CreateTemplate(env, pre.after, g, files[|files| - 1]);
      Enrolled(pre.results + [st.result], st.after)
  }

  /** One more file of the group is enrolled on the state the earlier ones left. */
  lemma EnrollFilesStep(env: Env, s: StoreState, g: Group, files: seq<string>, i: nat)
    requires i < |files|
    ensures var pre := EnrollFiles(env, s, g, files[..i]);
      var st := CreateTemplate(env, pre.after, g, files[i]);
      EnrollFiles(env, s, g, files[..i + 1]) == Enrolled(pre.results + [st.result], st.after)
  {
    assert files[..i + 1][..i] == files[..i];
  }

  /** The outer loop over the groups in key order. */
  function EnrollPeople(env: Env, s: StoreState, order: seq<string>, groups: map<string, Group>): Enrolled
    requires Covers(order, groups)
    decreases |order|
  {
    if order == [] then Enrolled([], s)
    else
      var pre := EnrollPeople(env, s, order[..|order| - 1], groups);
      var k := order[|order| - 1];
      var e := EnrollFiles(env, pre.after, groups[k], groups[k].files);
      Enrolled(pre.results + e.results, e.after)
  }

  /** The number of uploads among the results. */
  function Uploads(results: seq<FileResult>): nat
    decreases |results|
  {
    if results == [] then 0
    else Uploads(results[..|results| - 1]) + if results[|results| - 1].uploaded then 1 else 0
  }

  lemma {:induction false} UploadsConcat(a: seq<FileResult>, b: seq<FileResult>)
    ensures Uploads(a + b) == Uploads(a) + Uploads(b)
    decreases |b|
  {
    if b != [] {
      UploadsConcat(a, b[..|b| - 1]);
      assert (a + b)[..|a + b| - 1] == a + b[..|b| - 1];
    } else {
      assert a + b == a;
    }
  }

  lemma UploadsSnoc(a: seq<FileResult>, x: FileResult)
    ensures Uploads(a + [x]) == Uploads(a) + if x.uploaded then 1 else 0
  {
    assert (a + [x])[..|a|] == a;
  }

  /** The names of the files, in processing order. */
  function Names(results: seq<FileResult>): seq<string> {
    seq(|results|, i requires 0 <= i < |results| => results[i].file)
  }

  /** Per-file isolation: every file gets exactly one result, in order,
      whatever happened to the files before it, and a file that ended well
      was uploaded. */
  lemma {:induction false} EnrollFilesResults(env: Env, s: StoreState, g: Group, files: seq<string>)
    ensures var e := EnrollFiles(env, s, g, files);
      && Names(e.results) == files
      && forall i | 0 <= i < |e.results| :: e.results[i].outcome.Pass? ==> e.results[i].uploaded
    decreases |files|
  {
    if files != [] {
      var init := files[..|files| - 1];
      var pre := EnrollFiles(env, s, g, init);
      EnrollFilesResults(env, s, g, init);
      var st := CreateTemplate(env, pre.after, g, files[|files| - 1]);
      CreateTemplateOutcome(env, pre.after, g, files[|files| - 1]);
      var e := EnrollFiles(env, s, g, files);
      assert e.results == pre.results + [st.result];
      assert Names(e.results) == Names(pre.results) + [st.result.file];
      assert init + [files[|files| - 1]] == files;
    }
  }

  /** The files collection grows by two records per upload, only at its
      end, and nothing else the earlier stages wrote changes. */
  lemma {:induction false} EnrollFilesGrow(env: Env, s: StoreState, g: Group, files: seq<string>)
    ensures var e := EnrollFiles(env, s, g, files);
      Grew(s, e.after, Uploads(e.results))
    decreases |files|
  {
    if files != [] {
      var init := files[..|files| - 1];
      var pre := EnrollFiles(env, s, g, init);
      EnrollFilesGrow(env, s, g, init);
      var st := CreateTemplate(env, pre.after, g, files[|files| - 1]);
      CreateTemplateUploads(env, pre.after, g, files[|files| - 1]);
      GrewTransitive(s, pre.after, st.after, Uploads(pre.results), if st.result.uploaded then 1 else 0);
      var e := EnrollFiles(env, s, g, files);
      assert e.results[..|e.results| - 1] == pre.results;
    }
  }

  /** Albums of a group are seeded at most once: a second file of the same
      person finds the album non-empty. */
  lemma {:induction false} EnrollFilesSeeds(env: Env, s: StoreState, g: Group, files: seq<string>)
    ensures SeededAtMostOnce(s, EnrollFiles(env, s, g, files).after)
    decreases |files|
  {
    if files == [] {
      SeededReflexive(s);
    } else {
      var init := files[..|files| - 1];
      var pre := EnrollFiles(env, s, g, init);
      EnrollFilesSeeds(env, s, g, init);
      CreateTemplateSeeds(env, pre.after, g, files[|files| - 1]);
      SeededTransitive(s, pre.after, CreateTemplate(env, pre.after, g, files[|files| - 1]).after);
    }
  }

  /** The whole stage: one result per file of every walked group, group
      after group in key order, and a file that ended well was uploaded. */
  lemma {:induction false} EnrollPeopleResults(env: Env, s: StoreState, order: seq<string>, groups: map<string, Group>)
    requires Covers(order, groups)
    ensures var e := EnrollPeople(env, s, order, groups);
      && Names(e.results) == FilesInOrder(order, groups)
      && forall i | 0 <= i < |e.results| :: e.results[i].outcome.Pass? ==> e.results[i].uploaded
    decreases |order|
  {
    if order != [] {
      var init, k := order[..|order| - 1], order[|order| - 1];
      var pre := EnrollPeople(env, s, init, groups);
      EnrollPeopleResults(env, s, init, groups);
      var ef := EnrollFiles(env, pre.after, groups[k], groups[k].files);
      EnrollFilesResults(env, pre.after, groups[k], groups[k].files);
      var e := EnrollPeople(env, s, order, groups);
      assert e.results == pre.results + ef.results;
      assert Names(e.results) == Names(pre.results) + Names(ef.results);
      forall i | 0 <= i < |e.results| && e.results[i].outcome.Pass? ensures e.results[i].uploaded {
        if i >= |pre.results| {
          assert e.results[i] == ef.results[i - |pre.results|];
        }
      }
    }
  }

  /** Over the whole stage the files collection grows by two records per
      upload, only at its end; people, owners and links are untouched. */
  lemma {:induction false} EnrollPeopleGrow(env: Env, s: StoreState, order: seq<string>, groups: map<string, Group>)
    requires Covers(order, groups)
    ensures var e := EnrollPeople(env, s, order, groups);
      Grew(s, e.after, Uploads(e.results))
    decreases |order|
  {
    if order != [] {
      var init, k := order[..|order| - 1], order[|order| - 1];
      var pre := EnrollPeople(env, s, init, groups);
      EnrollPeopleGrow(env, s, init, groups);
      var ef := EnrollFiles(env, pre.after, groups[k], groups[k].files);
      EnrollFilesGrow(env, pre.after, groups[k], groups[k].files);
      GrewTransitive(s, pre.after, ef.after, Uploads(pre.results), Uploads(ef.results));
      UploadsConcat(pre.results, ef.results);
    }
  }

  /** Over the whole stage every album is seeded at most once. */
  lemma {:induction false} EnrollPeopleSeeds(env: Env, s: StoreState, order: seq<string>, groups: map<string, Group>)
    requires Covers(order, groups)
    ensures SeededAtMostOnce(s, EnrollPeople(env, s, order, groups).after)
    decreases |order|
  {
    if order == [] {
      SeededReflexive(s);
    } else {
      var init, k := order[..|order| - 1], order[|order| - 1];
      var pre := EnrollPeople(env, s, init, groups);
      EnrollPeopleSeeds(env, s, init, groups);
      EnrollFilesSeeds(env, pre.after, groups[k], groups[k].files);
      SeededTransitive(s, pre.after, EnrollFiles(env, pre.after, groups[k], groups[k].files).after);
    }
  }
}
