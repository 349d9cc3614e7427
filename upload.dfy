/** The utility's run, `BiometryUploadBiometry.execute_upload_biometry`:
    the folder listing is sorted by key prefix and grouped by person; the
    people stage and the owner stage reconcile every group and stop at the
    first failure, which ends the run; the enrollment stage then walks every
    file of every group, isolating failures per file. The class keeps the
    two counters the run reports. */
module Upload {
  import opened Wrappers
  import opened Grouper
  import opened Grouping
  import opened Listing
  import opened Remote
  import opened Endpoint
  import opened Settings
  import opened Reconcile
  import opened Enrollment

  /** How a run ends: a failure of the people or the owner stage, caught by
      the handler around the run, or the enrollment log. */
  datatype Run = Aborted(error: Error) | Finished(results: seq<FileResult>)

  datatype RunStep = RunStep(run: Run, after: StoreState, newPeople: nat, newTemplates: nat)

  lemma CoversGrouping(files: seq<string>)
    ensures Covers(KeysInOrder(ParseName, files), GroupFiles(ParseName, files))
  {
    GroupingPartitions(ParseName, files);
  }

  /** The listing sorted by `_file_sort` and grouped by `_init_people_data`:
      the key order and the groups. */
  datatype Grouped = Grouped(order: seq<string>, groups: map<string, Group>)

  /** Every key of the walk has its group. */
  function GroupListing(listing: seq<string>): (r: Grouped)
    ensures Covers(r.order, r.groups)
  {
    var sorted := SortListing(listing);
    CoversGrouping(sorted);
    Grouped(KeysInOrder(ParseName, sorted), GroupFiles(ParseName, sorted))
  }

  /** The whole run on a folder listing, from the services' state `s`. */
  function Execution(env: Env, s: StoreState, listing: seq<string>): RunStep {
    var gr := GroupListing(listing);
    var people := PeopleStage(env, s, gr.order, gr.groups);
    if people.outcome.Err? then RunStep(Aborted(people.outcome.error), people.after, people.created, 0)
    else
      var owners := OwnerStage(env, people.after, gr.order, people.outcome.value);
      if owners.reply.Err? then RunStep(Aborted(owners.reply.error), owners.after, people.created, 0)
      else
        var e := EnrollPeople(env, owners.after, gr.order, owners.reply.value);
        RunStep(Finished(e.results), e.after, people.created, Uploads(e.results))
  }

  /** The reported counters are what the run did: `new_person` is the
      number of people records added, `new_bio_templates` the number of
      template-and-image uploads, two file records each; both collections
      only grow at their end. */
  lemma ExecutionCounts(env: Env, s: StoreState, listing: seq<string>)
    ensures var r := Execution(env, s, listing);
      && |r.after.people| == |s.people| + r.newPeople && r.after.people[..|s.people|] == s.people
      && |r.after.files| == |s.files| + 2 * r.newTemplates && r.after.files[..|s.files|] == s.files
  {
    var gr := GroupListing(listing);
    var order, groups := gr.order, gr.groups;
    var people := PeopleStage(env, s, order, groups);
    PeopleStageCounts(env, s, order, groups);
    if people.outcome.Ok? {
      var owners := OwnerStage(env, people.after, order, people.outcome.value);
      OwnerStageRecords(env, people.after, order, people.outcome.value);
      if owners.reply.Ok? {
        EnrollPeopleGrow(env, owners.after, order, owners.reply.value);
      }
    }
  }

  /** A failure in the people or the owner stage ends the run before any
      file is enrolled: no template, image or album photo is uploaded. */
  lemma ExecutionAbortEnrollsNothing(env: Env, s: StoreState, listing: seq<string>)
    ensures var r := Execution(env, s, listing);
      r.run.Aborted? ==> r.newTemplates == 0 && r.after.files == s.files && r.after.photos == s.photos
  {
    var gr := GroupListing(listing);
    var order, groups := gr.order, gr.groups;
    var people := PeopleStage(env, s, order, groups);
    PeopleStageCounts(env, s, order, groups);
    if people.outcome.Ok? {
      OwnerStageRecords(env, people.after, order, people.outcome.value);
    }
  }

  /** When the run gets to the enrollment stage, every file of the listing
      is tried exactly once (as often as it is listed), whatever happens to
      the others, and every file that ends well is uploaded. */
  lemma ExecutionTriesEveryFile(env: Env, s: StoreState, listing: seq<string>)
    ensures var r := Execution(env, s, listing);
      r.run.Finished? ==>
        && multiset(Names(r.run.results)) == multiset(listing)
        && forall i | 0 <= i < |r.run.results| :: r.run.results[i].outcome.Pass? ==> r.run.results[i].uploaded
  {
    var gr := GroupListing(listing);
    var order, groups := gr.order, gr.groups;
    var people := PeopleStage(env, s, order, groups);
    if people.outcome.Ok? {
      var owners := OwnerStage(env, people.after, order, people.outcome.value);
      if owners.reply.Ok? {
        PeopleStageComplete(env, s, order, groups);
        OwnerStageComplete(env, people.after, order, people.outcome.value);
        EnrollPeopleResults(env, owners.after, order, owners.reply.value);
        FilesInOrderSameFiles(order, owners.reply.value, groups);
        GroupingPartitions(ParseName, SortListing(listing));
        SortListingSortedPermutation(listing);
      }
    }
  }

  /** When the run gets to the enrollment stage, every group's person is
      linked to an album and holds an owner record id when its files are
      enrolled. */
  lemma ExecutionReconcilesBeforeEnrolling(env: Env, s: StoreState, listing: seq<string>)
    ensures var gr := GroupListing(listing);
      var order, groups := gr.order, gr.groups;
      var people := PeopleStage(env, s, order, groups);
      people.outcome.Ok? ==>
        var owners := OwnerStage(env, people.after, order, people.outcome.value);
        owners.reply.Ok? ==>
          forall k | k in order ::
            && Linked(owners.after.profileAlbums, owners.reply.value[k])
            && owners.reply.value[k].biometryId.Some?
            && owners.reply.value[k].files == groups[k].files
  {
    var gr := GroupListing(listing);
    var order, groups := gr.order, gr.groups;
    var people := PeopleStage(env, s, order, groups);
    if people.outcome.Ok? {
      PeopleStageComplete(env, s, order, groups);
      OwnerStageRecords(env, people.after, order, people.outcome.value);
      OwnerStageComplete(env, people.after, order, people.outcome.value);
    }
  }

  /** `BiometryUploadBiometry`: the configuration, the image files on disk,
      the endpoint services, and the run's `total` counters. */
  class BiometryUpload {
    /** `total['new_person']`. */
    var newPerson: nat
    /** `total['new_bio_templates']`. */
    var newBioTemplates: nat
    const config: Config
    const disk: map<string, Bytes>
    const endpointService: EndpointServices

    constructor(config: Config, disk: map<string, Bytes>, endpointService: EndpointServices)
      ensures this.config == config && this.disk == disk && this.endpointService == endpointService
      ensures newPerson == 0 && newBioTemplates == 0
    {
      this.config := config;
      this.disk := disk;
      this.endpointService := endpointService;
      newPerson := 0;
      newBioTemplates := 0;
    }

    /** The fixed world the run sees through its services. */
    function World(): Env {
      var remote := endpointService.remote;
      Env(remote.down, remote.urlOf, remote.derive, remote.check, config, disk)
    }

    /** One iteration of `_create_update_data_m7_people_service`. */
    method UpdatePersonData(g: Group) returns (r: Result<Group, Error>)
      modifies this, endpointService.remote
      ensures var st := UpdatePerson(World(), old(endpointService.remote.Contents()), g);
        && r == st.outcome && endpointService.remote.Contents() == st.after
        && newPerson == old(newPerson) + (if st.created then 1 else 0)
        && newBioTemplates == old(newBioTemplates)
    {
      var found := endpointService.GetListByFilterFromUrl(PeopleCollection, config.peopleUrl, Some(PersonFilter(g.fields)));
      if found.Err? {
        return Err(found.error);
      }
      var personId: Id;
      if found.value != [] {
        personId := found.value[0].id;
      } else {
        var added := endpointService.AddDataPeople(config.peopleUrl, PersonRecord(g.fields));
        if added.Err? {
          return Err(added.error);
        }
        personId := added.value;
        newPerson := newPerson + 1;
      }
      var albumId := endpointService.GetAlbumIdByPersonId(personId, g.fields.lastName);
      if albumId.Err? {
        return Err(albumId.error);
      }
      var linked := endpointService.AssignPersonIdToAlbumId(personId, albumId.value);
      if linked.Fail? {
        return Err(linked.error);
      }
      r := Ok(g.(personId := Some(personId), albumId := Some(albumId.value)));
    }

    /** `_create_update_data_m7_people_service`. */
    method CreateUpdatePeople(order: seq<string>, groups: map<string, Group>) returns (r: Result<map<string, Group>, Error>)
      requires Covers(order, groups)
      modifies this, endpointService.remote
      ensures var st := PeopleStage(World(), old(endpointService.remote.Contents()), order, groups);
        && r == st.outcome && endpointService.remote.Contents() == st.after
        && newPerson == old(newPerson) + st.created
        && newBioTemplates == old(newBioTemplates)
    {
      ghost var env, s0 := World(), endpointService.remote.Contents();
      var current := groups;
      var i := 0;
      while i < |order|
        invariant 0 <= i <= |order|
        invariant Covers(order[..i], groups)
        invariant var st := PeopleStage(env, s0, order[..i], groups);
          && st.outcome == Ok(current) && endpointService.remote.Contents() == st.after
          && newPerson == old(newPerson) + st.created
        invariant newBioTemplates == old(newBioTemplates)
      {
        PeopleStageStep(env, s0, order, groups, i);
        var g := UpdatePersonData(current[order[i]]);
        if g.Err? {
          PeopleStageAbort(env, s0, order, groups, i + 1);
          return Err(g.error);
        }
        current := current[order[i] := g.value];
        i := i + 1;
      }
      assert order[..i] == order;
      r := Ok(current);
    }

    /** One iteration of `_create_update_data_m7_biometry_service`. */
    method UpdateOwnerData(g: Group, biometryUrl: string) returns (r: Result<Group, Error>)
      requires biometryUrl == endpointService.GetUrl(BiometryEndpoint)
      modifies endpointService.remote
      ensures Step(r, endpointService.remote.Contents()) == UpdateOwner(World(), old(endpointService.remote.Contents()), g)
    {
      if g.personId.None? {
        return Err(MissingId);
      }
      var ownerId := g.personId.value;
      var found := endpointService.GetListByFilterFromUrl(BiometryCollection, biometryUrl, Some(OwnerFilter(ownerId, config.biometryTypeId)));
      if found.Err? {
        return Err(found.error);
      }
      if found.value != [] {
        return Ok(g.(biometryId := Some(found.value[0].id)));
      }
      var added := endpointService.AddDataBiometry(biometryUrl, OwnerRecord(ownerId, config.biometryTypeId), map[]);
      if added.Err? {
        return Err(added.error);
      }
      r := Ok(g.(biometryId := Some(added.value)));
    }

    /** `_create_update_data_m7_biometry_service`. */
    method CreateUpdateBiometry(order: seq<string>, groups: map<string, Group>) returns (r: Result<map<string, Group>, Error>)
      requires Covers(order, groups)
      modifies endpointService.remote
      ensures Step(r, endpointService.remote.Contents()) == OwnerStage(World(), old(endpointService.remote.Contents()), order, groups)
    {
      var biometryUrl := endpointService.GetUrl(BiometryEndpoint);
      var current := groups;
      var i := 0;
      while i < |order|
        invariant 0 <= i <= |order|
        invariant Covers(order[..i], groups)
        invariant OwnerStage(World(), old(endpointService.remote.Contents()), order[..i], groups)
          == Step(Ok(current), endpointService.remote.Contents())
      {
        PrefixStep(order, i);
        assert order[..i + 1][..i] == order[..i];
        var g := UpdateOwnerData(current[order[i]], biometryUrl);
        if g.Err? {
          OwnerStageAbort(World(), old(endpointService.remote.Contents()), order, groups, i + 1);
          return Err(g.error);
        }
        current := current[order[i] := g.value];
        i := i + 1;
      }
      assert order[..i] == order;
      r := Ok(current);
    }

    /** `_get_all_current_templates_by_biometry_id`: list the biometry's
        image files, then download each and derive its template. */
    method GetAllCurrentTemplates(biometryId: Id, sdkType: string) returns (r: Result<seq<Template>, Error>)
      ensures r == CurrentTemplates(World(), endpointService.remote.Contents(), biometryId, sdkType)
    {
      var files := endpointService.GetListByFilterFromUrl(FilesCollection, config.filesUrl, Some(ImageFilesFilter(biometryId)));
      if files.Err? {
        return Err(files.error);
      }
      if files.value == [] {
        return Ok([]);
      }
      var rows := files.value;
      ghost var env, st := World(), endpointService.remote.Contents();
      var templates: seq<Template> := [];
      var i := 0;
      while i < |rows|
        invariant 0 <= i <= |rows|
        invariant TemplatesOf(env, st, rows[..i], sdkType) == Ok(templates)
      {
        TemplatesOfStep(env, st, rows, sdkType, i);
        var row := rows[i];
        var t: Result<Template, Error>;
        if DownloadUrl !in row.fields {
          t := Err(MissingDownloadUrl);
        } else {
          var bytes := endpointService.GetFileBytes(row.fields[DownloadUrl]);
          if bytes.Err? {
            t := Err(bytes.error);
          } else {
            t := endpointService.GetTemplateByImage(bytes.value, sdkType);
          }
        }
        if t.Err? {
          TemplatesOfAbort(env, st, rows, sdkType, i + 1);
          return Err(t.error);
        }
        templates := templates + [t.value];
        i := i + 1;
      }
      assert rows[..i] == rows;
      r := Ok(templates);
    }

    /** `add_photo_to_photo_album`. */
    method AddPhotoToPhotoAlbum(image: Bytes, albumId: Id, fileName: string) returns (r: Outcome<Error>)
      modifies endpointService.remote
      ensures Step(r, endpointService.remote.Contents()) == SeedAlbum(World(), old(endpointService.remote.Contents()), albumId, fileName, image)
    {
      var photos := endpointService.GetPhotoListByFilter(albumId);
      if photos.Err? {
        return Fail(photos.error);
      }
      if photos.value != [] {
        return Pass;
      }
      var uploaded := endpointService.UploadM7PhotoAlbum(image, albumId, fileName);
      if uploaded.Err? {
        return Fail(uploaded.error);
      }
      r := Pass;
    }

    /** `_create_template_by_file`. */
    method CreateTemplateByFile(g: Group, fileName: string) returns (r: Outcome<Error>)
      modifies this, endpointService.remote
      ensures var st := CreateTemplate(World(), old(endpointService.remote.Contents()), g, fileName);
        && r == st.result.outcome && endpointService.remote.Contents() == st.after
        && newBioTemplates == old(newBioTemplates) + (if st.result.uploaded then 1 else 0)
        && newPerson == old(newPerson)
    {
      var path := FullPath(config.sourceFolder, fileName);
      if g.biometryId.None? || g.albumId.None? {
        return Fail(MissingId);
      }
      if path !in disk {
        return Fail(FileUnreadable(path));
      }
      var image := disk[path];
      var sdkType := SdkTypeFor(config.biometryTypeId);
      if sdkType.Err? {
        return Fail(sdkType.error);
      }
      var candidate := endpointService.GetTemplateByImage(image, sdkType.value);
      if candidate.Err? {
        return Fail(candidate.error);
      }
      var current := GetAllCurrentTemplates(g.biometryId.value, sdkType.value);
      if current.Err? {
        return Fail(current.error);
      }
      if current.value != [] {
        var gate := endpointService.CheckBiorecordPhotos([candidate.value] + current.value, sdkType.value, config.checkConfig);
        if gate.Fail? {
          return gate;
        }
      }
      var url := BiometryUploadUrl(config);
      if url.Err? {
        return Fail(url.error);
      }
      var uploaded := endpointService.UploadM7Biometry(url.value, UploadForm(fileName, candidate.value, g.biometryId.value, image));
      if uploaded.Err? {
        return Fail(uploaded.error);
      }
      newBioTemplates := newBioTemplates + 1;
      r := AddPhotoToPhotoAlbum(image, g.albumId.value, fileName);
    }

    /** The inner loop of `_create_templates_m7_biometry_service`: each of
        the group's files in its own `try`, logged. */
    method CreateTemplatesForGroup(g: Group) returns (log: seq<FileResult>)
      modifies this, endpointService.remote
      ensures var e := EnrollFiles(World(), old(endpointService.remote.Contents()), g, g.files);
        && log == e.results && endpointService.remote.Contents() == e.after
        && newBioTemplates == old(newBioTemplates) + Uploads(e.results)
        && newPerson == old(newPerson)
    {
      log := [];
      ghost var env, s0 := World(), endpointService.remote.Contents();
      var i := 0;
      while i < |g.files|
        invariant 0 <= i <= |g.files|
        invariant var e := EnrollFiles(env, s0, g, g.files[..i]);
          && log == e.results && endpointService.remote.Contents() == e.after
          && newBioTemplates == old(newBioTemplates) + Uploads(e.results)
        invariant newPerson == old(newPerson)
      {
        EnrollFilesStep(env, s0, g, g.files, i);
        ghost var pre := log;
        ghost var here := endpointService.remote.Contents();
        ghost var step := CreateTemplate(env, here, g, g.files[i]);
        var before := newBioTemplates;
        var outcome := CreateTemplateByFile(g, g.files[i]);
        var result := FileResult(g.files[i], outcome, newBioTemplates != before);
        assert result == step.result && endpointService.remote.Contents() == step.after by {
          CreateTemplateOutcome(env, here, g, g.files[i]);
        }
        UploadsSnoc(pre, result);
        log := log + [result];
        i := i + 1;
      }
      assert g.files[..i] == g.files;
    }

    /** `_create_templates_m7_biometry_service`: every group in key order. */
    method CreateTemplates(order: seq<string>, groups: map<string, Group>) returns (log: seq<FileResult>)
      requires Covers(order, groups)
      modifies this, endpointService.remote
      ensures var e := EnrollPeople(World(), old(endpointService.remote.Contents()), order, groups);
        && log == e.results && endpointService.remote.Contents() == e.after
        && newBioTemplates == old(newBioTemplates) + Uploads(e.results)
        && newPerson == old(newPerson)
    {
      log := [];
      var i := 0;
      while i < |order|
        invariant 0 <= i <= |order|
        invariant Covers(order[..i], groups)
        invariant var e := EnrollPeople(World(), old(endpointService.remote.Contents()), order[..i], groups);
          && log == e.results && endpointService.remote.Contents() == e.after
          && newBioTemplates == old(newBioTemplates) + Uploads(e.results)
        invariant newPerson == old(newPerson)
      {
        PrefixStep(order, i);
        assert order[..i + 1][..i] == order[..i];
        ghost var pre := log;
        var groupLog := CreateTemplatesForGroup(groups[order[i]]);
        UploadsConcat(pre, groupLog);
        log := log + groupLog;
        i := i + 1;
      }
      assert order[..i] == order;
    }

    /** `execute_upload_biometry` on the folder listing: `_get_files`,
        `_init_people_data`, then the three stages. */
    method ExecuteUploadBiometry(listing: seq<string>) returns (run: Run)
      modifies this, endpointService.remote
      ensures var st := Execution(World(), old(endpointService.remote.Contents()), listing);
        && run == st.run && endpointService.remote.Contents() == st.after
        && newPerson == old(newPerson) + st.newPeople
        && newBioTemplates == old(newBioTemplates) + st.newTemplates
    {
      var sorted := SortListing(listing);
      var order, groups := InitPeopleData(sorted);
      assert Grouped(order, groups) == GroupListing(listing);
      var people := CreateUpdatePeople(order, groups);
      if people.Err? {
        return Aborted(people.error);
      }
      var owners := CreateUpdateBiometry(order, people.value);
      if owners.Err? {
        return Aborted(owners.error);
      }
      var log := CreateTemplates(order, owners.value);
      run := Finished(log);
    }
  }
}
