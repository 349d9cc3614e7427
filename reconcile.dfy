/** The two reconciliation stages of a run, `_create_update_data_m7_people_service`
    and `_create_update_data_m7_biometry_service`, as functions of the
    services' state: each person is searched for and created only when
    missing, gets an album and is linked to it; then each person's
    biometry-owner record is searched for and created only when missing. */
module Reconcile {
  import opened Wrappers
  import opened Grouper
  import opened Remote
  import opened Endpoint
  import opened Settings

  /** Python truthiness of an optional string field. */
  predicate Present(o: Option<string>) {
    o.Some? && o.value != ""
  }

  /** The person record `add_data_m7_people` is given: the last name, and
      the first name and patronymic only when they are truthy. */
  function PersonRecord(f: PersonFields): map<Field, string> {
    var m := map[LastName := f.lastName];
    var m := if Present(f.firstName) then m[FirstName := f.firstName.value] else m;
    if Present(f.patronymic) then m[Patronymic := f.patronymic.value] else m
  }

  /** The lookup filter of the person stage, built from the same fields. */
  function PersonFilter(f: PersonFields): Filter {
    var m := map[LastName := [f.lastName]];
    var m := if Present(f.firstName) then m[FirstName := [f.firstName.value]] else m;
    Filter(if Present(f.patronymic) then m[Patronymic := [f.patronymic.value]] else m, map[])
  }

  /** The filter always names the last name, names the first name and the
      patronymic exactly when they are present, and asks for the values of
      the record that would be created. */
  lemma PersonFilterFields(f: PersonFields)
    ensures var r, q := PersonRecord(f), PersonFilter(f).fields;
      && q.Keys == r.Keys
      && LastName in q && q[LastName] == [f.lastName]
      && (FirstName in q <==> Present(f.firstName))
      && (Patronymic in q <==> Present(f.patronymic))
      && (forall k | k in q :: q[k] == [r[k]])
      && PersonFilter(f).attributes == map[]
  {
  }

  /** The record created for a person is found by that person's filter. */
  lemma CreatedPersonMatches(f: PersonFields, id: Id)
    ensures Matches(PersonFilter(f), Row(id, PersonRecord(f), map[]))
  {
    PersonFilterFields(f);
  }

  /** The people being searched for: the first page of the people
      collection under the person's filter. */
  function FoundPeople(s: StoreState, f: PersonFields): seq<Row> {
    Select(s.people, ListQuery(Some(PersonFilter(f))))
  }

  /** The person's id: element 0 of the lookup when it found anyone,
      otherwise the id of a newly created person record. */
  function PersonIdStep(env: Env, s: StoreState, f: PersonFields): Step<Result<Id, Error>> {
    if ListCall(PeopleCollection) in env.down then Step(Err(ListFailed(env.config.peopleUrl)), s)
    else if FoundPeople(s, f) != [] then Step(Ok(FoundPeople(s, f)[0].id), s)
    else AddPersonStep(s, env.down, PersonRecord(f))
  }

  /** Whether the person stage creates a record for `f` (a `new_person`). */
  predicate PersonCreated(env: Env, s: StoreState, f: PersonFields) {
    ListCall(PeopleCollection) !in env.down && FoundPeople(s, f) == [] && AddCall(PeopleCollection) !in env.down
  }

  /** A person found by the lookup is reused: element 0's id, nothing
      created. Otherwise exactly one record is created, holding exactly the
      present fields, and its id is the person's. Nothing but the people
      collection changes. */
  lemma PersonIdSearchThenCreate(env: Env, s: StoreState, f: PersonFields)
    ensures var st, found := PersonIdStep(env, s, f), FoundPeople(s, f);
      && (PersonCreated(env, s, f) ==>
            && st.reply == Ok(MintId(s.nextId))
            && st.after == s.(people := s.people + [Row(MintId(s.nextId), PersonRecord(f), map[])], nextId := s.nextId + 1))
      && (!PersonCreated(env, s, f) ==> st.after == s)
      && (st.reply.Ok? && found != [] ==> st.reply.value == found[0].id)
      && (st.reply.Ok? <==> ListCall(PeopleCollection) !in env.down && (found != [] || AddCall(PeopleCollection) !in env.down))
  {
  }

  /** Once the person's id is known, a repeated lookup on any state with the
      same people finds the same person and creates nothing. */
  lemma PersonIdIdempotent(env: Env, s: StoreState, f: PersonFields, t: StoreState)
    requires PersonIdStep(env, s, f).reply.Ok?
    requires t.people == PersonIdStep(env, s, f).after.people
    ensures PersonIdStep(env, t, f) == Step(PersonIdStep(env, s, f).reply, t)
    ensures !PersonCreated(env, t, f)
  {
    var st := PersonIdStep(env, s, f);
    if FoundPeople(s, f) == [] {
      var row := Row(MintId(s.nextId), PersonRecord(f), map[]);
      assert st.after.people == s.people + [row];
      FirstPageEmpty(Filtered(s.people, PersonFilter(f)), 100);
      FilteredAppend(s.people, row, PersonFilter(f));
      CreatedPersonMatches(f, MintId(s.nextId));
      assert Filtered(t.people, PersonFilter(f)) == [row];
      assert FoundPeople(t, f) == [row];
    } else {
      assert FoundPeople(t, f) == FoundPeople(s, f);
    }
  }

  /** `get_album_id_by_person_id` then `assign_person_id_to_album_id`: the
      album id, once the person is linked to it. */
  function AlbumLinkStep(env: Env, s: StoreState, personId: Id, name: string): Step<Result<Id, Error>> {
    var album := AlbumStep(s, env.down, personId, name);
    if album.reply.Err? then album
    else
      var link := AssignStep(album.after, env.down, personId, album.reply.value);
      if link.reply.Fail? then Step(Err(link.reply.error), link.after) else Step(album.reply, link.after)
  }

  /** On success the person is linked to a truthy album id; the people,
      owners, files and photos are untouched. */
  lemma AlbumLinkLinks(env: Env, s: StoreState, personId: Id, name: string)
    ensures var st := AlbumLinkStep(env, s, personId, name);
      && st.after.people == s.people && st.after.owners == s.owners
      && st.after.files == s.files && st.after.photos == s.photos
      && (st.reply.Ok? ==> HasAlbum(st.after.profileAlbums, personId) && st.after.profileAlbums[personId] == st.reply.value)
  {
    AlbumGetOrCreate(s, env.down, personId, name);
  }

  /** Getting the album of a linked person again returns the same album and
      changes nothing. */
  lemma AlbumLinkIdempotent(env: Env, s: StoreState, personId: Id, name: string)
    requires AlbumLinkStep(env, s, personId, name).reply.Ok?
    ensures var st := AlbumLinkStep(env, s, personId, name);
      AlbumLinkStep(env, st.after, personId, name) == st
  {
    var st := AlbumLinkStep(env, s, personId, name);
    AlbumLinkLinks(env, s, personId, name);
    assert AlbumStep(st.after, env.down, personId, name) == Step(st.reply, st.after);
    assert st.after.profileAlbums[personId := st.reply.value] == st.after.profileAlbums;
  }

  /** The outcome of one person's reconciliation, and whether a person
      record was created (the `new_person` increment). */
  datatype PersonStep = PersonStep(outcome: Result<Group, Error>, after: StoreState, created: bool)

  /** One iteration of the person stage: the person's id, then the album
      named after the last name, linked to the person. Any failure ends the
      stage; a created record stays created. */
  function UpdatePerson(env: Env, s: StoreState, g: Group): PersonStep {
    var id := PersonIdStep(env, s, g.fields);
    if id.reply.Err? then PersonStep(Err(id.reply.error), id.after, false)
    else
      var link := AlbumLinkStep(env, id.after, id.reply.value, g.fields.lastName);
      PersonStep(
        if link.reply.Err? then Err(link.reply.error)
        else Ok(g.(personId := Some(id.reply.value), albumId := Some(link.reply.value))),
        link.after,
        PersonCreated(env, s, g.fields))
  }

  /** A successful reconciliation fills in the group's person id and album
      id and nothing else; the services link the two; owners, files and
      photos are untouched, and the people grow by one record exactly when
      one was created. */
  lemma UpdatePersonLinks(env: Env, s: StoreState, g: Group)
    ensures var st := UpdatePerson(env, s, g);
      && st.after.owners == s.owners && st.after.files == s.files && st.after.photos == s.photos
      && st.after.people == s.people + (if st.created then [Row(MintId(s.nextId), PersonRecord(g.fields), map[])] else [])
      && (st.outcome.Ok? ==>
            && st.outcome.value == g.(personId := st.outcome.value.personId, albumId := st.outcome.value.albumId)
            && st.outcome.value.personId.Some? && st.outcome.value.albumId.Some?
            && HasAlbum(st.after.profileAlbums, st.outcome.value.personId.value)
            && st.after.profileAlbums[st.outcome.value.personId.value] == st.outcome.value.albumId.value)
  {
    var id := PersonIdStep(env, s, g.fields);
    PersonIdSearchThenCreate(env, s, g.fields);
    if id.reply.Ok? {
      AlbumLinkLinks(env, id.after, id.reply.value, g.fields.lastName);
    }
  }

  /** A second reconciliation of the same group on the state the first
      left behind finds the person, the album and the link: it creates
      nothing, changes nothing and gives the same ids. */
  lemma UpdatePersonIdempotent(env: Env, s: StoreState, g: Group)
    requires UpdatePerson(env, s, g).outcome.Ok?
    ensures var st := UpdatePerson(env, s, g);
      UpdatePerson(env, st.after, g) == PersonStep(st.outcome, st.after, false)
  {
    var id := PersonIdStep(env, s, g.fields);
    var link := AlbumLinkStep(env, id.after, id.reply.value, g.fields.lastName);
    AlbumLinkLinks(env, id.after, id.reply.value, g.fields.lastName);
    PersonIdIdempotent(env, s, g.fields, link.after);
    AlbumLinkIdempotent(env, id.after, id.reply.value, g.fields.lastName);
  }

  /** The filter of the owner stage: the person as owner and the configured
      biometry type. */
  function OwnerFilter(personId: Id, biometryTypeId: string): Filter {
    Filter(map[OwnerId := [personId], BiometryTypeId := [biometryTypeId]], map[])
  }

  /** The owner record `add_data_m7_biometry` is given. */
  function OwnerRecord(personId: Id, biometryTypeId: string): map<Field, string> {
    map[OwnerId := personId, BiometryTypeId := biometryTypeId]
  }

  function FoundOwners(s: StoreState, personId: Id, biometryTypeId: string): seq<Row> {
    Select(s.owners, ListQuery(Some(OwnerFilter(personId, biometryTypeId))))
  }

  /** One iteration of the owner stage: the group's person id is required;
      element 0's `biometry_id` is reused, otherwise an owner record with
      empty properties is created. Any failure ends the stage. */
  function UpdateOwner(env: Env, s: StoreState, g: Group): Step<Result<Group, Error>> {
    if g.personId.None? then Step(Err(MissingId), s)
    else if ListCall(BiometryCollection) in env.down then Step(Err(ListFailed(env.urlOf(BiometryEndpoint))), s)
    else
      var found := FoundOwners(s, g.personId.value, env.config.biometryTypeId);
      if found != [] then Step(Ok(g.(biometryId := Some(found[0].id))), s)
      else
        var add := AddOwnerStep(s, env.down, OwnerRecord(g.personId.value, env.config.biometryTypeId), map[]);
        if add.reply.Err? then Step(Err(add.reply.error), add.after)
        else Step(Ok(g.(biometryId := Some(add.reply.value))), add.after)
  }

  /** The owner record of a person is reused when found; otherwise exactly
      one record for the person and the biometry type is created, with
      empty properties. Only the group's biometry id changes, and nothing
      but the owner records does. */
  lemma UpdateOwnerSearchThenCreate(env: Env, s: StoreState, g: Group)
    ensures var st := UpdateOwner(env, s, g);
      && (st.reply.Ok? ==> g.personId.Some? && st.reply.value == g.(biometryId := st.reply.value.biometryId) && st.reply.value.biometryId.Some?)
      && (st.reply.Ok? && FoundOwners(s, g.personId.value, env.config.biometryTypeId) != [] ==>
            st.after == s && st.reply.value.biometryId == Some(FoundOwners(s, g.personId.value, env.config.biometryTypeId)[0].id))
      && (st.reply.Ok? && FoundOwners(s, g.personId.value, env.config.biometryTypeId) == [] ==>
            && st.reply.value.biometryId == Some(MintId(s.nextId))
            && st.after == s.(owners := s.owners + [Row(MintId(s.nextId), OwnerRecord(g.personId.value, env.config.biometryTypeId), map[])],
                              nextId := s.nextId + 1))
      && (st.reply.Err? ==> st.after == s)
  {
  }

  /** A second owner reconciliation on the state the first left behind
      finds the record instead of creating it: the same group, and the
      services unchanged. */
  lemma UpdateOwnerIdempotent(env: Env, s: StoreState, g: Group)
    requires UpdateOwner(env, s, g).reply.Ok?
    ensures var st := UpdateOwner(env, s, g);
      UpdateOwner(env, st.after, g) == st
  {
    var st := UpdateOwner(env, s, g);
    var pid, tid := g.personId.value, env.config.biometryTypeId;
    if FoundOwners(s, pid, tid) == [] {
      var row := Row(MintId(s.nextId), OwnerRecord(pid, tid), map[]);
      FirstPageEmpty(Filtered(s.owners, OwnerFilter(pid, tid)), 100);
      FilteredAppend(s.owners, row, OwnerFilter(pid, tid));
      assert Filtered(st.after.owners, OwnerFilter(pid, tid)) == [row];
      assert FoundOwners(st.after, pid, tid) == [row];
    }
  }

  /** Every key the stage walks has its group. */
  predicate Covers(order: seq<string>, groups: map<string, Group>) {
    forall k | k in order :: k in groups
  }

  /** The person stage's result: the groups with their ids filled in, the
      services' state, and the number of people created. */
  datatype StageStep = StageStep(outcome: Result<map<string, Group>, Error>, after: StoreState, created: nat)

  /** `_create_update_data_m7_people_service`: every group in key order;
      there is no per-person error handling, so the first failure ends the
      stage and the run. */
  function PeopleStage(env: Env, s: StoreState, order: seq<string>, groups: map<string, Group>): (r: StageStep)
    requires Covers(order, groups)
    ensures r.outcome.Ok? ==> r.outcome.value.Keys == groups.Keys
    decreases |order|
  {
    if order == [] then StageStep(Ok(groups), s, 0)
    else
      var pre := PeopleStage(env, s, order[..|order| - 1], groups);
      if pre.outcome.Err? then pre
      else
        var k := order[|order| - 1];
        var st := UpdatePerson(env, pre.after, pre.outcome.value[k]);
        StageStep(
          if st.outcome.Err? then Err(st.outcome.error) else Ok(pre.outcome.value[k := st.outcome.value]),
          st.after,
          pre.created + if st.created then 1 else 0)
  }

  /** One more person: the stage over a prefix extended by one key. */
  lemma PeopleStageStep(env: Env, s: StoreState, order: seq<string>, groups: map<string, Group>, i: nat)
    requires Covers(order, groups) && i < |order|
    ensures Covers(order[..i], groups) && Covers(order[..i + 1], groups)
    ensures var pre := PeopleStage(env, s, order[..i], groups);
      pre.outcome.Ok? ==>
        && order[i] in pre.outcome.value
        && var st := UpdatePerson(env, pre.after, pre.outcome.value[order[i]]);
          PeopleStage(env, s, order[..i + 1], groups) == StageStep(
            if st.outcome.Err? then Err(st.outcome.error) else Ok(pre.outcome.value[order[i] := st.outcome.value]),
            st.after,
            pre.created + if st.created then 1 else 0)
  {
    assert order[..i + 1][..i] == order[..i];
  }

  /** The group's person is linked to the group's album. */
  predicate Linked(links: map<Id, Id>, g: Group) {
    && g.personId.Some? && g.albumId.Some?
    && HasAlbum(links, g.personId.value) && links[g.personId.value] == g.albumId.value
  }

  /** A link to a truthy album survives getting and linking the album of
      any person. */
  lemma AlbumLinkKeepsLinks(env: Env, s: StoreState, personId: Id, name: string, p: Id)
    requires HasAlbum(s.profileAlbums, p)
    ensures var st := AlbumLinkStep(env, s, personId, name);
      HasAlbum(st.after.profileAlbums, p) && st.after.profileAlbums[p] == s.profileAlbums[p]
  {
  }

  lemma UpdatePersonKeepsLinks(env: Env, s: StoreState, g: Group, h: Group)
    requires Linked(s.profileAlbums, h)
    ensures Linked(UpdatePerson(env, s, g).after.profileAlbums, h)
  {
    var id := PersonIdStep(env, s, g.fields);
    PersonIdSearchThenCreate(env, s, g.fields);
    if id.reply.Ok? {
      AlbumLinkKeepsLinks(env, id.after, id.reply.value, g.fields.lastName, h.personId.value);
    }
  }

  /** The number of people the stage reports created is the number of
      records added to the people collection, which only grows at its end;
      the owners, files and photos are untouched. */
  lemma {:induction false} PeopleStageCounts(env: Env, s: StoreState, order: seq<string>, groups: map<string, Group>)
    requires Covers(order, groups)
    ensures var r := PeopleStage(env, s, order, groups);
      && |r.after.people| == |s.people| + r.created
      && r.after.people[..|s.people|] == s.people
      && r.after.owners == s.owners && r.after.files == s.files && r.after.photos == s.photos
    decreases |order|
  {
    if order != [] {
      var pre := PeopleStage(env, s, order[..|order| - 1], groups);
      PeopleStageCounts(env, s, order[..|order| - 1], groups);
      if pre.outcome.Ok? {
        UpdatePersonLinks(env, pre.after, pre.outcome.value[order[|order| - 1]]);
      }
    }
  }

  /** A successful person step changes only the group's person id and
      album id, and links the two. */
  lemma UpdatePersonSetsIds(env: Env, s: StoreState, g: Group)
    ensures var st := UpdatePerson(env, s, g);
      st.outcome.Ok? ==>
        && st.outcome.value == g.(personId := st.outcome.value.personId, albumId := st.outcome.value.albumId)
        && Linked(st.after.profileAlbums, st.outcome.value)
  {
    UpdatePersonLinks(env, s, g);
  }

  /** A person step keeps every existing link. */
  lemma UpdatePersonKeepsAllLinks(env: Env, s: StoreState, g: Group)
    ensures forall h | Linked(s.profileAlbums, h) :: Linked(UpdatePerson(env, s, g).after.profileAlbums, h)
  {
    forall h | Linked(s.profileAlbums, h) ensures Linked(UpdatePerson(env, s, g).after.profileAlbums, h) {
      UpdatePersonKeepsLinks(env, s, g, h);
    }
  }

  /** Map-level step of `PeopleStageLinked`. */
  lemma LinkedStep(links: map<Id, Id>, links': map<Id, Id>, pre: map<string, Group>, init: seq<string>, k: string, g: Group)
    requires forall j | j in init :: j in pre && Linked(links, pre[j])
    requires forall h | Linked(links, h) :: Linked(links', h)
    requires Linked(links', g)
    ensures forall j | j in init + [k] :: Linked(links', pre[k := g][j])
  {
  }

  /** Map-level step of `PeopleStageOnlyIds`. */
  lemma OnlyPersonIdsStep(groups: map<string, Group>, pre: map<string, Group>, init: seq<string>, k: string, g: Group)
    requires k in groups && pre.Keys == groups.Keys
    requires forall j | j in groups :: pre[j] == groups[j].(personId := pre[j].personId, albumId := pre[j].albumId)
    requires forall j | j in groups && j !in init :: pre[j] == groups[j]
    requires g == pre[k].(personId := g.personId, albumId := g.albumId)
    ensures var r := pre[k := g];
      && (forall j | j in groups :: r[j] == groups[j].(personId := r[j].personId, albumId := r[j].albumId))
      && (forall j | j in groups && j !in init + [k] :: r[j] == groups[j])
  {
  }

  /** After a successful stage every walked group holds a person id and an
      album id that the services link. */
  lemma {:induction false} PeopleStageLinked(env: Env, s: StoreState, order: seq<string>, groups: map<string, Group>)
    requires Covers(order, groups)
    ensures var r := PeopleStage(env, s, order, groups);
      r.outcome.Ok? ==> forall k | k in order :: Linked(r.after.profileAlbums, r.outcome.value[k])
    decreases |order|
  {
    if order != [] {
      var init, k := order[..|order| - 1], order[|order| - 1];
      var pre := PeopleStage(env, s, init, groups);
      PeopleStageLinked(env, s, init, groups);
      if pre.outcome.Ok? {
        var st := UpdatePerson(env, pre.after, pre.outcome.value[k]);
        UpdatePersonSetsIds(env, pre.after, pre.outcome.value[k]);
        UpdatePersonKeepsAllLinks(env, pre.after, pre.outcome.value[k]);
        if st.outcome.Ok? {
          LinkedStep(pre.after.profileAlbums, st.after.profileAlbums, pre.outcome.value, init, k, st.outcome.value);
        }
      }
    }
  }

  /** The stage's groups differ from the input only in the two ids, and
      groups the stage did not walk are unchanged. */
  lemma {:induction false} PeopleStageOnlyIds(env: Env, s: StoreState, order: seq<string>, groups: map<string, Group>)
    requires Covers(order, groups)
    ensures var r := PeopleStage(env, s, order, groups);
      r.outcome.Ok? ==>
        && (forall k | k in groups :: r.outcome.value[k] == groups[k].(personId := r.outcome.value[k].personId, albumId := r.outcome.value[k].albumId))
        && (forall k | k in groups && k !in order :: r.outcome.value[k] == groups[k])
    decreases |order|
  {
    if order != [] {
      var init, k := order[..|order| - 1], order[|order| - 1];
      var pre := PeopleStage(env, s, init, groups);
      PeopleStageOnlyIds(env, s, init, groups);
      if pre.outcome.Ok? {
        var st := UpdatePerson(env, pre.after, pre.outcome.value[k]);
        UpdatePersonSetsIds(env, pre.after, pre.outcome.value[k]);
        if st.outcome.Ok? {
          OnlyPersonIdsStep(groups, pre.outcome.value, init, k, st.outcome.value);
        }
      }
    }
  }

  /** After a successful stage every walked group holds a person id and an
      album id that the services link; groups differ from the input only in
      those two ids, and groups the stage did not walk are unchanged. */
  lemma PeopleStageComplete(env: Env, s: StoreState, order: seq<string>, groups: map<string, Group>)
    requires Covers(order, groups)
    ensures var r := PeopleStage(env, s, order, groups);
      r.outcome.Ok? ==>
        && (forall k | k in order :: Linked(r.after.profileAlbums, r.outcome.value[k]))
        && (forall k | k in groups :: r.outcome.value[k] == groups[k].(personId := r.outcome.value[k].personId, albumId := r.outcome.value[k].albumId))
        && (forall k | k in groups && k !in order :: r.outcome.value[k] == groups[k])
  {
    PeopleStageLinked(env, s, order, groups);
    PeopleStageOnlyIds(env, s, order, groups);
  }

  /** `_create_update_data_m7_biometry_service`: every group in key order;
      the first failure ends the stage and the run. */
  function OwnerStage(env: Env, s: StoreState, order: seq<string>, groups: map<string, Group>): (r: Step<Result<map<string, Group>, Error>>)
    requires Covers(order, groups)
    ensures r.reply.Ok? ==> r.reply.value.Keys == groups.Keys
    decreases |order|
  {
    if order == [] then Step(Ok(groups), s)
    else
      var pre := OwnerStage(env, s, order[..|order| - 1], groups);
      if pre.reply.Err? then pre
      else
        var k := order[|order| - 1];
        var st := UpdateOwner(env, pre.after, pre.reply.value[k]);
        Step(if st.reply.Err? then Err(st.reply.error) else Ok(pre.reply.value[k := st.reply.value]), st.after)
  }

  /** The owner stage adds owner records only, at the end of the
      collection, each with empty properties; nothing else changes. */
  lemma {:induction false} OwnerStageRecords(env: Env, s: StoreState, order: seq<string>, groups: map<string, Group>)
    requires Covers(order, groups)
    ensures var r := OwnerStage(env, s, order, groups);
      && r.after == s.(owners := r.after.owners, nextId := r.after.nextId)
      && |s.owners| <= |r.after.owners|
      && r.after.owners[..|s.owners|] == s.owners
      && (forall i | |s.owners| <= i < |r.after.owners| :: r.after.owners[i].attributes == map[])
    decreases |order|
  {
    if order != [] {
      var init, k := order[..|order| - 1], order[|order| - 1];
      var pre := OwnerStage(env, s, init, groups);
      OwnerStageRecords(env, s, init, groups);
      if pre.reply.Ok? {
        UpdateOwnerSearchThenCreate(env, pre.after, pre.reply.value[k]);
        var st := UpdateOwner(env, pre.after, pre.reply.value[k]);
        assert st.after.owners[..|pre.after.owners|] == pre.after.owners;
        assert st.after.owners[..|s.owners|] == pre.after.owners[..|s.owners|];
      }
    }
  }

  /** A successful owner step changes only the group's biometry id, and sets it. */
  lemma UpdateOwnerSetsId(env: Env, s: StoreState, g: Group)
    ensures var st := UpdateOwner(env, s, g);
      st.reply.Ok? ==> st.reply.value == g.(biometryId := st.reply.value.biometryId) && st.reply.value.biometryId.Some?
  {
  }

  /** The owner stage sets the biometry id of every walked group; its
      groups differ from the input only in that id, and groups the stage
      did not walk are unchanged. */
  lemma {:induction false} OwnerStageFillsIds(env: Env, s: StoreState, order: seq<string>, groups: map<string, Group>)
    requires Covers(order, groups)
    ensures var r := OwnerStage(env, s, order, groups);
      r.reply.Ok? ==>
        && (forall k | k in groups :: r.reply.value[k] == groups[k].(biometryId := r.reply.value[k].biometryId))
        && (forall k | k in groups && k !in order :: r.reply.value[k] == groups[k])
        && (forall k | k in groups && k in order :: r.reply.value[k].biometryId.Some?)
    decreases |order|
  {
    if order != [] {
      var init, k := order[..|order| - 1], order[|order| - 1];
      var pre := OwnerStage(env, s, init, groups);
      OwnerStageFillsIds(env, s, init, groups);
      if pre.reply.Ok? {
        var st := UpdateOwner(env, pre.after, pre.reply.value[k]);
        UpdateOwnerSetsId(env, pre.after, pre.reply.value[k]);
        if st.reply.Ok? {
          OnlyBiometryIdStep(groups, pre.reply.value, init, k, st.reply.value);
        }
      }
    }
  }

  /** Map-level step of `OwnerStageFillsIds`: updating key `k` with a group
      that differs from its old value only in the biometry id. */
  lemma OnlyBiometryIdStep(groups: map<string, Group>, pre: map<string, Group>, init: seq<string>, k: string, g: Group)
    requires k in groups && pre.Keys == groups.Keys
    requires forall j | j in groups :: pre[j] == groups[j].(biometryId := pre[j].biometryId)
    requires forall j | j in groups && j !in init :: pre[j] == groups[j]
    requires forall j | j in groups && j in init :: pre[j].biometryId.Some?
    requires g == pre[k].(biometryId := g.biometryId) && g.biometryId.Some?
    ensures var r := pre[k := g];
      && (forall j | j in groups :: r[j] == groups[j].(biometryId := r[j].biometryId))
      && (forall j | j in groups && j !in init + [k] :: r[j] == groups[j])
      && (forall j | j in groups && j in init + [k] :: r[j].biometryId.Some?)
  {
  }

  /** After a successful owner stage every walked group holds a biometry id
      and otherwise equals its input. */
  lemma OwnerStageComplete(env: Env, s: StoreState, order: seq<string>, groups: map<string, Group>)
    requires Covers(order, groups)
    ensures var r := OwnerStage(env, s, order, groups);
      r.reply.Ok? ==>
        && (forall k | k in order :: r.reply.value[k].biometryId.Some?)
        && (forall k | k in groups :: r.reply.value[k] == groups[k].(biometryId := r.reply.value[k].biometryId))
        && (forall k | k in groups && k !in order :: r.reply.value[k] == groups[k])
  {
    OwnerStageFillsIds(env, s, order, groups);
  }

  /** The first failure of the person stage is its result: once a prefix
      of the walk has failed, the rest of the walk does nothing. */
  lemma {:induction false} PeopleStageAbort(env: Env, s: StoreState, order: seq<string>, groups: map<string, Group>, i: nat)
    requires Covers(order, groups) && i <= |order|
    requires PeopleStage(env, s, order[..i], groups).outcome.Err?
    ensures PeopleStage(env, s, order, groups) == PeopleStage(env, s, order[..i], groups)
    decreases |order|
  {
    if i < |order| {
      var init := order[..|order| - 1];
      assert init[..i] == order[..i];
      PeopleStageAbort(env, s, init, groups, i);
    } else {
      assert order[..i] == order;
    }
  }

  /** The first failure of the owner stage is its result. */
  lemma {:induction false} OwnerStageAbort(env: Env, s: StoreState, order: seq<string>, groups: map<string, Group>, i: nat)
    requires Covers(order, groups) && i <= |order|
    requires OwnerStage(env, s, order[..i], groups).reply.Err?
    ensures OwnerStage(env, s, order, groups) == OwnerStage(env, s, order[..i], groups)
    decreases |order|
  {
    if i < |order| {
      var init := order[..|order| - 1];
      assert init[..i] == order[..i];
      OwnerStageAbort(env, s, init, groups, i);
    } else {
      assert order[..i] == order;
    }
  }
}
