# Biometry upload utility: a verified model of its core

The utility reads a folder of face photographs. Each photo is named after a
person, for example `Иванов_Иван_Иванович.jpg`. The utility then brings a set
of remote services in line with the folder:

- every person gets a person record in the people service;
- every person gets a photo album, linked to the person in the
  profile-album service;
- every person gets a biometry-owner record for the configured biometry
  type;
- every photo whose face passes the configured quality, mismatch and
  duplicate gates is uploaded as a template-and-image pair;
- a person's first uploaded photo also seeds their album, if the album is
  still empty.

This project models the core of that run in Dafny and proves what the code
promises about it. The core is three pieces:

- the filename parser and grouper;
- the reconciliation stages (people, albums, biometry owners);
- the enrollment stage, with its per-file gate and per-file error isolation.

It also models the decision logic of `EndpointServices`: the fixed query
shapes, get-or-create of albums, idempotent album assignment, the checks on
the ids in upload replies, and the photo-check gates.

The remote services are replaced by an in-memory store (module `Remote`).
Its state is the following:

- the people, biometry-owner and files collections;
- a blob store for download URLs;
- the person-to-album links;
- the albums and their photos;
- an id counter.

Everything the store cannot decide is a parameter:

- template derivation and the photo check are uninterpreted functions;
- the endpoint registry behind `get_url` is an uninterpreted function;
- the set of calls that fail (`down`) is fixed.

The local disk is a map from path to bytes, and the folder listing is an
input.

The code is imperative, so it is modelled as classes:

- `Remote.RemoteStore` holds the services' state in fields.
- `Endpoint.EndpointServices` wraps the store.
- `Upload.BiometryUpload` holds the two counters the run reports,
  `new_person` and `new_bio_templates`. Its methods follow the loops of the
  utility.

Each state-changing method is proved against a specification function over
the store's state. The function returns the reply and the new state, as in
`Endpoint.AlbumStep`, `Reconcile.PeopleStage`, `Enrollment.CreateTemplate`
and `Upload.Execution`. The properties of the run are lemmas about those
functions. `Enrollment.CreateTemplate` is split at the upload:
`Enrollment.Prepare` holds the checks before it, none of which changes the
services.

Modules, in dependency order:

| module | file | models |
|---|---|---|
| `Wrappers` | wrappers.dfy | `Option`, `Result`, `Outcome` |
| `Strings` | strings.dfy | `str.split`, `str.isascii`, Python string order, `list.sort` |
| `Grouper` | grouper.dfy | `_create_initial_data_for_m7_people` |
| `Grouping` | grouping.dfy | `_init_people_data` |
| `Listing` | listing.dfy | `_file_sort` and `_get_files` |
| `Remote` | remote.dfy | the remote services (environment) |
| `Endpoint` | endpoint.dfy | `EndpointServices` |
| `UrlFormat` | format.dfy | `str.format` with `{}` fields |
| `Settings` | settings.dfy | the configuration the core reads |
| `Reconcile` | reconcile.dfy | the people stage and the biometry-owner stage |
| `Enrollment` | enrollment.dfy | the template stage |
| `Upload` | upload.dfy | `execute_upload_biometry` and the class with the counters |

### Behaviour of the code a reader might not expect

- **Only non-ASCII name segments are kept.** Segments 1 and 2 of a filename
  become the first name and the patronymic only when they are not pure
  ASCII. So `Ivanov_Ivan_1.jpg` has the key `Ivanov`, not `Ivanov_Ivan`
  (`Grouper.AsciiTokensDropped`).
- **Some names collide.** A file with only a first name and a file with an
  ASCII first name followed by a non-ASCII patronymic can get the same key
  with different fields (`Grouper.FirstNameAndPatronymicCollide`).
- **An unknown biometry type fails each file, not the run.** The SDK lookup
  runs inside each file's `try`, so each file fails on its own and the rest
  of the run continues.
- **One upload per file.** The template and the image go up together in one
  POST, not as two uploads linked to each other. The image's properties
  name the biometry id, not the new template's id.
- **A failed person aborts the run.** The people and owner loops have no
  per-person `try`. Any failure there reaches the handler around the whole
  run and ends it, so no file is enrolled, not even those of the people
  already reconciled.
- **A second run re-uploads every photo.** Re-using people and owners is
  idempotent (`Reconcile.UpdatePersonIdempotent`,
  `Reconcile.UpdateOwnerIdempotent`). The template stage has no such check,
  so only the duplicate gate stops a photo that is already enrolled from
  being uploaded again.

## Model

The source cells are paths inside the utility's repository.

| member | source | states |
|---|---|---|
| `Strings.Split` | utility/execute_upload_biometry.py:82 | `str.split` always gives at least one piece, and no piece contains the separator |
| `Strings.JoinSplit` | utility/execute_upload_biometry.py:82 | joining the pieces with the separator gives the original string back |
| `Strings.SplitNoSep` | utility/execute_upload_biometry.py:82 | a string without the separator splits into itself alone |
| `Strings.SplitSingleton` | utility/execute_upload_biometry.py:82 | `str.split` gives a single piece exactly when the separator does not occur |
| `Strings.SplitConcat` | utility/execute_upload_biometry.py:82 | splitting `a + sep + b` gives the pieces of `a` followed by the pieces of `b` |
| `Strings.SplitTwo` | utility/execute_upload_biometry.py:82 | two separator-free parts joined by the separator split back into those two |
| `Strings.SplitThree` | utility/execute_upload_biometry.py:82 | three separator-free parts joined by the separator split back into those three |
| `Strings.FirstPieceIsPrefix` | utility/execute_upload_biometry.py:83 | the first piece of a split is a prefix of the string |
| `Strings.IsAscii` | utility/execute_upload_biometry.py:91-94 | no contract of its own; `str.isascii`: every character is below 128; its effect on the parse is stated by `Grouper.ParseOptionalFields`, `Grouper.ParseOfThree` and `Grouper.ParseOfTwo` |
| `Strings.LexLe` | utility/execute_upload_biometry.py:455 | no contract of its own; Python's string order (by code point, a prefix first); `LexLeReflexive`, `LexLeTotal`, `LexLeAntisymmetric` and `LexLeTransitive` make it a total order |
| `Strings.LexLeReflexive` | utility/execute_upload_biometry.py:455 | Python's string order is reflexive |
| `Strings.LexLeTotal` | utility/execute_upload_biometry.py:455 | any two strings are comparable |
| `Strings.LexLeAntisymmetric` | utility/execute_upload_biometry.py:455 | strings that are ordered both ways are equal |
| `Strings.LexLeTransitive` | utility/execute_upload_biometry.py:455 | the order is transitive |
| `Strings.SortedInsert` | utility/execute_upload_biometry.py:117 | inserting into a list adds exactly that one element to its multiset |
| `Strings.Sort` | utility/execute_upload_biometry.py:117 | `list.sort` permutes the list |
| `Strings.SortedInsertSorted` | utility/execute_upload_biometry.py:117 | inserting into a sorted list keeps it sorted |
| `Strings.SortSorted` | utility/execute_upload_biometry.py:117 | `list.sort` leaves the list sorted |
| `Strings.SortedHeads` | utility/execute_upload_biometry.py:117 | two sorted permutations of each other start with the same element |
| `Strings.MultisetTail` | utility/execute_upload_biometry.py:117 | dropping the head removes exactly that element from the multiset |
| `Strings.SortedUnique` | utility/execute_upload_biometry.py:117 | two sorted lists with the same elements are equal, so a sorted list is determined by its contents |
| `Strings.SortPermutationInvariant` | utility/execute_upload_biometry.py:117 | sorting gives the same list for any ordering of the same elements |
| `Grouper.NameSegments` | utility/execute_upload_biometry.py:82-84 | one segment per `_`-piece, with every piece but the last unchanged and no segment containing `_` |
| `Grouper.ParseName` | utility/execute_upload_biometry.py:75-102 | no contract of its own; the result of `_create_initial_data_for_m7_people` in closed form; `CreateInitialData` is proved equal to it, and `ParseLastName`, `ParseOptionalFields`, `LaterSegmentsIgnored`, `KeySegments` and `KeyDeterminesFields` state what it yields |
| `Grouper.KeyOf` | utility/execute_upload_biometry.py:86-96 | no contract of its own; the `full_name` of a person, built from the present fields; `SplitKey` and `KeySegments` state that it splits back into them |
| `Grouper.CreateInitialData` | utility/execute_upload_biometry.py:75-102 | the `enumerate` loop that rebinds `full_name` computes exactly the closed-form parse `ParseName` |
| `Grouper.ParseLastName` | utility/execute_upload_biometry.py:82-90 | the last name is segment 0 of the `_`-split, cut at its first `.` when it is the only segment; the key starts with it; a name without `_` has the last name as its key and no other fields |
| `Grouper.ParseOptionalFields` | utility/execute_upload_biometry.py:87-96 | the first name (patronymic) is present exactly when segment 1 (2) exists and is not pure ASCII, and it is then that segment |
| `Grouper.LaterSegmentsIgnored` | utility/execute_upload_biometry.py:87-96 | two names that agree on their first three segments parse the same, so segments past index 2 never matter |
| `Grouper.SplitKey` | utility/execute_upload_biometry.py:90-96 | splitting the key on `_` gives back exactly the present name fields, in order |
| `Grouper.KeySegments` | utility/execute_upload_biometry.py:90-96 | every parsed key splits into its own fields |
| `Grouper.KeyDeterminesFields` | utility/execute_upload_biometry.py:90-96 | two files with the same key and the same fields present have the same name fields |
| `Grouper.SegmentsOfThree` | utility/execute_upload_biometry.py:82-84 | `a_b_c` has segments `a`, `b` and `c` cut at its first `.` |
| `Grouper.SegmentsOfTwo` | utility/execute_upload_biometry.py:82-84 | `a_b` has segments `a` and `b` cut at its first `.` |
| `Grouper.StemOfJpg` | utility/execute_upload_biometry.py:83 | cutting `stem.jpg` at its first `.` gives the stem |
| `Grouper.ParseOfThree` | utility/execute_upload_biometry.py:75-102 | the parse of `last_first_stem.jpg`, field by field, as the ASCII test decides |
| `Grouper.ParseOfTwo` | utility/execute_upload_biometry.py:75-102 | the parse of `last_stem.jpg`, field by field |
| `Grouper.AsciiTokensDropped` | utility/execute_upload_biometry.py:91-96 | `Ivanov_Ivan_1.jpg` has the key `Ivanov` and no first name or patronymic |
| `Grouper.ParsePatronymicOnly` | utility/execute_upload_biometry.py:91-96 | after an ASCII segment 1, a non-ASCII segment 2 becomes the patronymic, with no first name |
| `Grouper.ParseFirstNameOnly` | utility/execute_upload_biometry.py:91-93 | a non-ASCII segment 1 becomes the first name |
| `Grouper.FirstNameAndPatronymicCollide` | utility/execute_upload_biometry.py:91-96 | a first-name-only name and a patronymic-only name give the same key but different fields |
| `Grouping.FilesWithKeyMembers` | utility/execute_upload_biometry.py:108-116 | a file is among those with a key exactly when it is listed and parses to that key |
| `Grouping.FilesWithKeyCount` | utility/execute_upload_biometry.py:108-116 | each file occurs among those with its key as often as in the listing, and not at all among the others |
| `Grouping.FilesWithKeyAppend` | utility/execute_upload_biometry.py:108-116 | a further file extends only its own key's list |
| `Grouping.KeySetAppend` | utility/execute_upload_biometry.py:108-116 | a further file adds only its own key to the key set |
| `Grouping.FirstFieldsAppend` | utility/execute_upload_biometry.py:112-116 | a further file supplies the fields of its key only when the key is new |
| `Grouping.GroupFiles` | utility/execute_upload_biometry.py:105-118 | no contract of its own; the dictionary `_init_people_data` builds; `GroupFilesAppend`, `GroupFilesClosedForm`, `GroupContents`, `GroupingCovers`, `GroupingSound` and `GroupingPartitions` state what it holds |
| `Grouping.KeysInOrder` | utility/execute_upload_biometry.py:105-118 | no contract of its own; the dictionary's insertion order; `KeysInOrderAppend`, `KeysInOrderDistinct`, `OrderMatchesGroups` and `OrderListsGroups` state it |
| `Grouping.GroupFilesAppend` | utility/execute_upload_biometry.py:112-117 | one loop step: a known key gets the file appended and its list re-sorted, and a new key gets a group of that one file with the file's fields |
| `Grouping.KeysInOrderAppend` | utility/execute_upload_biometry.py:112-116 | the dictionary's key order gains a key exactly when the key is new, at the end |
| `Grouping.KeysInOrderDistinct` | utility/execute_upload_biometry.py:105-118 | the key order lists every key of the listing exactly once |
| `Grouping.GroupFilesClosedForm` | utility/execute_upload_biometry.py:105-118 | a group exists exactly for each key of the listing; it holds the fields of the key's first file, the sorted files with that key, and no ids |
| `Grouping.OrderMatchesGroups` | utility/execute_upload_biometry.py:105-118 | the key order and the dictionary have the same keys |
| `Grouping.InitStep` | utility/execute_upload_biometry.py:108-117 | the in-place update of one iteration (append or a new group, then sort) takes the grouping of a prefix to the grouping of the prefix extended by one file |
| `Grouping.PrefixStep` | utility/execute_upload_biometry.py:108 | the listing's prefixes grow by one file per iteration |
| `Grouping.InitPeopleData` | utility/execute_upload_biometry.py:105-118 | the loop builds exactly the grouping of the whole listing, with its keys in first-seen order |
| `Grouping.GroupingCovers` | utility/execute_upload_biometry.py:105-118 | every listed file lands in the group of its own key |
| `Grouping.GroupingSound` | utility/execute_upload_biometry.py:105-118 | every file in a group is listed and parses to that group's key |
| `Grouping.FirstIndex` | utility/execute_upload_biometry.py:112-116 | the fields of a key come from the first listed file with that key |
| `Grouping.GroupContents` | utility/execute_upload_biometry.py:105-118 | each group's files are sorted and a permutation of the files with its key; its fields are those of the key's first file; it has no ids yet |
| `Grouping.OrderListsGroups` | utility/execute_upload_biometry.py:105-118 | the key order names each group once and nothing else |
| `Grouping.GroupingOrderIndependent` | utility/execute_upload_biometry.py:105-118 | the groups' keys and file lists do not depend on the order of the listing |
| `Grouping.FilesInOrder` | utility/execute_upload_biometry.py:396-401 | no contract of its own; the files the template stage walks, group by group in key order; `FilesInOrderCount`, `GroupingPartitions` and `FilesInOrderSameFiles` state what it yields |
| `Grouping.FilesInOrderCount` | utility/execute_upload_biometry.py:396-401 | walking distinct keys over groups that hold a file only under one key yields that file as often as that key's group holds it |
| `Grouping.LastKeyIsNew` | utility/execute_upload_biometry.py:396 | in a list of distinct keys the last one does not occur before |
| `Grouping.GroupFileCount` | utility/execute_upload_biometry.py:105-118 | a group holds a file as often as the listing does when the file has its key, and otherwise not at all |
| `Grouping.GroupingPartitions` | utility/execute_upload_biometry.py:105-118 | the groups, walked in key order, hold exactly the listed files: each file in exactly one group, as often as listed |
| `Grouping.FilesInOrderSameFiles` | utility/execute_upload_biometry.py:396-401 | the files walked depend only on the groups' file lists |
| `Listing.FileSortKey` | utility/execute_upload_biometry.py:451-452 | the sort key is a prefix of the name and contains no `_` |
| `Listing.InsertByKey` | utility/execute_upload_biometry.py:455 | no contract of its own; one step of the stable sort; `InsertByKeyPermutes`, `InsertByKeySorted` and `InsertByKeyStable` state it |
| `Listing.SortListing` | utility/execute_upload_biometry.py:451-456 | no contract of its own; `sorted(listdir, key=_file_sort)`; `SortListingSortedPermutation` and `SortListingStable` state it |
| `Listing.InsertByKeyPermutes` | utility/execute_upload_biometry.py:455 | inserting by key adds exactly that one name |
| `Listing.InsertByKeySorted` | utility/execute_upload_biometry.py:455 | inserting by key keeps the names ordered by key |
| `Listing.InsertByKeyBound` | utility/execute_upload_biometry.py:455 | a lower bound on all keys, the inserted name's included, still bounds every key after the insertion |
| `Listing.InsertByKeyStable` | utility/execute_upload_biometry.py:455 | an inserted name goes after the names with the same key |
| `Listing.WithSortKeyCons` | utility/execute_upload_biometry.py:455 | the names with a given key of `[a] + t`: `a` if it has the key, then those of `t` |
| `Listing.NoneWithSmallerKey` | utility/execute_upload_biometry.py:455 | a list ordered by key has no name with a key below its first key |
| `Listing.WithSortKeyAppend` | utility/execute_upload_biometry.py:455 | the names with a given key of `s + [x]`: those of `s`, then `x` if it has the key |
| `Listing.SortListingSortedPermutation` | utility/execute_upload_biometry.py:454-456 | `sorted(listdir, key=_file_sort)` is ordered by the prefix before the first `_` and is a permutation of the listing |
| `Listing.SortListingStable` | utility/execute_upload_biometry.py:454-456 | the sort is stable: names with equal prefixes keep their listing order |
| `Remote.Filtered` | utility/endpoint_service.py:64 | a filter answer never has more rows than the collection |
| `Remote.FilteredMembers` | utility/endpoint_service.py:64 | a row is in the answer exactly when it is in the collection and matches every field and attribute the filter names |
| `Remote.FilteredAppend` | utility/endpoint_service.py:64 | a new row is answered, last, exactly when it matches |
| `Remote.Page` | utility/endpoint_service.py:64 | a page has at most `limit` rows, the ones from `offset` on |
| `Remote.FirstPageEmpty` | utility/endpoint_service.py:64 | with a positive limit, the first page is empty exactly when the answer is |
| `Remote.PhotosIn` | utility/endpoint_service.py:286-291 | the photo list holds only photos of the albums asked for |
| `Remote.MintId` | utility/endpoint_service.py:78 | the services' new ids are non-empty and contain no `/` |
| `Remote.WithRow` | utility/endpoint_service.py:78 | adding a record appends it to its one collection and leaves the others alone |
| `Remote.RemoteStore.List` | utility/endpoint_service.py:64 | a list call answers the page of the matching rows, or fails when listing that collection is down |
| `Remote.RemoteStore.Add` | utility/endpoint_service.py:78 | an add call appends one record with a new id, or fails and changes nothing |
| `Remote.RemoteStore.ProfileGet` | utility/endpoint_service.py:150 | the profile-album lookup answers the known albums of the persons asked for |
| `Remote.RemoteStore.Assign` | utility/endpoint_service.py:182 | assigning sets the person's album, answering "already exists" and changing nothing when that link is already there |
| `Remote.RemoteStore.AddAlbum` | utility/endpoint_service.py:166 | adding an album appends one album with that name and a new id |
| `Remote.RemoteStore.PhotoList` | utility/endpoint_service.py:286-291 | the photo list answers the page of the photos of the albums asked for |
| `Remote.RemoteStore.UploadBiometry` | utility/endpoint_service.py:124-130 | the combined upload adds the template record and the image record with its download URL, and answers the template's id |
| `Remote.RemoteStore.UploadPhoto` | utility/endpoint_service.py:211-217 | a photo posted to `base/album` lands in that album and is answered with its file id; a URL that names no album fails |
| `Remote.RemoteStore.Download` | utility/endpoint_service.py:242-243 | a download answers the stored bytes of the URL, and fails for an unknown URL |
| `Remote.RemoteStore.DeriveTemplate` | utility/endpoint_service.py:107-110 | template derivation answers the uninterpreted SDK function of its inputs |
| `Remote.RemoteStore.CheckPhotos` | utility/endpoint_service.py:258-261 | the photo check answers the uninterpreted result lists of its inputs |
| `Endpoint.ListQuery` | utility/endpoint_service.py:61-64 | a missing filter becomes the empty filter; every query has no order, limit 100 and offset 0 |
| `Endpoint.NoFilterMatchesAll` | utility/endpoint_service.py:61 | the empty filter matches every record |
| `Endpoint.ListQueryAnswer` | utility/endpoint_service.py:61-67 | the answer is the first 100 matching records, or the first 100 records without a filter |
| `Endpoint.ListQueryNonEmpty` | utility/endpoint_service.py:61-67 | a filtered list is non-empty exactly when some record matches |
| `Endpoint.FilteredNonEmpty` | utility/endpoint_service.py:64 | a filter answer is non-empty exactly when some record matches |
| `Endpoint.GateVerdict` | utility/endpoint_service.py:264-269 | the gate decision fails only with a gate rejection |
| `Endpoint.Triggered` | utility/endpoint_service.py:264-269 | no contract of its own; the enabled gates that flag the candidate, in test order; `GateFirstDecides` states that the first one decides |
| `Endpoint.GateRejectsIff` | utility/endpoint_service.py:264-269 | the check rejects exactly when some enabled gate's list contains index 0, the candidate |
| `Endpoint.GateFirstDecides` | utility/endpoint_service.py:264-269 | the gates are checked in the order bad quality, mismatch, duplicate, and the first enabled and triggered gate names the error |
| `Endpoint.GatesOffNeverReject` | utility/endpoint_service.py:264-269 | with every toggle off the check never rejects |
| `Endpoint.UnflaggedPasses` | utility/endpoint_service.py:264-269 | a candidate absent from every result list passes, whatever the toggles |
| `Endpoint.ResponseId` | utility/endpoint_service.py:132-138 | the reply's id is accepted exactly when the key is present and non-empty; otherwise the upload fails with the missing key |
| `Endpoint.UploadPhotoUrl` | utility/endpoint_service.py:197-199 | no contract of its own; `'{}/{}'.format(url, album_id)`; `UploadPhotoUrlAddressesAlbum` and `UploadPhotoUrlLastSegment` state it |
| `Endpoint.UploadPhotoUrlAddressesAlbum` | utility/endpoint_service.py:197-199 | the photo upload URL `base/album_id` addresses exactly that album |
| `Endpoint.UploadPhotoUrlLastSegment` | utility/endpoint_service.py:197-199 | the album id is the last `/`-segment of the upload URL |
| `Endpoint.PhotoListEmptyIff` | utility/endpoint_service.py:280-291 | the photo list of an album is empty exactly when no photo belongs to it |
| `Endpoint.PhotosInEmpty` | utility/endpoint_service.py:280-291 | the photos of one album are empty exactly when none belongs to it |
| `Endpoint.AddPersonStep` | utility/endpoint_service.py:74-81 | no contract of its own; `add_data_m7_people` on the store; `EndpointServices.AddDataPeople` is proved equal to it, and `Reconcile.PersonIdSearchThenCreate` states what it adds |
| `Endpoint.AddOwnerStep` | utility/endpoint_service.py:84-92 | no contract of its own; `add_data_m7_biometry` on the store; `EndpointServices.AddDataBiometry` is proved equal to it, and `Reconcile.UpdateOwnerSearchThenCreate` states what it adds |
| `Endpoint.AlbumStep` | utility/endpoint_service.py:144-171 | no contract of its own; `get_album_id_by_person_id`; `AlbumGetOrCreate` states it, and `EndpointServices.GetAlbumIdByPersonId` is proved equal to it |
| `Endpoint.AssignStep` | utility/endpoint_service.py:173-188 | no contract of its own; `assign_person_id_to_album_id`; `AssignIdempotent` states it, and `EndpointServices.AssignPersonIdToAlbumId` is proved equal to it |
| `Endpoint.UploadBiometryStep` | utility/endpoint_service.py:118-141 | no contract of its own; `upload_m7_biometry`; `UploadBiometryRecords` and `Enrollment.UploadAddsImageFile` state it, and `EndpointServices.UploadM7Biometry` is proved equal to it |
| `Endpoint.UploadPhotoStep` | utility/endpoint_service.py:191-229 | no contract of its own; `upload_m7_photo_album`; `UploadPhotoLandsInAlbum` and `PhotosInAppend` state it, and `EndpointServices.UploadM7PhotoAlbum` is proved equal to it |
| `Endpoint.AlbumGetOrCreate` | utility/endpoint_service.py:149-167 | a truthy known album is returned and nothing is created; otherwise, when both calls succeed, exactly one album named `name` is created and its non-empty id returned; a failure changes nothing |
| `Endpoint.AssignIdempotent` | utility/endpoint_service.py:178-185 | assignment succeeds, links the person to the album and keeps the other links; assigning the same pair again gives the same result and state |
| `Endpoint.UploadBiometryRecords` | utility/endpoint_service.py:118-141 | a successful upload appends exactly the template record (id returned) and the image record, whose download URL holds the image |
| `Endpoint.UploadPhotoLandsInAlbum` | utility/endpoint_service.py:191-229 | a successful photo upload appends the photo to its album's list and leaves every other album's list unchanged |
| `Endpoint.PhotosInAppend` | utility/endpoint_service.py:286-291 | a new photo extends only its own album's list, at the end |
| `Endpoint.EndpointServices.constructor` | utility/endpoint_service.py:25-31 | the wrapper holds the services it is given |
| `Endpoint.EndpointServices.GetListByFilterFromUrl` | utility/endpoint_service.py:47-71 | the answer to the fixed query shape, or a failure naming the URL |
| `Endpoint.EndpointServices.AddDataPeople` | utility/endpoint_service.py:74-81 | adds one person record and returns its id, or fails with the utility's error and changes nothing |
| `Endpoint.EndpointServices.AddDataBiometry` | utility/endpoint_service.py:84-92 | adds one owner record with its properties and returns its id; a failure passes through |
| `Endpoint.EndpointServices.GetTemplateByImage` | utility/endpoint_service.py:95-115 | the SDK's template of the image, or the call's failure |
| `Endpoint.EndpointServices.UploadM7Biometry` | utility/endpoint_service.py:118-141 | the new state and reply are those of `UploadBiometryStep`; the reply's `template_id` goes through the id check |
| `Endpoint.EndpointServices.GetAlbumIdByPersonId` | utility/endpoint_service.py:144-171 | the lookup-then-create is the get-or-create `AlbumStep` |
| `Endpoint.EndpointServices.AssignPersonIdToAlbumId` | utility/endpoint_service.py:173-188 | an "already exists" reply counts as success, so the result and state are those of `AssignStep` |
| `Endpoint.EndpointServices.UploadM7PhotoAlbum` | utility/endpoint_service.py:191-229 | posts to `base/album_id`, and the photo lands in that album; the reply's `file_id` goes through the id check |
| `Endpoint.EndpointServices.GetFileBytes` | utility/endpoint_service.py:232-244 | the stored bytes of the download URL, or a failure |
| `Endpoint.EndpointServices.CheckBiorecordPhotos` | utility/endpoint_service.py:247-273 | the three tests in order are the gate decision on the service's answer; a failed call fails |
| `Endpoint.EndpointServices.GetPhotoListByFilter` | utility/endpoint_service.py:276-295 | the first 100 photos of exactly this album, or a failure |
| `UrlFormat.Format` | utility/execute_upload_biometry.py:69-70 | no contract of its own; `str.format` with `{}` fields, failing where Python raises; `FormatSucceedsIff`, `FormatLiteralPrefix`, `FormatField`, `FormatOneField` and `FormatTwoFields` state it |
| `UrlFormat.Prepend` | utility/execute_upload_biometry.py:69-70 | prefixing keeps success and failure |
| `UrlFormat.FormatSucceedsIff` | utility/execute_upload_biometry.py:69-70 | `str.format` succeeds exactly when every brace is part of `{{`, `}}` or `{}` and there are enough arguments |
| `UrlFormat.FormatLiteralPrefix` | utility/execute_upload_biometry.py:69-70 | text without braces is copied unchanged |
| `UrlFormat.FormatField` | utility/execute_upload_biometry.py:69-70 | a `{}` takes the next argument |
| `UrlFormat.FormatOneField` | utility/execute_upload_biometry.py:69-70 | a template with one field between literals gets its one argument |
| `UrlFormat.FormatTwoFields` | utility/execute_upload_biometry.py:69-70 | a template with two fields between literals gets its two arguments in order |
| `Reconcile.PersonFilter` | utility/execute_upload_biometry.py:134-146 | no contract of its own; the people filter; `PersonFilterFields` and `CreatedPersonMatches` state it |
| `Reconcile.PersonRecord` | utility/execute_upload_biometry.py:156-162 | no contract of its own; the person record that would be created; `PersonFilterFields` and `PersonIdSearchThenCreate` state it |
| `Reconcile.PersonIdStep` | utility/execute_upload_biometry.py:149-167 | no contract of its own; search, then create; `PersonIdSearchThenCreate` and `PersonIdIdempotent` state it |
| `Reconcile.AlbumLinkStep` | utility/execute_upload_biometry.py:169-174 | no contract of its own; get the album, then assign it; `AlbumLinkLinks`, `AlbumLinkIdempotent` and `AlbumLinkKeepsLinks` state it |
| `Reconcile.UpdatePerson` | utility/execute_upload_biometry.py:128-177 | no contract of its own; one iteration of the people stage; `UpdatePersonLinks`, `UpdatePersonSetsIds`, `UpdatePersonKeepsAllLinks` and `UpdatePersonIdempotent` state it, and `Upload.BiometryUpload.UpdatePersonData` is proved equal to it |
| `Reconcile.PersonFilterFields` | utility/execute_upload_biometry.py:134-146 | the person filter always names the last name, names the first name and the patronymic exactly when they are truthy, and asks for the values of the record that would be created |
| `Reconcile.CreatedPersonMatches` | utility/execute_upload_biometry.py:134-166 | a record created from the fields matches the filter built from them, so a later lookup finds it |
| `Reconcile.PersonIdSearchThenCreate` | utility/execute_upload_biometry.py:149-167 | a found person is reused (element 0's id) with nothing created; otherwise exactly one record with exactly the present fields is created and its id used; nothing else changes |
| `Reconcile.PersonIdIdempotent` | utility/execute_upload_biometry.py:149-167 | repeating the lookup after it succeeded finds the same person and creates nothing |
| `Reconcile.AlbumLinkLinks` | utility/execute_upload_biometry.py:169-174 | after getting and assigning the album the person is linked to a truthy album, the returned one; people, owners, files and photos are untouched |
| `Reconcile.AlbumLinkIdempotent` | utility/execute_upload_biometry.py:169-174 | getting and assigning the album again returns the same album and changes nothing |
| `Reconcile.UpdatePersonLinks` | utility/execute_upload_biometry.py:128-177 | one iteration fills in the group's person id and album id and nothing else; the services link the two; the people grow by one record exactly when one was created |
| `Reconcile.UpdatePersonIdempotent` | utility/execute_upload_biometry.py:128-177 | reconciling a person again gives the same group, changes nothing and creates no person |
| `Reconcile.OwnerFilter` | utility/execute_upload_biometry.py:195-202 | no contract of its own; the owner filter on person id and biometry type; `UpdateOwnerSearchThenCreate` and `UpdateOwnerIdempotent` state how it is used |
| `Reconcile.OwnerRecord` | utility/execute_upload_biometry.py:212-216 | no contract of its own; the owner record that would be created; `UpdateOwnerSearchThenCreate` states it |
| `Reconcile.UpdateOwner` | utility/execute_upload_biometry.py:193-221 | no contract of its own; one iteration of the owner stage; `UpdateOwnerSearchThenCreate`, `UpdateOwnerSetsId` and `UpdateOwnerIdempotent` state it, and `Upload.BiometryUpload.UpdateOwnerData` is proved equal to it |
| `Reconcile.UpdateOwnerSearchThenCreate` | utility/execute_upload_biometry.py:193-221 | the owner is looked up by person id and biometry type; a found owner is reused (element 0's id) with nothing changed; otherwise exactly one owner with empty properties is created; only the group's biometry id changes |
| `Reconcile.UpdateOwnerIdempotent` | utility/execute_upload_biometry.py:193-221 | a second owner step finds the record instead of creating one: it gives the same group and changes nothing |
| `Reconcile.PeopleStage` | utility/execute_upload_biometry.py:121-181 | the people stage keeps the dictionary's keys |
| `Reconcile.AlbumLinkKeepsLinks` | utility/execute_upload_biometry.py:169-174 | linking one person keeps every other truthy link |
| `Reconcile.UpdatePersonKeepsLinks` | utility/execute_upload_biometry.py:125-177 | a later person's reconciliation keeps an earlier person's link |
| `Reconcile.PeopleStageCounts` | utility/execute_upload_biometry.py:125-181 | the people collection grows at its end by the number of people created (the `new_person` increments); owners, files and photos are untouched |
| `Reconcile.PeopleStageComplete` | utility/execute_upload_biometry.py:125-181 | after a successful stage every walked group holds a person id and an album id that the services link, nothing else in the groups changed, and an unwalked group is unchanged |
| `Reconcile.PeopleStageLinked` | utility/execute_upload_biometry.py:125-181 | after a successful stage every walked group holds a person id and an album id that the services link |
| `Reconcile.PeopleStageOnlyIds` | utility/execute_upload_biometry.py:125-181 | the stage changes only the person id and the album id of each group, and a group it did not walk is unchanged |
| `Reconcile.PeopleStageStep` | utility/execute_upload_biometry.py:125-177 | one loop step reconciles the next key's group in the services left by the earlier ones, or ends the stage with its failure |
| `Reconcile.UpdatePersonSetsIds` | utility/execute_upload_biometry.py:149-177 | a successful person step changes only the group's person id and album id, and links the two |
| `Reconcile.UpdatePersonKeepsAllLinks` | utility/execute_upload_biometry.py:169-174 | a person step keeps every link that already held |
| `Reconcile.LinkedStep` | utility/execute_upload_biometry.py:176-177 | storing a newly linked group under its key keeps every earlier walked group linked when the links only grow |
| `Reconcile.OnlyPersonIdsStep` | utility/execute_upload_biometry.py:176-177 | storing a group that differs only in its two ids keeps the groups differing from the input only in those ids, and the unwalked ones unchanged |
| `Reconcile.OwnerStage` | utility/execute_upload_biometry.py:184-224 | the owner stage keeps the dictionary's keys |
| `Reconcile.OwnerStageRecords` | utility/execute_upload_biometry.py:184-224 | the owner stage only appends owner records, each with empty properties, and changes nothing else |
| `Reconcile.OwnerStageComplete` | utility/execute_upload_biometry.py:184-224 | after a successful stage every walked group holds a biometry id, nothing else in the groups changed, and an unwalked group is unchanged |
| `Reconcile.OwnerStageFillsIds` | utility/execute_upload_biometry.py:184-224 | the owner stage sets the biometry id of every walked group, changes nothing else in the groups, and leaves unwalked groups unchanged |
| `Reconcile.UpdateOwnerSetsId` | utility/execute_upload_biometry.py:193-221 | a successful owner step changes only the group's biometry id, and sets it |
| `Reconcile.OnlyBiometryIdStep` | utility/execute_upload_biometry.py:210-221 | storing a group that differs only in a set biometry id keeps the groups differing from the input only in that id, with every walked one set |
| `Reconcile.PeopleStageAbort` | utility/execute_upload_biometry.py:125-181 | there is no per-person `try`: once a person fails, the stage's result is that failure |
| `Reconcile.OwnerStageAbort` | utility/execute_upload_biometry.py:190-224 | once an owner step fails, the stage's result is that failure |
| `Enrollment.SdkTypeFor` | utility/execute_upload_biometry.py:58-62 | only the Luna biometry type id maps to `lunasdk`; any other id fails |
| `Enrollment.BiometryUploadUrl` | utility/execute_upload_biometry.py:65-71 | no contract of its own; `_get_biometry_upload_url`; `BiometryUploadUrlBuilt` states when it can be built and what it gives |
| `Enrollment.BiometryUploadUrlBuilt` | utility/execute_upload_biometry.py:65-71 | the upload URL can be built exactly when the template is well formed with at most two fields; `a{}b{}c` gets the protocol and the domain in that order |
| `Enrollment.ImageFiles` | utility/execute_upload_biometry.py:250-260 | no contract of its own; the image files of a biometry; `UploadAddsImageFile` and `FilteredPair` state how an upload changes them |
| `Enrollment.TemplatesOf` | utility/execute_upload_biometry.py:264-271 | no contract of its own; the loop over the download URLs; `TemplatesOfFiles`, `TemplatesOfStep` and `TemplatesOfAbort` state it |
| `Enrollment.CurrentTemplates` | utility/execute_upload_biometry.py:254-273 | no contract of its own; `_get_all_current_templates_by_biometry_id`; `GateSeesCandidateFirst` and `GateSkippedWithoutTemplates` state how the gate uses it, and `Upload.BiometryUpload.GetAllCurrentTemplates` is proved equal to it |
| `Enrollment.TemplateOfFile` | utility/execute_upload_biometry.py:264-270 | a file's template is derived exactly when it has a download URL, the download succeeds and derivation succeeds; it is the SDK's template of the stored bytes |
| `Enrollment.TemplatesOfFiles` | utility/execute_upload_biometry.py:264-273 | the current set is one derived template per image file, in list order, and fails if any file fails |
| `Enrollment.TemplatesOfStep` | utility/execute_upload_biometry.py:265-271 | one loop step appends the next file's template, or keeps the first failure |
| `Enrollment.TemplatesOfAbort` | utility/execute_upload_biometry.py:265-271 | once a file fails, the loop's result is that failure |
| `Enrollment.UploadForm` | utility/execute_upload_biometry.py:321-357 | no contract of its own; the form of the combined upload; `UploadRowsKinds` and `UploadAddsImageFile` state what it adds |
| `Enrollment.UploadAddsImageFile` | utility/execute_upload_biometry.py:343-362 | an upload adds exactly one record to the biometry's image files, whose download URL holds the image, so later files are checked against it |
| `Enrollment.FilteredPair` | utility/execute_upload_biometry.py:250-260 | a lookup over the files sees, of a template record followed by an image record, only the image |
| `Enrollment.UploadRowsKinds` | utility/execute_upload_biometry.py:321-357 | of the two records uploaded, the template is not an image file of the biometry and the image is |
| `Enrollment.CheckGate` | utility/execute_upload_biometry.py:303-311 | no contract of its own; `check_biorecord_photos` on the candidate and the current templates; `GateSeesCandidateFirst` and `GateSkippedWithoutTemplates` state when it decides |
| `Enrollment.Prepare` | utility/execute_upload_biometry.py:281-341 | no contract of its own; the checks before the upload; `PreparedFromFile` states what it hands on, and `GateSeesCandidateFirst` and `GateSkippedWithoutTemplates` state the gate inside it |
| `Enrollment.PreparedFromFile` | utility/execute_upload_biometry.py:281-341 | what reaches the upload is the group's own ids, the bytes of the file and the SDK's template of those bytes, only for the Luna type and a buildable URL |
| `Enrollment.CreateTemplate` | utility/execute_upload_biometry.py:277-371 | no contract of its own; `_create_template_by_file`; `CreateTemplateUploads`, `CreateTemplateOutcome`, `CreateTemplateSeeds` and `GateSeesCandidateFirst` state it, and `Upload.BiometryUpload.CreateTemplateByFile` is proved equal to it |
| `Enrollment.GrewTransitive` | utility/execute_upload_biometry.py:401-410 | uploads add up along a sequence of files |
| `Enrollment.CreateTemplateUploads` | utility/execute_upload_biometry.py:281-371 | a file adds two file records exactly when it was uploaded and otherwise changes nothing; people, owners and links are never changed |
| `Enrollment.CreateTemplateOutcome` | utility/execute_upload_biometry.py:281-371 | a file that ended well was uploaded (counted), and a rejected file was not |
| `Enrollment.GateSkippedWithoutTemplates` | utility/execute_upload_biometry.py:303-311 | with no current templates the photo check is never asked: its answer and its failure do not affect the file |
| `Enrollment.GateSeesCandidateFirst` | utility/execute_upload_biometry.py:291-311 | with current templates the file is rejected exactly when the gates fail on the check of the candidate followed by the current set |
| `Enrollment.SeedAlbum` | utility/execute_upload_biometry.py:374-389 | no contract of its own; `add_photo_to_photo_album`; `SeedAlbumOnlyEmpty` states it, and `Upload.BiometryUpload.AddPhotoToPhotoAlbum` is proved equal to it |
| `Enrollment.SeededTransitive` | utility/execute_upload_biometry.py:401-410 | seeding at most once composes along a sequence of files |
| `Enrollment.SeededReflexive` | utility/execute_upload_biometry.py:380-389 | doing nothing seeds nothing |
| `Enrollment.SeedAlbumOnlyEmpty` | utility/execute_upload_biometry.py:380-389 | a photo is uploaded only into an album whose list is empty, and at most one; nothing but the photos changes |
| `Enrollment.CreateTemplateSeeds` | utility/execute_upload_biometry.py:365-369 | processing a file seeds an album at most once, and only an empty one |
| `Enrollment.EnrollFiles` | utility/execute_upload_biometry.py:401-410 | no contract of its own; the per-file `try` loop; `EnrollFilesStep`, `EnrollFilesResults`, `EnrollFilesGrow` and `EnrollFilesSeeds` state it, and `Upload.BiometryUpload.CreateTemplatesForGroup` is proved equal to it |
| `Enrollment.EnrollPeople` | utility/execute_upload_biometry.py:392-410 | no contract of its own; the template stage; `EnrollPeopleResults`, `EnrollPeopleGrow` and `EnrollPeopleSeeds` state it, and `Upload.BiometryUpload.CreateTemplates` is proved equal to it |
| `Enrollment.EnrollFilesStep` | utility/execute_upload_biometry.py:401-410 | one loop step adds the next file's result and state |
| `Enrollment.UploadsConcat` | utility/execute_upload_biometry.py:362 | the number of uploads of a log is additive |
| `Enrollment.UploadsSnoc` | utility/execute_upload_biometry.py:362 | one more file adds one to the count exactly when it was uploaded |
| `Enrollment.EnrollFilesResults` | utility/execute_upload_biometry.py:401-410 | per-file isolation: every file of a person gets exactly one result, in order, whatever happened before it, and a file that ended well was uploaded |
| `Enrollment.EnrollFilesGrow` | utility/execute_upload_biometry.py:401-410 | a person's files add two records per upload, at the end, and change no person, owner or link |
| `Enrollment.EnrollFilesSeeds` | utility/execute_upload_biometry.py:401-410 | a person's files seed each album at most once, and only an empty one |
| `Enrollment.EnrollPeopleResults` | utility/execute_upload_biometry.py:392-410 | every file of every person, in key order, gets exactly one result, and a file that ended well was uploaded |
| `Enrollment.EnrollPeopleGrow` | utility/execute_upload_biometry.py:392-410 | the template stage adds two file records per upload, at the end, and changes no person, owner or link |
| `Enrollment.EnrollPeopleSeeds` | utility/execute_upload_biometry.py:392-410 | each album receives at most one seed over the whole stage, and only while it is empty |
| `Upload.CoversGrouping` | utility/execute_upload_biometry.py:423 | every key of the key order has a group |
| `Upload.GroupListing` | utility/execute_upload_biometry.py:422-423 | the grouping of the sorted listing has a group for every key it orders |
| `Upload.Execution` | utility/execute_upload_biometry.py:413-443 | no contract of its own; the whole run; `ExecutionCounts`, `ExecutionAbortEnrollsNothing`, `ExecutionTriesEveryFile` and `ExecutionReconcilesBeforeEnrolling` state it, and `Upload.BiometryUpload.ExecuteUploadBiometry` is proved equal to it |
| `Upload.ExecutionCounts` | utility/execute_upload_biometry.py:413-440 | the reported `new_person` is the number of people records added and `new_bio_templates` the number of uploads, two file records each; both collections only grow at their end |
| `Upload.ExecutionAbortEnrollsNothing` | utility/execute_upload_biometry.py:421-443 | a failure of the people or owner stage ends the run with no upload and no photo |
| `Upload.ExecutionTriesEveryFile` | utility/execute_upload_biometry.py:421-429 | a run that reaches the template stage tries every listed file exactly once, and a file that ended well was uploaded |
| `Upload.ExecutionReconcilesBeforeEnrolling` | utility/execute_upload_biometry.py:425-429 | when the template stage starts, every group has a linked person and album, a biometry id, and its files |
| `Upload.BiometryUpload.constructor` | utility/execute_upload_biometry.py:28-33 | the run holds its configuration, the disk and the endpoint services, and both counters start at zero |
| `Upload.BiometryUpload.UpdatePersonData` | utility/execute_upload_biometry.py:128-177 | one iteration of the people loop is `UpdatePerson`, with `new_person` up by one exactly when a person was created |
| `Upload.BiometryUpload.CreateUpdatePeople` | utility/execute_upload_biometry.py:121-181 | the people loop, stopping at the first failure, is `PeopleStage`, and `new_person` grows by the people created |
| `Upload.BiometryUpload.UpdateOwnerData` | utility/execute_upload_biometry.py:193-222 | one iteration of the owner loop is `UpdateOwner`; no counter changes |
| `Upload.BiometryUpload.CreateUpdateBiometry` | utility/execute_upload_biometry.py:184-224 | the owner loop, stopping at the first failure, is `OwnerStage`; no counter changes |
| `Upload.BiometryUpload.GetAllCurrentTemplates` | utility/execute_upload_biometry.py:243-273 | the current set is one derived template per image file of the biometry, in list order, or empty when there is none; nothing changes |
| `Upload.BiometryUpload.AddPhotoToPhotoAlbum` | utility/execute_upload_biometry.py:374-389 | the photo is uploaded only when the album's list is empty (`SeedAlbum`) |
| `Upload.BiometryUpload.CreateTemplateByFile` | utility/execute_upload_biometry.py:277-371 | one file is `CreateTemplate`, and `new_bio_templates` is up by one exactly when the upload succeeded |
| `Upload.BiometryUpload.CreateTemplatesForGroup` | utility/execute_upload_biometry.py:401-410 | the per-file `try` loop is `EnrollFiles`, and `new_bio_templates` grows by the uploads |
| `Upload.BiometryUpload.CreateTemplates` | utility/execute_upload_biometry.py:392-410 | the template stage is `EnrollPeople`, and `new_bio_templates` grows by the uploads |
| `Upload.BiometryUpload.ExecuteUploadBiometry` | utility/execute_upload_biometry.py:413-445 | the run is `Execution`: sort, group, people, owners, templates; the counters grow by what it reports |

## Left out

- HTTP and JSON-RPC transport are not modelled: `aiohttp`, `FormData`, JSON decoding and the base64 encoding of images. Each remote call is one method of the in-memory store, and its failure is a member of the fixed set `down`.
- The service token, the endpoints port, `service_token.start()` and `stop_services` are outside the core and are not modelled.
- `get_url` is a total function, the store's `urlOf`. Its error path (it raises a string, which itself fails) is not modelled.
- Reading the image file in 1024-byte chunks (`_get_file_image_bytes`) and `os.listdir` are I/O. The disk is a map from path to bytes, and the listing is an input.
- `utility/init_utility.py` (argument parsing, configuration merge, log setup) is not part of this model. The configuration values the core reads are the `Settings.Config` record.
- The root-level `execute_upload_biometry.py`, `main.py`, `utility/main.py`, `const.py`, `utility/const.py` and `utility_exceptions.py` are not part of this model: they are an incomplete duplicate, entry points, constants and bare exception classes. Field names are a datatype, and the exceptions are the `Endpoint.Error` datatype.
- `M7_PHOTO_ALBUM_ID` is imported from a constants file that does not define it. The photo-list filter is modelled as filtering on the album id.
- Concurrency is not modelled. The run is sequential, and races between concurrent runs' search-then-create sequences are out of scope.
- Logging and `print` are not modelled. The template stage's logged failures are returned as the per-file log `FileResult`.
- A failure is a fixed set of failing call kinds. A call that fails once fails throughout the run, and no call fails intermittently.
- The `KeyError`s of reading `faceQuality`, `hash`, `quality` and `hashType` from a derived template are not modelled: a template always has those fields.
- Python truthiness is modelled only for the empty string and the empty list. Other falsy JSON values in replies are not modelled.
- Remote.RemoteStore.UploadBiometry: the upload does not use the built biometry upload URL to choose its destination. The model only requires that the URL can be built.
- Remote.RemoteStore.UploadBiometry: the stand-in services always answer with a truthy id, so the missing-id errors of `Endpoint.ResponseId` are decided but never reached against the store.
- UrlFormat.Format: numbered and named fields and format specifications in the URL template are rejected. `str.format` would accept some of them.
- Remote.RemoteStore.Download: an unknown download URL fails. The real file service's answer to it is unspecified.
- Reconcile.PeopleStage: ids are compared and stored as strings. A lookup's element 0 always has an id, so the `None` that `.get(...)` could return is not modelled.
- Reconcile.UpdatePersonIdempotent: proved for one person at a time. The idempotence of a whole second run is not stated.
- Remote.Filtered: a filtered list is answered in the order the records were added. The source asks with an empty `order` and leaves the order to the service; the model fixes it to insertion order, so element 0 in `Reconcile.PersonIdStep` and `Reconcile.UpdateOwner` is the oldest match, and the 100-row page behind `Enrollment.ImageFiles` holds the oldest 100 image files.
- Endpoint.EndpointServices.GetListByFilterFromUrl: the collection is chosen by an argument, and the URL only names the failure. The callers pair `config.peopleUrl` with the people, `get_url('m7:biometry')` with the biometry owners and `config.filesUrl` with the files, where the source chooses the service by the URL.
- Endpoint.EndpointServices.AddDataPeople: the URL is not used; the record always goes to the people, which is where its only caller, with `config.peopleUrl`, sends it.
- Endpoint.EndpointServices.AddDataBiometry: the URL is not used; the record always goes to the biometry owners, which is where its only caller, with `get_url('m7:biometry')`, sends it.
