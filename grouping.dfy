/** The grouping of a listing into `people_data` (`_init_people_data`): one
    group per grouping key, holding the name fields of the first file with
    that key and the sorted list of all files with that key. */
module Grouping {
  import opened Wrappers
  import opened Strings
  import opened Grouper

  /** The grouping is stated for any parser `parse`; the utility uses
      `Grouper.ParseName`. Keeping the parser abstract keeps its string
      reasoning out of the grouping proofs. */
  type Parser = string -> ParsedName

  /** The files of `files` whose key is `key`, in their order. */
  function FilesWithKey(parse: Parser, files: seq<string>, key: string): seq<string>
    decreases |files|
  {
    if files == [] then []
    else
      FilesWithKey(parse, files[..|files| - 1], key)
        + (if parse(files[|files| - 1]).fullName == key then [files[|files| - 1]] else [])
  }

  /** The keys that occur among `files`. */
  function KeySet(parse: Parser, files: seq<string>): set<string> {
    set f | f in files :: parse(f).fullName
  }

  /** The name fields of the first file with key `key`. */
  function FirstFields(parse: Parser, files: seq<string>, key: string): PersonFields
    requires key in KeySet(parse, files)
    decreases |files|
  {
    if parse(files[0]).fullName == key then parse(files[0]).fields
    else
      assert key in KeySet(parse, files[1..]) by {
        var f :| f in files && parse(f).fullName == key;
        assert f != files[0];
        var i :| 0 <= i < |files| && files[i] == f;
        assert files[1..][i - 1] == f;
      }
      FirstFields(parse, files[1..], key)
  }

  /** The keys in order of first occurrence: the insertion order of
      `people_data`, and so the order of every later loop over it. */
  function KeysInOrder(parse: Parser, files: seq<string>): seq<string>
    decreases |files|
  {
    if files == [] then []
    else
      var keys := KeysInOrder(parse, files[..|files| - 1]);
      var key := parse(files[|files| - 1]).fullName;
      if key in keys then keys else keys + [key]
  }

  /** `people_data` after the files of `files` have been processed in turn:
      a new key opens a group with the file's fields, a known key keeps its
      fields, and either way the group's list gets the file and is re-sorted.
      No remote identifiers are set yet. */
  function GroupFiles(parse: Parser, files: seq<string>): map<string, Group>
    decreases |files|
  {
    if files == [] then map[]
    else
      var groups := GroupFiles(parse, files[..|files| - 1]);
      var x := files[|files| - 1];
      var key := parse(x).fullName;
      if key in groups then groups[key := groups[key].(files := Sort(groups[key].files + [x]))]
      else groups[key := Group(parse(x).fields, Sort([x]), None, None, None)]
  }

  lemma {:induction false} FilesWithKeyMembers(parse: Parser, files: seq<string>, key: string, f: string)
    ensures f in FilesWithKey(parse, files, key) <==> f in files && parse(f).fullName == key
    decreases |files|
  {
    if files != [] {
      var init := files[..|files| - 1];
      FilesWithKeyMembers(parse, init, key, f);
      assert files == init + [files[|files| - 1]];
    }
  }

  /** How many times `f` occurs in `FilesWithKey(parse, files, key)`. */
  lemma {:induction false} FilesWithKeyCount(parse: Parser, files: seq<string>, key: string, f: string)
    ensures multiset(FilesWithKey(parse, files, key))[f] == if parse(f).fullName == key then multiset(files)[f] else 0
    decreases |files|
  {
    if files != [] {
      var init := files[..|files| - 1];
      FilesWithKeyCount(parse, init, key, f);
      assert files == init + [files[|files| - 1]];
      assert multiset(files) == multiset(init) + multiset{files[|files| - 1]};
    }
  }

  lemma FilesWithKeyAppend(parse: Parser, files: seq<string>, x: string, k: string)
    ensures FilesWithKey(parse, files + [x], k) == FilesWithKey(parse, files, k) + if parse(x).fullName == k then [x] else []
  {
    var s := files + [x];
    assert s[..|s| - 1] == files;
  }

  lemma KeySetAppend(parse: Parser, files: seq<string>, x: string)
    ensures KeySet(parse, files + [x]) == KeySet(parse, files) + {parse(x).fullName}
  {
  }

  lemma {:induction false} FirstFieldsAppend(parse: Parser, files: seq<string>, x: string, key: string)
    requires key in KeySet(parse, files + [x])
    ensures FirstFields(parse, files + [x], key) ==
      if key in KeySet(parse, files) then FirstFields(parse, files, key) else parse(x).fields
    decreases |files|
  {
    if files == [] {
      assert [] + [x] == [x];
    } else {
      var s := files + [x];
      assert s[0] == files[0];
      if parse(files[0]).fullName != key {
        assert s[1..] == files[1..] + [x];
        assert key in KeySet(parse, files[1..] + [x]) by {
          var f :| f in s && parse(f).fullName == key;
          assert f in files[1..] + [x] by {
            var i :| 0 <= i < |s| && s[i] == f;
            assert i > 0;
            assert (files[1..] + [x])[i - 1] == f;
          }
        }
        if key in KeySet(parse, files) {
          assert key in KeySet(parse, files[1..]) by {
            var f :| f in files && parse(f).fullName == key;
            var i :| 0 <= i < |files| && files[i] == f;
            assert i > 0 && files[1..][i - 1] == f;
          }
        } else {
          forall f | f in files[1..] ensures parse(f).fullName != key {
            assert f in files;
          }
        }
        FirstFieldsAppend(parse, files[1..], x, key);
      } else {
        assert files[0] in files;
      }
    }
  }

  lemma GroupFilesAppend(parse: Parser, files: seq<string>, x: string)
    ensures var groups, key := GroupFiles(parse, files), parse(x).fullName;
      GroupFiles(parse, files + [x]) ==
        if key in groups then groups[key := groups[key].(files := Sort(groups[key].files + [x]))]
        else groups[key := Group(parse(x).fields, Sort([x]), None, None, None)]
  {
    var s := files + [x];
    assert s[..|s| - 1] == files;
  }

  lemma KeysInOrderAppend(parse: Parser, files: seq<string>, x: string)
    ensures KeysInOrder(parse, files + [x]) ==
      if parse(x).fullName in KeysInOrder(parse, files) then KeysInOrder(parse, files)
      else KeysInOrder(parse, files) + [parse(x).fullName]
  {
    var s := files + [x];
    assert s[..|s| - 1] == files;
  }

  /** The order of the groups lists each key that occurs, and each once. */
  lemma {:induction false} KeysInOrderDistinct(parse: Parser, files: seq<string>)
    ensures forall i, j | 0 <= i < j < |KeysInOrder(parse, files)| :: KeysInOrder(parse, files)[i] != KeysInOrder(parse, files)[j]
    ensures forall k :: k in KeysInOrder(parse, files) <==> k in KeySet(parse, files)
    decreases |files|
  {
    if files != [] {
      var init := files[..|files| - 1];
      KeysInOrderDistinct(parse, init);
      assert files == init + [files[|files| - 1]];
      assert KeySet(parse, files) == KeySet(parse, init) + {parse(files[|files| - 1]).fullName};
    }
  }

  /** The groups in closed form: there is a group for exactly the keys that
      occur, holding the fields of the first file with its key and the
      sorted list of all files with its key. */
  lemma {:induction false} GroupFilesClosedForm(parse: Parser, files: seq<string>, k: string)
    ensures k in GroupFiles(parse, files) <==> k in KeySet(parse, files)
    ensures k in KeySet(parse, files) ==>
      GroupFiles(parse, files)[k] == Group(FirstFields(parse, files, k), Sort(FilesWithKey(parse, files, k)), None, None, None)
    decreases |files|
  {
    if files != [] {
      var init, x := files[..|files| - 1], files[|files| - 1];
      assert files == init + [x];
      GroupFilesClosedForm(parse, init, k);
      KeySetAppend(parse, init, x);
      FilesWithKeyAppend(parse, init, x, k);
      if k in KeySet(parse, files) {
        FirstFieldsAppend(parse, init, x, k);
        var fw := FilesWithKey(parse, init, k);
        if k != parse(x).fullName {
          assert FilesWithKey(parse, files, k) == fw;
        } else if k in KeySet(parse, init) {
          assert FilesWithKey(parse, files, k) == fw + [x];
          assert multiset(Sort(fw) + [x]) == multiset(fw + [x]);
          SortPermutationInvariant(Sort(fw) + [x], fw + [x]);
        } else {
          assert fw == [] by {
            if fw != [] {
              FilesWithKeyMembers(parse, init, k, fw[0]);
            }
          }
          assert FilesWithKey(parse, files, k) == [x];
        }
      }
    }
  }

  /** The order and the groups have the same keys. */
  lemma {:induction false} OrderMatchesGroups(parse: Parser, files: seq<string>, k: string)
    ensures k in KeysInOrder(parse, files) <==> k in GroupFiles(parse, files)
    decreases |files|
  {
    if files != [] {
      OrderMatchesGroups(parse, files[..|files| - 1], k);
    }
  }

  /** One iteration of the loop in `_init_people_data`: appending the file
      to its group (or opening one) and then sorting the group's list takes
      the order and the groups of a prefix of the listing to those of the
      prefix extended by the file. */
  lemma InitStep(parse: Parser, prefix: seq<string>, x: string, order: seq<string>, groups: map<string, Group>)
    requires order == KeysInOrder(parse, prefix) && groups == GroupFiles(parse, prefix)
    ensures var key := parse(x).fullName;
      var g1 := if key in groups then groups[key := groups[key].(files := groups[key].files + [x])]
        else groups[key := Group(parse(x).fields, [x], None, None, None)];
      && g1[key := g1[key].(files := Sort(g1[key].files))] == GroupFiles(parse, prefix + [x])
      && (if key in groups then order else order + [key]) == KeysInOrder(parse, prefix + [x])
  {
    GroupFilesAppend(parse, prefix, x);
    KeysInOrderAppend(parse, prefix, x);
    OrderMatchesGroups(parse, prefix, parse(x).fullName);
  }

  lemma PrefixStep(files: seq<string>, i: nat)
    requires i < |files|
    ensures files[..i + 1] == files[..i] + [files[i]]
  {
  }

  /** `_init_people_data`: the loop over the listing that fills
      `people_data`, appending each file to its group or opening a new group,
      and sorting the group's list after every insertion. `order` is the
      dictionary's insertion order. */
  method InitPeopleData(files: seq<string>) returns (order: seq<string>, groups: map<string, Group>)
    ensures order == KeysInOrder(ParseName, files)
    ensures groups == GroupFiles(ParseName, files)
  {
    order, groups := [], map[];
    var i := 0;
    assert files[..0] == [];
    while i < |files|
      invariant 0 <= i <= |files|
      invariant order == KeysInOrder(ParseName, files[..i])
      invariant groups == GroupFiles(ParseName, files[..i])
    {
      var fileName := files[i];
      var personData := CreateInitialData(fileName);
      var fullName := personData.fullName;
      InitStep(ParseName, files[..i], fileName, order, groups);
      if fullName in groups {
        groups := groups[fullName := groups[fullName].(files := groups[fullName].files + [fileName])];
      } else {
        groups := groups[fullName := Group(personData.fields, [fileName], None, None, None)];
        order := order + [fullName];
      }
      groups := groups[fullName := groups[fullName].(files := Sort(groups[fullName].files))];
      PrefixStep(files, i);
      i := i + 1;
    }
    assert files[..|files|] == files;
  }

  /** Every file lands in the group of its own key. */
  lemma GroupingCovers(parse: Parser, files: seq<string>, f: string)
    requires f in files
    ensures parse(f).fullName in GroupFiles(parse, files)
    ensures f in GroupFiles(parse, files)[parse(f).fullName].files
  {
    var k := parse(f).fullName;
    GroupFilesClosedForm(parse, files, k);
    FilesWithKeyMembers(parse, files, k, f);
    var fw := FilesWithKey(parse, files, k);
    assert f in multiset(fw);
  }

  /** A group holds only files of the listing, and only files of its key. */
  lemma GroupingSound(parse: Parser, files: seq<string>, k: string, f: string)
    requires k in GroupFiles(parse, files) && f in GroupFiles(parse, files)[k].files
    ensures f in files && parse(f).fullName == k
  {
    GroupFilesClosedForm(parse, files, k);
    var fw := FilesWithKey(parse, files, k);
    assert f in multiset(Sort(fw));
    assert f in fw;
    FilesWithKeyMembers(parse, files, k, f);
  }

  /** The index of the first file with key `key`, where `FirstFields` comes from. */
  lemma {:induction false} FirstIndex(parse: Parser, files: seq<string>, key: string) returns (i: nat)
    requires key in KeySet(parse, files)
    ensures i < |files| && parse(files[i]).fullName == key
    ensures FirstFields(parse, files, key) == parse(files[i]).fields
    ensures forall j | 0 <= j < i :: parse(files[j]).fullName != key
    decreases |files|
  {
    if parse(files[0]).fullName == key {
      i := 0;
    } else {
      var k := FirstIndex(parse, files[1..], key);
      i := k + 1;
      forall j | 0 <= j < i ensures parse(files[j]).fullName != key {
        if j > 0 { assert files[j] == files[1..][j - 1]; }
      }
    }
  }

  /** Each group's list is sorted and is a permutation of the files with its
      key; its fields are those of the first such file in the listing, and
      it has no remote identifiers yet. */
  lemma GroupContents(parse: Parser, files: seq<string>, key: string)
    requires key in GroupFiles(parse, files)
    ensures Sorted(GroupFiles(parse, files)[key].files)
    ensures multiset(GroupFiles(parse, files)[key].files) == multiset(FilesWithKey(parse, files, key))
    ensures exists i | 0 <= i < |files| ::
      && parse(files[i]).fullName == key
      && GroupFiles(parse, files)[key].fields == parse(files[i]).fields
      && forall j | 0 <= j < i :: parse(files[j]).fullName != key
    ensures GroupFiles(parse, files)[key].personId.None?
    ensures GroupFiles(parse, files)[key].albumId.None?
    ensures GroupFiles(parse, files)[key].biometryId.None?
  {
    GroupFilesClosedForm(parse, files, key);
    SortSorted(FilesWithKey(parse, files, key));
    var i := FirstIndex(parse, files, key);
  }

  /** The order of the groups lists each group exactly once. */
  lemma OrderListsGroups(parse: Parser, files: seq<string>, k: string)
    ensures k in KeysInOrder(parse, files) <==> k in GroupFiles(parse, files)
    ensures forall i, j | 0 <= i < j < |KeysInOrder(parse, files)| :: KeysInOrder(parse, files)[i] != KeysInOrder(parse, files)[j]
  {
    KeysInOrderDistinct(parse, files);
    GroupFilesClosedForm(parse, files, k);
  }

  /** Which groups exist and what files they hold do not depend on the order
      of the listing; only which file supplies the name fields can. */
  lemma GroupingOrderIndependent(parse: Parser, a: seq<string>, b: seq<string>, k: string)
    requires multiset(a) == multiset(b)
    ensures k in GroupFiles(parse, a) <==> k in GroupFiles(parse, b)
    ensures k in GroupFiles(parse, a) ==> GroupFiles(parse, a)[k].files == GroupFiles(parse, b)[k].files
  {
    GroupFilesClosedForm(parse, a, k);
    GroupFilesClosedForm(parse, b, k);
    assert KeySet(parse, a) == KeySet(parse, b) by {
      forall f ensures f in a <==> f in b {
        assert f in a <==> f in multiset(a);
        assert f in b <==> f in multiset(b);
      }
    }
    forall f ensures multiset(FilesWithKey(parse, a, k))[f] == multiset(FilesWithKey(parse, b, k))[f] {
      FilesWithKeyCount(parse, a, k, f);
      FilesWithKeyCount(parse, b, k, f);
    }
    assert multiset(FilesWithKey(parse, a, k)) == multiset(FilesWithKey(parse, b, k));
    SortPermutationInvariant(FilesWithKey(parse, a, k), FilesWithKey(parse, b, k));
  }

  /** The files of the groups, group after group in the order given: the
      order in which the later stages visit the files. */
  function FilesInOrder(order: seq<string>, groups: map<string, Group>): seq<string>
    requires forall k | k in order :: k in groups
    decreases |order|
  {
    if order == [] then [] else FilesInOrder(order[..|order| - 1], groups) + groups[order[|order| - 1]].files
  }

  /** Walking distinct keys visits a file as often as its key's group
      holds it if the key is walked, and never otherwise. */
  lemma {:induction false} FilesInOrderCount(order: seq<string>, groups: map<string, Group>, key: string, f: string, n: nat)
    requires forall k | k in order :: k in groups && multiset(groups[k].files)[f] == if k == key then n else 0
    requires forall i, j | 0 <= i < j < |order| :: order[i] != order[j]
    ensures multiset(FilesInOrder(order, groups))[f] == if key in order then n else 0
    decreases |order|
  {
    if order != [] {
      var init, k := order[..|order| - 1], order[|order| - 1];
      assert order == init + [k];
      FilesInOrderCount(init, groups, key, f, n);
      assert multiset(FilesInOrder(order, groups)) == multiset(FilesInOrder(init, groups)) + multiset(groups[k].files);
      LastKeyIsNew(order);
    }
  }

  lemma LastKeyIsNew(order: seq<string>)
    requires order != []
    requires forall i, j | 0 <= i < j < |order| :: order[i] != order[j]
    ensures order[|order| - 1] !in order[..|order| - 1]
  {
  }

  /** A group holds each file of its key as often as it is listed. */
  lemma GroupFileCount(parse: Parser, files: seq<string>, k: string, f: string)
    requires k in GroupFiles(parse, files)
    ensures multiset(GroupFiles(parse, files)[k].files)[f] == if parse(f).fullName == k then multiset(files)[f] else 0
  {
    GroupContents(parse, files, k);
    FilesWithKeyCount(parse, files, k, f);
  }

  /** The groups partition the listing: walking them in key order visits
      every listed file exactly as often as it is listed. */
  lemma GroupingPartitions(parse: Parser, files: seq<string>)
    ensures forall k | k in KeysInOrder(parse, files) :: k in GroupFiles(parse, files)
    ensures multiset(FilesInOrder(KeysInOrder(parse, files), GroupFiles(parse, files))) == multiset(files)
  {
    var order := KeysInOrder(parse, files);
    forall k | k in order ensures k in GroupFiles(parse, files) {
      OrderMatchesGroups(parse, files, k);
    }
    KeysInOrderDistinct(parse, files);
    forall f ensures multiset(FilesInOrder(order, GroupFiles(parse, files)))[f] == multiset(files)[f] {
      forall k | k in order
        ensures multiset(GroupFiles(parse, files)[k].files)[f] == if k == parse(f).fullName then multiset(files)[f] else 0
      {
        GroupFileCount(parse, files, k, f);
      }
      FilesInOrderCount(order, GroupFiles(parse, files), parse(f).fullName, f, multiset(files)[f]);
      if f in files {
        assert parse(f).fullName in KeySet(parse, files);
      }
    }
  }

  /** Only the groups' files matter to the walk, not their ids. */
  lemma {:induction false} FilesInOrderSameFiles(order: seq<string>, a: map<string, Group>, b: map<string, Group>)
    requires forall k | k in order :: k in a && k in b && a[k].files == b[k].files
    ensures FilesInOrder(order, a) == FilesInOrder(order, b)
    decreases |order|
  {
    if order != [] {
      FilesInOrderSameFiles(order[..|order| - 1], a, b);
    }
  }
}
