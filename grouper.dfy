/** The filename parser and grouper of `BiometryUploadBiometry`: a source file
    `Surname_First_Patronymic.jpg` names a person, and files naming the same
    person (the same grouping key) are collected into one group. */
module Grouper {
  import opened Wrappers
  import opened Strings

  /** The person fields that a filename yields; absent fields are `None`. */
  datatype PersonFields = PersonFields(lastName: string, firstName: Option<string>, patronymic: Option<string>)

  /** `full_name` (the grouping key) together with the person fields. */
  datatype ParsedName = ParsedName(fullName: string, fields: PersonFields)

  /** One entry of `people_data`: the name fields, the files, and the remote
      identifiers that the later stages fill in. */
  datatype Group = Group(
    fields: PersonFields,
    files: seq<string>,
    personId: Option<string>,
    albumId: Option<string>,
    biometryId: Option<string>)

  /** The name segments of a filename: split on `_`, with only the last
      segment cut at its first `.`. No segment contains `_`. */
  function NameSegments(fileName: string): (segs: seq<string>)
    ensures |segs| == |Split(fileName, '_')|
    ensures forall i :: 0 <= i < |segs| - 1 ==> segs[i] == Split(fileName, '_')[i]
    ensures forall i :: 0 <= i < |segs| ==> '_' !in segs[i]
  {
    var parts := Split(fileName, '_');
    var last := parts[|parts| - 1];
    FirstPieceIsPrefix(last, '.');
    var cut := Split(last, '.')[0];
    assert '_' !in cut by {
      forall j | 0 <= j < |cut| ensures cut[j] != '_' {
        assert cut[j] == last[j];
      }
    }
    parts[..|parts| - 1] + [cut]
  }

  /** Segment `i` is kept as a name field only when it exists and is not
      pure ASCII. */
  function OptionalSegment(segs: seq<string>, i: nat): Option<string> {
    if i < |segs| && !IsAscii(segs[i]) then Some(segs[i]) else None
  }

  /** The grouping key of a person: the last name, then `_first_name` and
      `_patronymic` for the fields that are present. */
  function KeyOf(f: PersonFields): string {
    f.lastName
      + (if f.firstName.Some? then "_" + f.firstName.value else "")
      + (if f.patronymic.Some? then "_" + f.patronymic.value else "")
  }

  /** What `_create_initial_data_for_m7_people` computes, in closed form. */
  function ParseName(fileName: string): ParsedName {
    var segs := NameSegments(fileName);
    var fields := PersonFields(segs[0], OptionalSegment(segs, 1), OptionalSegment(segs, 2));
    ParsedName(KeyOf(fields), fields)
  }

  /** `_create_initial_data_for_m7_people`: the `enumerate` loop over the
      segments, rebinding `full_name` as it goes. */
  method CreateInitialData(fileName: string) returns (p: ParsedName)
    ensures p == ParseName(fileName)
  {
    var segs := NameSegments(fileName);
    var lastName := "";
    var firstName: Option<string> := None;
    var patronymic: Option<string> := None;
    var fullName := "";  // Python starts from None; segment 0 always exists
    var index := 0;
    while index < |segs|
      invariant 0 <= index <= |segs|
      invariant index >= 1 ==> lastName == segs[0]
      invariant firstName == if index > 1 then OptionalSegment(segs, 1) else None
      invariant patronymic == if index > 2 then OptionalSegment(segs, 2) else None
      invariant index >= 1 ==> fullName == KeyOf(PersonFields(lastName, firstName, patronymic))
    {
      var nameInfo := segs[index];
      if index == 0 {
        lastName := nameInfo;
        fullName := nameInfo;
      }
      if index == 1 && !IsAscii(nameInfo) {
        firstName := Some(nameInfo);
        fullName := fullName + "_" + nameInfo;
      }
      if index == 2 && !IsAscii(nameInfo) {
        patronymic := Some(nameInfo);
        fullName := fullName + "_" + nameInfo;
      }
      index := index + 1;
    }
    p := ParsedName(fullName, PersonFields(lastName, firstName, patronymic));
  }

  /** The last name is segment 0 of the `_`-split, cut at its first `.` only
      when it is the only segment; the key starts with it, and a name without
      `_` is its last name alone. */
  lemma ParseLastName(fileName: string)
    ensures ParseName(fileName).fields.lastName ==
      if '_' in fileName then Split(fileName, '_')[0] else Split(fileName, '.')[0]
    ensures ParseName(fileName).fields.lastName <= ParseName(fileName).fullName
    ensures '_' !in fileName ==>
      && ParseName(fileName).fullName == ParseName(fileName).fields.lastName
      && ParseName(fileName).fields.firstName == None
      && ParseName(fileName).fields.patronymic == None
  {
    SplitSingleton(fileName, '_');
    if '_' !in fileName {
      SplitNoSep(fileName, '_');
    }
  }

  /** Segments 1 and 2 are kept exactly when they contain a non-ASCII
      character, where the last segment counts as cut at its first `.`. */
  lemma ParseOptionalFields(fileName: string)
    ensures var parts, p := Split(fileName, '_'), ParseName(fileName);
      && (p.fields.firstName.Some? <==>
            |parts| > 1 && !IsAscii(if |parts| == 2 then Split(parts[1], '.')[0] else parts[1]))
      && (p.fields.firstName.Some? ==> p.fields.firstName.value == NameSegments(fileName)[1])
      && (p.fields.patronymic.Some? <==>
            |parts| > 2 && !IsAscii(if |parts| == 3 then Split(parts[2], '.')[0] else parts[2]))
      && (p.fields.patronymic.Some? ==> p.fields.patronymic.value == NameSegments(fileName)[2])
  {
  }

  /** Segments at index 3 and beyond never affect the result. */
  lemma LaterSegmentsIgnored(f: string, g: string)
    requires |Split(f, '_')| > 3 && |Split(g, '_')| > 3
    requires Split(f, '_')[..3] == Split(g, '_')[..3]
    ensures ParseName(f) == ParseName(g)
  {
    var sf, sg := NameSegments(f), NameSegments(g);
    assert Split(f, '_')[0] == Split(g, '_')[0] && Split(f, '_')[1] == Split(g, '_')[1];
    assert Split(f, '_')[2] == Split(g, '_')[2];
    assert sf[0] == sg[0] && sf[1] == sg[1] && sf[2] == sg[2];
  }

  /** The pieces of a key: the present fields, in order. */
  function KeyPieces(f: PersonFields): seq<string> {
    [f.lastName]
      + (if f.firstName.Some? then [f.firstName.value] else [])
      + (if f.patronymic.Some? then [f.patronymic.value] else [])
  }

  /** A key built from fields without `_` splits back into those fields. */
  lemma SplitKey(f: PersonFields)
    requires '_' !in f.lastName
    requires f.firstName.Some? ==> '_' !in f.firstName.value
    requires f.patronymic.Some? ==> '_' !in f.patronymic.value
    ensures Split(KeyOf(f), '_') == KeyPieces(f)
  {
    var l := f.lastName;
    if f.firstName.None? && f.patronymic.None? {
      assert KeyOf(f) == l;
      SplitNoSep(l, '_');
    } else if f.patronymic.None? {
      assert KeyOf(f) == l + ['_'] + f.firstName.value;
      SplitTwo(l, f.firstName.value, '_');
    } else if f.firstName.None? {
      assert KeyOf(f) == l + ['_'] + f.patronymic.value;
      SplitTwo(l, f.patronymic.value, '_');
    } else {
      assert KeyOf(f) == l + ['_'] + f.firstName.value + ['_'] + f.patronymic.value;
      SplitThree(l, f.firstName.value, f.patronymic.value, '_');
    }
  }

  /** The key splits back into exactly the present fields, in order, so the
      key is `last_name`, `_first_name` if kept, `_patronymic` if kept. */
  lemma KeySegments(fileName: string)
    ensures Split(ParseName(fileName).fullName, '_') == KeyPieces(ParseName(fileName).fields)
  {
    var segs := NameSegments(fileName);
    assert '_' !in segs[0];
    SplitKey(ParseName(fileName).fields);
  }

  /** Two names whose kept fields have the same shape get the same key only
      when they have the same fields. */
  lemma KeyDeterminesFields(f: string, g: string)
    requires ParseName(f).fullName == ParseName(g).fullName
    requires ParseName(f).fields.firstName.Some? == ParseName(g).fields.firstName.Some?
    requires ParseName(f).fields.patronymic.Some? == ParseName(g).fields.patronymic.Some?
    ensures ParseName(f).fields == ParseName(g).fields
  {
    KeySegments(f);
    KeySegments(g);
    var a, b := ParseName(f).fields, ParseName(g).fields;
    var pieces := Split(ParseName(f).fullName, '_');
    assert a.lastName == pieces[0] == b.lastName;
    if a.firstName.Some? {
      assert a.firstName.value == pieces[1] == b.firstName.value;
    }
    if a.patronymic.Some? {
      var n := if a.firstName.Some? then 2 else 1;
      assert a.patronymic.value == pieces[n] == b.patronymic.value;
    }
  }

  /** The segments of a name with two underscores. */
  lemma SegmentsOfThree(a: string, b: string, c: string)
    requires '_' !in a && '_' !in b && '_' !in c
    ensures NameSegments(a + "_" + b + "_" + c) == [a, b, Split(c, '.')[0]]
  {
    SplitThree(a, b, c, '_');
    assert a + "_" + b + "_" + c == a + ['_'] + b + ['_'] + c;
  }

  /** The segments of a name with one underscore. */
  lemma SegmentsOfTwo(a: string, b: string)
    requires '_' !in a && '_' !in b
    ensures NameSegments(a + "_" + b) == [a, Split(b, '.')[0]]
  {
    SplitTwo(a, b, '_');
    assert a + "_" + b == a + ['_'] + b;
  }

  /** The stem of a `stem.jpg` segment. */
  lemma StemOfJpg(stem: string)
    requires '.' !in stem
    ensures Split(stem + ".jpg", '.')[0] == stem
  {
    SplitNoSep(stem, '.');
    SplitNoSep("jpg", '.');
    SplitConcat(stem, "jpg", '.');
    assert stem + ".jpg" == stem + ['.'] + "jpg";
  }

  /** The parse of `a_b_stem.jpg`. */
  lemma ParseOfThree(a: string, b: string, stem: string)
    requires '_' !in a && '_' !in b && '_' !in stem && '.' !in stem
    ensures ParseName(a + "_" + b + "_" + stem + ".jpg") ==
      var f := PersonFields(a, if IsAscii(b) then None else Some(b),
                               if IsAscii(stem) then None else Some(stem));
      ParsedName(KeyOf(f), f)
  {
    var c := stem + ".jpg";
    assert '_' !in c;
    SegmentsOfThree(a, b, c);
    assert a + "_" + b + "_" + stem + ".jpg" == a + "_" + b + "_" + c;
    StemOfJpg(stem);
  }

  /** The parse of `a_stem.jpg`. */
  lemma ParseOfTwo(a: string, stem: string)
    requires '_' !in a && '_' !in stem && '.' !in stem
    ensures ParseName(a + "_" + stem + ".jpg") ==
      var f := PersonFields(a, if IsAscii(stem) then None else Some(stem), None);
      ParsedName(KeyOf(f), f)
  {
    var c := stem + ".jpg";
    assert '_' !in c;
    SegmentsOfTwo(a, c);
    assert a + "_" + stem + ".jpg" == a + "_" + c;
    StemOfJpg(stem);
  }

  /** Latin tokens are dropped: `Ivanov_Ivan_1.jpg` has the key `Ivanov`. */
  lemma AsciiTokensDropped()
    ensures ParseName("Ivanov_Ivan_1.jpg") == ParsedName("Ivanov", PersonFields("Ivanov", None, None))
  {
    ParseOfThree("Ivanov", "Ivan", "1");
    assert "Ivanov_Ivan_1.jpg" == "Ivanov" + "_" + "Ivan" + "_" + "1" + ".jpg";
    assert IsAscii("Ivan") && IsAscii("1");
  }

  /** `Иванов_Ivan_Петрович.jpg` and its like: a Latin first name is dropped
      while a Cyrillic patronymic is kept, so the key skips the first name. */
  lemma ParsePatronymicOnly(last: string, first: string, patronymic: string)
    requires '_' !in last && '_' !in first && '_' !in patronymic && '.' !in patronymic
    requires IsAscii(first) && !IsAscii(patronymic)
    ensures ParseName(last + "_" + first + "_" + patronymic + ".jpg") ==
      ParsedName(last + "_" + patronymic, PersonFields(last, None, Some(patronymic)))
  {
    ParseOfThree(last, first, patronymic);
  }

  /** `Иванов_Петрович.jpg` and its like: the second segment, when not ASCII,
      is kept as the first name. */
  lemma ParseFirstNameOnly(last: string, first: string)
    requires '_' !in last && '_' !in first && '.' !in first && !IsAscii(first)
    ensures ParseName(last + "_" + first + ".jpg") ==
      ParsedName(last + "_" + first, PersonFields(last, Some(first), None))
  {
    ParseOfTwo(last, first);
  }

  /** A first name and a patronymic-only name can share a key:
      `Иванов_Ivan_Петрович.jpg` and `Иванов_Петрович.jpg` both have the key
      `Иванов_Петрович`, with different fields, so they fall into one group. */
  lemma FirstNameAndPatronymicCollide(last: string, latin: string, other: string)
    requires '_' !in last && '_' !in latin && '_' !in other && '.' !in other
    requires IsAscii(latin) && !IsAscii(other)
    ensures ParseName(last + "_" + latin + "_" + other + ".jpg").fullName == ParseName(last + "_" + other + ".jpg").fullName
    ensures ParseName(last + "_" + latin + "_" + other + ".jpg").fields != ParseName(last + "_" + other + ".jpg").fields
  {
    ParsePatronymicOnly(last, latin, other);
    ParseFirstNameOnly(last, other);
  }
}
