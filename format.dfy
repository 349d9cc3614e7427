/** Python's `str.format` with automatically numbered fields, as the
    utility uses it to build the biometry upload URL from the configured
    template, the protocol and the root domain. `{}` takes the next
    argument, `{{` and `}}` stand for single braces, and any other brace
    makes `str.format` raise, as do too few arguments (`None` here). */
module UrlFormat {
  import opened Wrappers

  predicate NoBraces(s: string) {
    '{' !in s && '}' !in s
  }

  function Prepend(p: string, o: Option<string>): (r: Option<string>)
    ensures r.Some? <==> o.Some?
  {
    if o.Some? then Some(p + o.value) else None
  }

  function Format(t: string, args: seq<string>): Option<string>
    decreases |t|
  {
    if t == [] then Some([])
    else if |t| >= 2 && t[0] == '{' && t[1] == '{' then Prepend("{", Format(t[2..], args))
    else if |t| >= 2 && t[0] == '}' && t[1] == '}' then Prepend("}", Format(t[2..], args))
    else if |t| >= 2 && t[0] == '{' && t[1] == '}' then
      (if args == [] then None else Prepend(args[0], Format(t[2..], args[1..])))
    else if t[0] == '{' || t[0] == '}' then None
    else Prepend([t[0]], Format(t[1..], args))
  }

  /** Every brace of `t` is part of `{{`, `}}` or `{}`. */
  predicate WellFormed(t: string)
    decreases |t|
  {
    if t == [] then true
    else if |t| >= 2 && t[0] == '{' && (t[1] == '{' || t[1] == '}') then WellFormed(t[2..])
    else if |t| >= 2 && t[0] == '}' && t[1] == '}' then WellFormed(t[2..])
    else if t[0] == '{' || t[0] == '}' then false
    else WellFormed(t[1..])
  }

  /** The number of `{}` fields of `t`. */
  function Fields(t: string): nat
    decreases |t|
  {
    if t == [] then 0
    else if |t| >= 2 && t[0] == '{' && t[1] == '{' then Fields(t[2..])
    else if |t| >= 2 && t[0] == '}' && t[1] == '}' then Fields(t[2..])
    else if |t| >= 2 && t[0] == '{' && t[1] == '}' then 1 + Fields(t[2..])
    else if t[0] == '{' || t[0] == '}' then 0
    else Fields(t[1..])
  }

  /** Formatting succeeds exactly when the template is well formed and there
      are at least as many arguments as fields; extra arguments are ignored. */
  lemma {:induction false} FormatSucceedsIff(t: string, args: seq<string>)
    ensures Format(t, args).Some? <==> WellFormed(t) && Fields(t) <= |args|
    decreases |t|
  {
    if t == [] {
    } else if |t| >= 2 && t[0] == '{' && t[1] == '{' {
      FormatSucceedsIff(t[2..], args);
    } else if |t| >= 2 && t[0] == '}' && t[1] == '}' {
      FormatSucceedsIff(t[2..], args);
    } else if |t| >= 2 && t[0] == '{' && t[1] == '}' {
      if args != [] {
        FormatSucceedsIff(t[2..], args[1..]);
      }
    } else if t[0] == '{' || t[0] == '}' {
    } else {
      FormatSucceedsIff(t[1..], args);
    }
  }

  /** Text without braces is copied unchanged. */
  lemma {:induction false} FormatLiteralPrefix(a: string, rest: string, args: seq<string>)
    requires NoBraces(a)
    ensures Format(a + rest, args) == Prepend(a, Format(rest, args))
    decreases |a|
  {
    var t := a + rest;
    if a == [] {
      assert t == rest;
      if Format(rest, args).Some? {
        assert a + Format(rest, args).value == Format(rest, args).value;
      }
    } else {
      assert a[0] in a;
      assert t[0] == a[0] && t[1..] == a[1..] + rest;
      assert Format(t, args) == Prepend([a[0]], Format(a[1..] + rest, args));
      FormatLiteralPrefix(a[1..], rest, args);
      if Format(rest, args).Some? {
        var v := Format(rest, args).value;
        assert [a[0]] + (a[1..] + v) == a + v;
      }
    }
  }

  lemma FormatField(rest: string, args: seq<string>)
    requires args != []
    ensures Format("{}" + rest, args) == Prepend(args[0], Format(rest, args[1..]))
  {
    assert ("{}" + rest)[2..] == rest;
  }

  /** A literal, a field and a literal, with one argument. */
  lemma FormatOneField(b: string, c: string, y: string)
    requires NoBraces(b) && NoBraces(c)
    ensures Format(b + ("{}" + c), [y]) == Some(b + (y + c))
  {
    FormatLiteralPrefix(c, [], []);
    assert c + [] == c;
    FormatField(c, [y]);
    assert [y][1..] == [];
    FormatLiteralPrefix(b, "{}" + c, [y]);
  }

  /** The shape of the upload URL template: two fields between literal
      parts get the two arguments in order. */
  lemma FormatTwoFields(a: string, b: string, c: string, x: string, y: string)
    requires NoBraces(a) && NoBraces(b) && NoBraces(c)
    ensures Format(a + ("{}" + (b + ("{}" + c))), [x, y]) == Some(a + (x + (b + (y + c))))
  {
    FormatOneField(b, c, y);
    FormatField(b + ("{}" + c), [x, y]);
    assert [x, y][1..] == [y];
    FormatLiteralPrefix(a, "{}" + (b + ("{}" + c)), [x, y]);
  }
}
