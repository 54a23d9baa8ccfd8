/** The pieces of Python's `str` behaviour the modelled code relies on:
    `strip`, `upper`, `str(int)`, `sep.join`, the `in` test for substrings
    and `str.format` with named fields. */
module Strings {
  import opened Wrappers

  /** The characters for which Python's `str.isspace` holds, which are the
      characters `str.strip()` removes. */
  predicate IsSpace(c: char)
  {
    || c == ' '
    || ('\t' <= c <= '\r')
    || ('\U{1C}' <= c <= '\U{1F}')
    || c == '\U{85}' || c == '\U{A0}' || c == '\U{1680}'
    || ('\U{2000}' <= c <= '\U{200A}')
    || c == '\U{2028}' || c == '\U{2029}' || c == '\U{202F}'
    || c == '\U{205F}' || c == '\U{3000}'
  }

  /** `s.lstrip()`: the longest suffix of `s` that does not begin with a space. */
  function TrimStart(s: string): (r: string)
    ensures |r| <= |s| && r == s[|s| - |r|..]
    ensures forall k :: 0 <= k < |s| - |r| ==> IsSpace(s[k])
    ensures r == [] || !IsSpace(r[0])
  {
    if |s| > 0 && IsSpace(s[0]) then TrimStart(s[1..]) else s
  }

  /** `s.rstrip()`: the longest prefix of `s` that does not end with a space. */
  function TrimEnd(s: string): (r: string)
    ensures |r| <= |s| && r == s[..|r|]
    ensures forall k :: |r| <= k < |s| ==> IsSpace(s[k])
    ensures r == [] || !IsSpace(r[|r| - 1])
  {
    if |s| > 0 && IsSpace(s[|s| - 1]) then TrimEnd(s[..|s| - 1]) else s
  }

  /** `s.strip()`. */
  function Strip(s: string): (r: string)
  {
    TrimEnd(TrimStart(s))
  }

  /** Stripping removes only surrounding white space: the result is a
      contiguous part of the input, everything cut off is white space, and
      the result neither begins nor ends with white space. */
  lemma StripSpec(s: string)
    ensures exists i, j :: 0 <= i <= j <= |s| && Strip(s) == s[i..j]
                           && (forall k :: 0 <= k < i ==> IsSpace(s[k]))
                           && (forall k :: j <= k < |s| ==> IsSpace(s[k]))
    ensures Strip(s) == [] || (!IsSpace(Strip(s)[0]) && !IsSpace(Strip(s)[|Strip(s)| - 1]))
  {
    var i, j := StripBounds(s);
  }

  /** Where the stripped text starts and ends in the input. */
  lemma StripBounds(s: string) returns (i: nat, j: nat)
    ensures i <= j <= |s| && Strip(s) == s[i..j]
    ensures forall k :: 0 <= k < i ==> IsSpace(s[k])
    ensures forall k :: j <= k < |s| ==> IsSpace(s[k])
  {
    var t := TrimStart(s);
    var r := TrimEnd(t);
    i := |s| - |t|;
    j := i + |r|;
    assert t == s[i..] && r == t[..|r|];
    forall k | j <= k < |s|
      ensures IsSpace(s[k])
    {
      assert s[k] == t[k - i];
    }
  }

  /** Stripping twice is stripping once. */
  lemma StripIdempotent(s: string)
    ensures Strip(Strip(s)) == Strip(s)
  {
  }

  /** `c.upper()` for the ASCII letters; every other character is kept. */
  function UpperChar(c: char): char
  {
    if 'a' <= c <= 'z' then (c as int - 'a' as int + 'A' as int) as char else c
  }

  /** `s.upper()`, letter by letter (ASCII letters only). */
  function Upper(s: string): (r: string)
    ensures |r| == |s|
    ensures forall k :: 0 <= k < |s| ==> r[k] == UpperChar(s[k])
  {
    if s == [] then [] else [UpperChar(s[0])] + Upper(s[1..])
  }

  function DigitChar(d: nat): char
    requires d < 10
  {
    "0123456789"[d]
  }

  /** The decimal digits of `n`, most significant first, without leading zeros. */
  function NatToString(n: nat): (r: string)
    ensures |r| > 0
    ensures forall k :: 0 <= k < |r| ==> '0' <= r[k] <= '9'
  {
    if n < 10 then [DigitChar(n)] else NatToString(n / 10) + [DigitChar(n % 10)]
  }

  /** `str(i)` for a Python `int`. */
  function IntToString(i: int): (r: string)
    ensures |r| > 0
  {
    if i < 0 then "-" + NatToString(-i) else NatToString(i)
  }

  /** `sep.join(parts)`. */
  function Join(sep: string, parts: seq<string>): (r: string)
  {
    if |parts| == 0 then ""
    else if |parts| == 1 then parts[0]
    else parts[0] + sep + Join(sep, parts[1..])
  }

  /** `p` occurs in `s` at position `i`. */
  ghost predicate OccursAt(p: string, s: string, i: int)
  {
    0 <= i <= |s| - |p| && s[i..i + |p|] == p
  }

  /** Python's `p in s` for two strings: `p` is a contiguous part of `s`. */
  function Contains(s: string, p: string): (r: bool)
    ensures r <==> exists i :: OccursAt(p, s, i)
  {
    if |p| > |s| then false
    else if s[..|p|] == p then
      assert OccursAt(p, s, 0);
      true
    else
      var rest := Contains(s[1..], p);
      assert forall i :: OccursAt(p, s[1..], i) <==> OccursAt(p, s, i + 1) by {
        forall i ensures OccursAt(p, s[1..], i) <==> OccursAt(p, s, i + 1) {
          if 0 <= i <= |s| - 1 - |p| {
            assert s[1..][i..i + |p|] == s[i + 1..i + 1 + |p|];
          }
        }
      }
      assert forall i :: OccursAt(p, s, i) ==> i >= 1;
      assert (exists i :: OccursAt(p, s, i)) ==> exists i :: OccursAt(p, s[1..], i) by {
        if i :| OccursAt(p, s, i) {
          assert OccursAt(p, s[1..], i - 1);
        }
      }
      rest
  }

  /** One piece of a `str.format` template: literal text or a named field `{name}`. */
  datatype Piece = Lit(text: string) | Field(name: string)

  type Template = seq<Piece>

  /** The template contains the field `name`. */
  ghost predicate HasField(t: Template, name: string)
  {
    exists k :: 0 <= k < |t| && t[k] == Field(name)
  }

  /** `t.format(**args)`: every field is replaced by its argument; a field with
      no argument raises `KeyError` naming it (the first such field, left to right). */
  function Format(t: Template, args: map<string, string>): (r: Result<string, string>)
    ensures r.Err? <==> exists name :: HasField(t, name) && name !in args
    ensures r.Err? ==> HasField(t, r.error) && r.error !in args
  {
    if t == [] then Ok("")
    else
      var rest := Format(t[1..], args);
      assert forall name :: HasField(t[1..], name) ==> HasField(t, name) by {
        forall name | HasField(t[1..], name) ensures HasField(t, name) {
          var k :| 0 <= k < |t[1..]| && t[1..][k] == Field(name);
          assert t[k + 1] == Field(name);
        }
      }
      assert forall name :: HasField(t, name) && t[0] != Field(name) ==> HasField(t[1..], name) by {
        forall name | HasField(t, name) && t[0] != Field(name) ensures HasField(t[1..], name) {
          var k :| 0 <= k < |t| && t[k] == Field(name);
          assert k > 0 && t[1..][k - 1] == Field(name);
        }
      }
      match t[0]
      case Lit(text) =>
        if rest.Err? then rest else Ok(text + rest.value)
      case Field(name) =>
        assert HasField(t, name);
        if name !in args then Err(name)
        else if rest.Err? then rest else Ok(args[name] + rest.value)
  }

  /** Formatting fails with the first field, left to right, that has no
      argument. */
  lemma {:induction false} FormatFirstMissing(t: Template, args: map<string, string>, k: nat)
    requires k < |t| && t[k].Field? && t[k].name !in args
    requires forall m :: 0 <= m < k && t[m].Field? ==> t[m].name in args
    ensures Format(t, args) == Err(t[k].name)
  {
    if k > 0 {
      FormatFirstMissing(t[1..], args, k - 1);
    }
  }

  /** A successful format shows the argument of every field of the template. */
  lemma {:induction false} FormatShowsArgument(t: Template, args: map<string, string>, name: string)
    requires Format(t, args).Ok? && HasField(t, name)
    ensures name in args && exists i :: OccursAt(args[name], Format(t, args).value, i)
  {
    var r := Format(t, args).value;
    var rest := Format(t[1..], args);
    assert rest.Ok?;
    var head := match t[0] case Lit(text) => text case Field(n) => args[n];
    assert r == head + rest.value;
    if t[0] == Field(name) {
      assert r[0..|args[name]|] == args[name];
      assert OccursAt(args[name], r, 0);
    } else {
      var k :| 0 <= k < |t| && t[k] == Field(name);
      assert t[1..][k - 1] == Field(name);
      FormatShowsArgument(t[1..], args, name);
      var i :| OccursAt(args[name], rest.value, i);
      assert r[|head| + i..|head| + i + |args[name]|] == rest.value[i..i + |args[name]|];
      assert OccursAt(args[name], r, |head| + i);
    }
  }
}
