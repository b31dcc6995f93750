/**
 The load-time rewrite of a city-list field: a truthy list such as
 `"Agawam, Feeding Hills"` becomes `"|Agawam|Feeding Hills|"`, so that a
 query can test membership of a city by looking for `|City|` inside it.

 The rewrite calls `String.prototype.replace` with the regular expression
 `, *` and no `g` flag, so only the FIRST comma (with the spaces right after
 it) becomes a `|`; any later separators stay as they were.
 */
module CityLists {
  import opened Js
  import opened Wrappers

  /** Calling `.replace` on a truthy value that is not a string throws a
      TypeError while the dataset is loaded. */
  datatype LoadError = ReplaceIsNotAFunction(field: string, value: Value)

  /** Every character of `t` is a space. */
  ghost predicate AllSpaces(t: string)
  {
    forall k | 0 <= k < |t| :: t[k] == ' '
  }

  /** `s[i..j]` is the match the non-global regular expression `, *` finds in
      `s`: it starts at the leftmost comma and, the star being greedy, takes
      every space that directly follows it. */
  ghost predicate IsFirstMatch(s: string, i: int, j: int)
  {
    && 0 <= i < j <= |s|
    && s[i] == ','
    && ',' !in s[..i]
    && AllSpaces(s[i + 1..j])
    && (j == |s| || s[j] != ' ')
  }

  /** How many spaces the greedy ` *` takes at the front of `s`. */
  function LeadingSpaces(s: string): (n: nat)
    ensures n <= |s|
    ensures AllSpaces(s[..n])
    ensures n == |s| || s[n] != ' '
  {
    if s != [] && s[0] == ' ' then
      var n := LeadingSpaces(s[1..]);
      assert s[..n + 1] == [s[0]] + s[1..][..n];
      n + 1
    else
      0
  }

  /** The JavaScript call `s.replace` with the regular expression `, *`
      (no `g` flag) and the replacement `"|"`. */
  function ReplaceFirstComma(s: string): (r: string)
    ensures ',' !in s ==> r == s
    ensures |r| <= |s|
  {
    if s == [] then
      []
    else if s[0] == ',' then
      "|" + s[1..][LeadingSpaces(s[1..])..]
    else
      [s[0]] + ReplaceFirstComma(s[1..])
  }

  /** The value the loader stores back into a city-list field. */
  function Normalize(field: string, v: Value): (r: Result<Value, LoadError>)
    ensures !Truthy(v) ==> r == Ok(v)
    ensures Truthy(v) && !v.Str? ==> r == Err(ReplaceIsNotAFunction(field, v))
    ensures v.Str? && v.s != "" ==>
              && r.Ok? && r.value.Str?
              && |r.value.s| >= 2 && r.value.s[0] == '|' && r.value.s[|r.value.s| - 1] == '|'
  {
    if !Truthy(v) then
      Ok(v)
    else if v.Str? then
      Ok(Str("|" + ReplaceFirstComma(v.s) + "|"))
    else
      Err(ReplaceIsNotAFunction(field, v))
  }

  /** The count of leading spaces is the one position where a run of
      spaces ends. */
  lemma {:induction false} LeadingSpacesIs(t: string, m: nat)
    requires m <= |t|
    requires AllSpaces(t[..m])
    requires m == |t| || t[m] != ' '
    ensures LeadingSpaces(t) == m
  {
    if m > 0 {
      assert t[..m][0] == t[0];
      assert t[1..][..m - 1] == t[..m][1..];
      LeadingSpacesIs(t[1..], m - 1);
    }
  }

  /** Past a first character that is not the comma, the match of `s[1..]`
      is the match of `s`, one position earlier. */
  lemma FirstMatchOfTail(s: string, i: int, j: int)
    requires IsFirstMatch(s, i, j) && i > 0
    ensures IsFirstMatch(s[1..], i - 1, j - 1)
  {
    assert s[..i] == [s[0]] + s[1..][..i - 1];
    assert s[1..][i..j - 1] == s[i + 1..j];
  }

  /** When the match starts the string, the rewrite is `|` followed by the
      text after the match. */
  lemma ReplaceMatchAtStart(s: string, j: int)
    requires IsFirstMatch(s, 0, j)
    ensures ReplaceFirstComma(s) == "|" + s[j..]
  {
    var t := s[1..];
    assert t[..j - 1] == s[1..j];
    LeadingSpacesIs(t, j - 1);
    assert t[j - 1..] == s[j..];
  }

  /** The rewrite replaces exactly the regular expression's match by `|` and
      leaves the text before and after it untouched. */
  lemma {:induction false} ReplaceFirstCommaReplacesMatch(s: string, i: int, j: int)
    requires IsFirstMatch(s, i, j)
    ensures ReplaceFirstComma(s) == s[..i] + "|" + s[j..]
  {
    if i == 0 {
      ReplaceMatchAtStart(s, j);
    } else {
      var t := s[1..];
      FirstMatchOfTail(s, i, j);
      ReplaceFirstCommaReplacesMatch(t, i - 1, j - 1);
      assert ReplaceFirstComma(s) == [s[0]] + (t[..i - 1] + "|" + t[j - 1..]);
      assert [s[0]] + (t[..i - 1] + "|" + t[j - 1..]) == s[..i] + "|" + s[j..] by {
        assert [s[0]] + (t[..i - 1] + "|" + t[j - 1..]) == [s[0]] + t[..i - 1] + "|" + t[j - 1..];
        assert [s[0]] + t[..i - 1] == s[..i];
        assert t[j - 1..] == s[j..];
      }
    }
  }

  /** Every string with a comma has a match of `, *`; it is returned as the
      pair of bounds `s[i..j]`. */
  lemma {:induction false} FirstMatchOf(s: string) returns (i: int, j: int)
    requires ',' in s
    ensures IsFirstMatch(s, i, j)
  {
    var t := s[1..];
    if s[0] == ',' {
      var n := LeadingSpaces(t);
      i, j := 0, n + 1;
      assert s[1..j] == t[..n];
      if j < |s| {
        assert s[j] == t[n];
      }
    } else {
      assert s == [s[0]] + t;
      var i', j' := FirstMatchOf(t);
      i, j := i' + 1, j' + 1;
      assert s[..i] == [s[0]] + t[..i'];
      assert s[i + 1..j] == t[i' + 1..j'];
    }
  }

  /** A list without a comma is only wrapped: `"Boston"` becomes `"|Boston|"`. */
  lemma NormalizeWithoutComma(field: string, s: string)
    requires s != "" && ',' !in s
    ensures Normalize(field, Str(s)) == Ok(Str("|" + s + "|"))
  {
  }

  /** A list with a comma is wrapped, and inside only its first comma and the
      spaces after that comma turn into one `|`. */
  lemma NormalizeWithComma(field: string, s: string) returns (i: int, j: int)
    requires ',' in s
    ensures IsFirstMatch(s, i, j)
    ensures Normalize(field, Str(s)) == Ok(Str("|" + s[..i] + "|" + s[j..] + "|"))
  {
    i, j := FirstMatchOf(s);
    ReplaceFirstCommaReplacesMatch(s, i, j);
    assert "|" + (s[..i] + "|" + s[j..]) + "|" == "|" + s[..i] + "|" + s[j..] + "|";
  }

  /** In a list whose first separator is `", "`, that separator becomes `|`
      and everything after it, later separators included, is kept as it is. */
  lemma LaterSeparatorsKept(field: string, first: string, rest: string)
    requires ',' !in first
    requires rest == [] || rest[0] != ' '
    ensures Normalize(field, Str(first + ", " + rest)) == Ok(Str("|" + first + "|" + rest + "|"))
  {
    var s := first + ", " + rest;
    assert ReplaceFirstComma(s) == first + "|" + rest by {
      assert s[..|first|] == first;
      assert s[|first| + 1..|first| + 2] == " ";
      assert s[|first| + 2..] == rest;
      assert IsFirstMatch(s, |first|, |first| + 2);
      ReplaceFirstCommaReplacesMatch(s, |first|, |first| + 2);
    }
    assert "|" + (first + "|" + rest) + "|" == "|" + first + "|" + rest + "|";
  }

  /** On `"A, B, C"` the rewrite turns only the first separator into `|`. */
  lemma ReplaceFirstCommaExample()
    ensures ReplaceFirstComma("A, B, C") == "A|B, C"
  {
    var s := "A, B, C";
    assert s[1..] == ", B, C";
    assert ", B, C"[1..] == " B, C";
    assert " B, C"[1..] == "B, C";
    assert LeadingSpaces(" B, C") == 1;
  }

  /** A three-city list keeps its second separator: `"A, B, C"` becomes
      `"|A|B, C|"`. */
  lemma ThreeCityExample()
    ensures Normalize("acceptable_cities", Str("A, B, C")) == Ok(Str("|A|B, C|"))
  {
    ReplaceFirstCommaExample();
    assert "|" + "A|B, C" + "|" == "|A|B, C|";
  }

  /** `needle` occurs in `hay` starting at position `k`. */
  ghost predicate OccursAt(needle: string, hay: string, k: int)
  {
    0 <= k <= |hay| - |needle| && hay[k..k + |needle|] == needle
  }

  /** `needle` occurs somewhere inside `hay`. */
  ghost predicate Occurs(needle: string, hay: string)
  {
    exists k :: OccursAt(needle, hay, k)
  }

  /** In `"|A|B, C|"` the text `"|A|"` occurs and `"|C|"` does not. */
  lemma OnlyFirstEnclosed()
    ensures Occurs("|A|", "|A|B, C|") && !Occurs("|C|", "|A|B, C|")
  {
    var h := "|A|B, C|";
    assert OccursAt("|A|", h, 0);
    forall k | 0 <= k <= |h| - 3
      ensures !OccursAt("|C|", h, k)
    {
      assert h[k..k + 3][0] == h[k] && h[k..k + 3][1] == h[k + 1];
      assert h[k] != '|' || h[k + 1] != 'C';
    }
  }

  /** Consequence for membership tests: after loading `"A, B, C"` the third
      city is not enclosed in pipes, so looking for `"|C|"` misses it, while
      the first city is found. */
  lemma ThirdCityNotEnclosed()
    ensures Normalize("acceptable_cities", Str("A, B, C")).Ok?
    ensures var v := Normalize("acceptable_cities", Str("A, B, C")).value;
            v.Str? && Occurs("|A|", v.s) && !Occurs("|C|", v.s)
  {
    ThreeCityExample();
    OnlyFirstEnclosed();
  }

  /** Applying the rewrite to its own output does not give the output back:
      the loader must run exactly once. */
  lemma NormalizeNotIdempotent()
    ensures Normalize("acceptable_cities", Str("|A|")) == Ok(Str("||A||"))
  {
    var s := "|A|";
    assert ',' !in s;
    assert "|" + s + "|" == "||A||";
  }
}
