/**
 HTML lower-cases attribute names, so camel-case names travel through it as a marked kebab form
 and are turned back when the template is compiled.
 */
module AttributeCase {

  const Marker: string := "sc-camel-"

  predicate IsUpper(c: char) {
    'A' <= c <= 'Z'
  }

  predicate IsLower(c: char) {
    'a' <= c <= 'z'
  }

  function ToLower(c: char): char {
    if IsUpper(c) then c + ('a' - 'A') else c
  }

  function ToUpper(c: char): char {
    if IsLower(c) then c - ('a' - 'A') else c
  }

  function LowerCase(s: string): string {
    seq(|s|, i requires 0 <= i < |s| => ToLower(s[i]))
  }

  function Kebab(name: string): string {
    if name == [] then []
    else (if IsUpper(name[0]) then ['-', ToLower(name[0])] else [name[0]]) + Kebab(name[1..])
  }

  function Encode(name: string): string {
    Marker + Kebab(name)
  }

  function KebabToCamel(s: string): string {
    if |s| >= 2 && s[0] == '-' && IsLower(s[1]) then [ToUpper(s[1])] + KebabToCamel(s[2..])
    else if s == [] then []
    else [s[0]] + KebabToCamel(s[1..])
  }

  function Decode(key: string): string {
    if Marker <= key then KebabToCamel(key[|Marker|..]) else key
  }

  /** What the encoder looks for: lower-case letters, an upper-case one, then letters and digits. */
  predicate IsCamel(name: string) {
    && name != [] && IsLower(name[0])
    && (exists i :: 0 < i < |name| && IsUpper(name[i]) && forall j :: 0 <= j < i ==> IsLower(name[j]))
    && (forall i :: 0 <= i < |name| ==> IsLower(name[i]) || IsUpper(name[i]) || '0' <= name[i] <= '9')
  }

  predicate HasKebab(name: string) {
    exists i :: 0 <= i < |name| - 1 && name[i] == '-' && IsLower(name[i + 1])
  }

  lemma {:induction false} KebabRoundTrip(name: string)
    ensures KebabToCamel(Kebab(name)) == name <==> !HasKebab(name)
  {
    if name != [] {
      var rest := name[1..];
      KebabRoundTrip(rest);
      assert HasKebab(rest) ==> HasKebab(name) by {
        if HasKebab(rest) {
          var i :| 0 <= i < |rest| - 1 && rest[i] == '-' && IsLower(rest[i + 1]);
          assert name[i + 1] == '-' && IsLower(name[i + 1 + 1]);
        }
      }
      var startsKebab := |name| > 1 && name[0] == '-' && IsLower(name[1]);
      assert HasKebab(name) ==> startsKebab || HasKebab(rest) by {
        if HasKebab(name) && !startsKebab {
          var i :| 0 <= i < |name| - 1 && name[i] == '-' && IsLower(name[i + 1]);
          assert rest[i - 1] == '-' && IsLower(rest[i - 1 + 1]);
        }
      }
      if startsKebab { assert HasKebab(name) by { assert name[0] == '-' && IsLower(name[0 + 1]); } }
    }
  }

  lemma UpperStep(c: char, rest: string)
    requires IsUpper(c)
    ensures KebabToCamel(['-', ToLower(c)] + rest) == [c] + KebabToCamel(rest)
  {
  }

  /** The marked form of any name gives the name back, unless the name holds a kebab of its own. */
  lemma EncodedNameRoundTrips(name: string)
    ensures Decode(Encode(name)) == name <==> !HasKebab(name)
    ensures IsCamel(name) ==> Decode(Encode(name)) == name
  {
    KebabRoundTrip(name);
    assert Encode(name)[|Marker|..] == Kebab(name);
  }

  lemma {:induction false} KebabHasNoUpper(name: string)
    ensures forall i :: 0 <= i < |Kebab(name)| ==> !IsUpper(Kebab(name)[i])
  {
    if name != [] { KebabHasNoUpper(name[1..]); }
  }

  /** Lower-casing by the HTML parser leaves the marked form alone, and it is never encoded again. */
  lemma EncodedNameSurvivesHtml(name: string)
    ensures LowerCase(Encode(name)) == Encode(name)
    ensures !IsCamel(Encode(name))
  {
    KebabHasNoUpper(name);
    forall i | 0 <= i < |Encode(name)| ensures !IsUpper(Encode(name)[i]) {
      if i >= |Marker| { assert Encode(name)[i] == Kebab(name)[i - |Marker|]; }
    }
  }
}
