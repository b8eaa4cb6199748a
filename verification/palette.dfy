/**
 * The fixed colour schemes of the page script and the lookup that picks one
 * by name, case-insensitively, falling back to `cosmic`.
 */
module Palette {

  /** A colour as the script writes it: a `#RRGGBB` hex string. */
  type Color = string

  const DefaultScheme: string := "cosmic"

  /** The scheme table, keyed by lower-case name. */
  const ColorSchemes: map<string, seq<Color>> := map[
    "cosmic" := ["#FF006E", "#FB5607", "#FFBE0B", "#8338EC", "#3A86FF"],
    "ocean" := ["#03045E", "#0077B6", "#00B4D8", "#90E0EF", "#CAF0F8"],
    "sunset" := ["#FF5400", "#FF6D00", "#FF8500", "#FFAA00", "#FFDD00"],
    "forest" := ["#2D6A4F", "#40916C", "#52B788", "#74C69D", "#95D5B2"],
    "fire" := ["#370617", "#6A040F", "#9D0208", "#D00000", "#DC2F02"],
    "neon" := ["#FF006E", "#00F5FF", "#FFFF00", "#FF00FF", "#00FF00"],
    "monochrome" := ["#000000", "#333333", "#666666", "#999999", "#CCCCCC"],
    "pastel" := ["#FFB5E8", "#B5DEFF", "#C5FFC5", "#FFF4B5", "#FFCCE6"]
  ]

  /** Lower-cases one character; only the ASCII letters A-Z change. */
  function LowerChar(c: char): (r: char)
    ensures 'A' <= c <= 'Z' ==> 'a' <= r <= 'z' && r as int - c as int == 32
    ensures !('A' <= c <= 'Z') ==> r == c
  {
    if 'A' <= c <= 'Z' then (c as int + 32) as char else c
  }

  /** `toLowerCase()` restricted to ASCII: same length, no upper-case letter left. */
  function Lower(s: string): (r: string)
    ensures |r| == |s|
    ensures forall i :: 0 <= i < |r| ==> !('A' <= r[i] <= 'Z')
    ensures forall i :: 0 <= i < |s| && !('A' <= s[i] <= 'Z') ==> r[i] == s[i]
    ensures forall i :: 0 <= i < |s| && 'A' <= s[i] <= 'Z' ==> r[i] as int == s[i] as int + 32
  {
    seq(|s|, i requires 0 <= i < |s| => LowerChar(s[i]))
  }

  /** Lower-casing twice is lower-casing once. */
  lemma LowerIdempotent(s: string)
    ensures Lower(Lower(s)) == Lower(s)
  {
    var l := Lower(s);
    forall i | 0 <= i < |l|
      ensures Lower(l)[i] == l[i]
    {
      assert !('A' <= l[i] <= 'Z');
    }
  }

  /** `colorSchemes[SCHEME] || colorSchemes.cosmic` with `SCHEME` lower-cased. */
  function Resolve(name: string): (p: seq<Color>)
    ensures |p| == 5
    ensures p in ColorSchemes.Values
    ensures Lower(name) in ColorSchemes ==> p == ColorSchemes[Lower(name)]
    ensures Lower(name) !in ColorSchemes ==> p == ColorSchemes[DefaultScheme]
  {
    var key := Lower(name);
    if key in ColorSchemes then ColorSchemes[key] else ColorSchemes[DefaultScheme]
  }

  /** The table holds exactly the eight listed names, each with five colours. */
  lemma SchemesHaveFiveColors()
    ensures ColorSchemes.Keys == {"cosmic", "ocean", "sunset", "forest", "fire", "neon", "monochrome", "pastel"}
    ensures forall k :: k in ColorSchemes ==> |ColorSchemes[k]| == 5
  {
  }

  /** Lookup ignores case: a name and its lower-case form select the same palette. */
  lemma ResolveIgnoresCase(name: string)
    ensures Resolve(name) == Resolve(Lower(name))
  {
    LowerIdempotent(name);
  }

  /** An unknown name selects the same palette as `cosmic`. */
  lemma UnknownSchemeIsCosmic()
    ensures Resolve("not-a-real-scheme") == Resolve("cosmic")
    ensures Resolve("OCEAN") == ColorSchemes["ocean"]
  {
    assert Lower("not-a-real-scheme") == "not-a-real-scheme";
    assert Lower("cosmic") == "cosmic";
    assert Lower("OCEAN") == "ocean";
  }
}
