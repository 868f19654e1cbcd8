/** The two canonical forms of a text: separators removed, and separators read as spaces. On ASCII
    text the compatibility normalisation is the identity and lower-casing is per letter. */
module Canonical {
  datatype Class = Separators | Whitespace

  predicate In(c: char, k: Class) {
    match k
    case Separators => c in {'-', '_', '.'}
    case Whitespace => c == ' ' || 9 <= c as int <= 13 || 28 <= c as int <= 31
  }

  predicate IsGap(c: char) {
    In(c, Separators) || In(c, Whitespace)
  }

  function LowerChar(c: char): char {
    if 'A' <= c <= 'Z' then (c as int + 32) as char else c
  }

  function Lower(s: string): string {
    if s == "" then "" else [LowerChar(s[0])] + Lower(s[1..])
  }

  /** Replace every run of a class by one replacement; `inRun` says whether a run is already under
      way, and so replaced, where the text starts. */
  function Replace(s: string, k: Class, filler: string, inRun: bool): string {
    if s == "" then ""
    else if In(s[0], k) then (if inRun then "" else filler) + Replace(s[1..], k, filler, true)
    else [s[0]] + Replace(s[1..], k, filler, false)
  }

  function Canonicalize(text: string): string {
    Replace(Replace(Lower(text), Separators, "", false), Whitespace, " ", false)
  }

  function CanonicalizeSpace(text: string): string {
    Replace(Replace(Lower(text), Separators, " ", false), Whitespace, " ", false)
  }

  // ---- the forms in one pass ----------------------------------------------------------------------

  function Erase(s: string): string {
    if s == "" then "" else if In(s[0], Separators) then Erase(s[1..]) else [s[0]] + Erase(s[1..])
  }

  lemma {:induction false} RemovingIsErasing(s: string, inRun: bool)
    ensures Replace(s, Separators, "", inRun) == Erase(s)
  {
    if s != "" {
      RemovingIsErasing(s[1..], In(s[0], Separators));
    }
  }

  /** Every run of separators and whitespace together becomes one space. */
  function Gapped(s: string, inGap: bool): string {
    if s == "" then ""
    else if IsGap(s[0]) then (if inGap then "" else " ") + Gapped(s[1..], true)
    else [s[0]] + Gapped(s[1..], false)
  }

  lemma {:induction false} TwoPassesAreOne(s: string, inSeparators: bool, inGap: bool)
    requires inSeparators ==> inGap
    ensures Replace(Replace(s, Separators, " ", inSeparators), Whitespace, " ", inGap) == Gapped(s, inGap)
  {
    if s != "" {
      var rest := Replace(s[1..], Separators, " ", In(s[0], Separators));
      if In(s[0], Separators) {
        TwoPassesAreOne(s[1..], true, true);
        if !inSeparators {
          assert (" " + rest)[0] == ' ' && (" " + rest)[1..] == rest;
        } else {
          assert "" + rest == rest;
        }
      } else {
        TwoPassesAreOne(s[1..], false, In(s[0], Whitespace));
        assert ([s[0]] + rest)[1..] == rest;
      }
    }
  }

  lemma OnePassForms(text: string)
    ensures Canonicalize(text) == Replace(Erase(Lower(text)), Whitespace, " ", false)
    ensures CanonicalizeSpace(text) == Gapped(Lower(text), false)
  {
    RemovingIsErasing(Lower(text), false);
    TwoPassesAreOne(Lower(text), false, false);
  }

  // ---- idempotence ------------------------------------------------------------------------------------

  /** Lower case, no separators, single spaces as the only whitespace, none first when in a gap. */
  predicate Normal(s: string, inGap: bool) {
    if s == "" then true
    else
      && LowerChar(s[0]) == s[0] && !In(s[0], Separators)
      && (In(s[0], Whitespace) ==> s[0] == ' ' && !inGap)
      && Normal(s[1..], In(s[0], Whitespace))
  }

  lemma {:induction false} NormalIsFixed(s: string, inGap: bool)
    requires Normal(s, inGap)
    ensures Lower(s) == s && Erase(s) == s && Replace(s, Whitespace, " ", inGap) == s && Gapped(s, inGap) == s
  {
    if s != "" {
      NormalIsFixed(s[1..], In(s[0], Whitespace));
      assert s == [s[0]] + s[1..];
    }
  }

  lemma LowerStaysLower(c: char)
    ensures LowerChar(LowerChar(c)) == LowerChar(c)
    ensures In(LowerChar(c), Separators) <==> In(c, Separators)
    ensures In(LowerChar(c), Whitespace) <==> In(c, Whitespace)
  {
  }

  lemma {:induction false} StripIsNormal(s: string, inGap: bool)
    ensures Normal(Replace(Erase(Lower(s)), Whitespace, " ", inGap), inGap)
  {
    if s != "" {
      LowerStaysLower(s[0]);
      StripIsNormal(s[1..], if In(s[0], Separators) then inGap else In(s[0], Whitespace));
      assert Lower(s)[1..] == Lower(s[1..]);
      if !In(s[0], Separators) {
        assert Erase(Lower(s))[1..] == Erase(Lower(s[1..]));
        var rest := Replace(Erase(Lower(s[1..])), Whitespace, " ", In(s[0], Whitespace));
        assert ([LowerChar(s[0])] + rest)[1..] == rest && (" " + rest)[1..] == rest && "" + rest == rest;
      }
    }
  }

  lemma {:induction false} GappedIsNormal(s: string, inGap: bool)
    ensures Normal(Gapped(Lower(s), inGap), inGap)
  {
    if s != "" {
      LowerStaysLower(s[0]);
      GappedIsNormal(s[1..], IsGap(s[0]));
      assert Lower(s)[1..] == Lower(s[1..]);
      var rest := Gapped(Lower(s[1..]), IsGap(s[0]));
      assert ([LowerChar(s[0])] + rest)[1..] == rest && (" " + rest)[1..] == rest && "" + rest == rest;
    }
  }

  /** Both forms are idempotent, and each is a fixed point of the other. */
  lemma FormsAreIdempotent(text: string)
    ensures Canonicalize(Canonicalize(text)) == Canonicalize(text)
    ensures CanonicalizeSpace(CanonicalizeSpace(text)) == CanonicalizeSpace(text)
    ensures Canonicalize(CanonicalizeSpace(text)) == CanonicalizeSpace(text)
    ensures CanonicalizeSpace(Canonicalize(text)) == Canonicalize(text)
  {
    hide Replace, Gapped, Erase, Lower, Normal;
    var strip, space := Canonicalize(text), CanonicalizeSpace(text);
    OnePassForms(text);
    StripIsNormal(text, false);
    GappedIsNormal(text, false);
    NormalIsFixed(strip, false);
    NormalIsFixed(space, false);
    OnePassForms(strip);
    OnePassForms(space);
  }

  /** Lower case, no separators, and no whitespace but single spaces. */
  predicate Plain(s: string) {
    && (forall i :: 0 <= i < |s| ==>
          && !('A' <= s[i] <= 'Z') && s[i] !in {'-', '_', '.'}
          && !(9 <= s[i] as int <= 13) && !(28 <= s[i] as int <= 31))
    && forall i :: 0 < i < |s| && s[i] == ' ' ==> s[i - 1] != ' '
  }

  lemma {:induction false} PlainIsNormal(s: string, inGap: bool)
    requires Plain(s) && (s != "" && inGap ==> s[0] != ' ')
    ensures Normal(s, inGap)
  {
    if s != "" {
      var rest := s[1..];
      assert Plain(rest) by {
        assert forall i :: 0 <= i < |rest| ==> rest[i] == s[i + 1];
        assert forall i :: 0 < i < |rest| && rest[i] == ' ' ==> s[i + 1 - 1] != ' ';
      }
      PlainIsNormal(rest, In(s[0], Whitespace));
    }
  }

  /** A plain text is its own strip form and its own space form: nothing else is taken from it. */
  lemma PlainIsItsOwnForm(s: string)
    requires Plain(s)
    ensures Canonicalize(s) == s && CanonicalizeSpace(s) == s
  {
    hide Replace, Gapped, Erase, Lower, Normal;
    PlainIsNormal(s, false);
    NormalIsFixed(s, false);
    OnePassForms(s);
  }

  /** The case of a letter does not matter to either form. */
  lemma CaseIsIgnored(a: string, c: char, d: char, b: string)
    requires 'A' <= c <= 'Z' && d as int == c as int + 32
    ensures Canonicalize(a + [c] + b) == Canonicalize(a + [d] + b)
    ensures CanonicalizeSpace(a + [c] + b) == CanonicalizeSpace(a + [d] + b)
  {
    hide Replace;
    LowerSplit(a + [c], b);
    LowerSplit(a, [c]);
    LowerSplit(a + [d], b);
    LowerSplit(a, [d]);
    assert Lower([c]) == [d] == Lower([d]);
  }

  // ---- the two forms agree up to spaces ---------------------------------------------------------------

  function EraseSpaces(s: string): string {
    if s == "" then "" else if s[0] == ' ' then EraseSpaces(s[1..]) else [s[0]] + EraseSpaces(s[1..])
  }

  /** What is left of a text without its gaps. */
  function Core(s: string): string {
    if s == "" then "" else if IsGap(s[0]) then Core(s[1..]) else [s[0]] + Core(s[1..])
  }

  lemma {:induction false} StripCore(s: string, inGap: bool)
    ensures EraseSpaces(Replace(Erase(s), Whitespace, " ", inGap)) == Core(s)
  {
    if s != "" {
      StripCore(s[1..], if In(s[0], Separators) then inGap else In(s[0], Whitespace));
      if !In(s[0], Separators) {
        assert Erase(s)[1..] == Erase(s[1..]);
        var rest := Replace(Erase(s[1..]), Whitespace, " ", In(s[0], Whitespace));
        assert ([s[0]] + rest)[1..] == rest && (" " + rest)[1..] == rest && "" + rest == rest;
      }
    }
  }

  lemma {:induction false} GappedCore(s: string, inGap: bool)
    ensures EraseSpaces(Gapped(s, inGap)) == Core(s)
  {
    if s != "" {
      GappedCore(s[1..], IsGap(s[0]));
      var rest := Gapped(s[1..], IsGap(s[0]));
      assert ([s[0]] + rest)[1..] == rest && (" " + rest)[1..] == rest && "" + rest == rest;
    }
  }

  /** The characters of a text that are neither separators nor whitespace, in lower case. */
  function Letters(s: string): string {
    if s == "" then ""
    else
      var c := s[0];
      if c in {'-', '_', '.', ' '} || 9 <= c as int <= 13 || 28 <= c as int <= 31 then Letters(s[1..])
      else [if 'A' <= c <= 'Z' then (c as int + 32) as char else c] + Letters(s[1..])
  }

  lemma {:induction false} CoreIsLetters(s: string)
    ensures Core(Lower(s)) == Letters(s)
  {
    if s != "" {
      LowerStaysLower(s[0]);
      assert Lower(s)[1..] == Lower(s[1..]);
      CoreIsLetters(s[1..]);
    }
  }

  /** Once spaces are erased the two forms are the same text: the letters of the original. */
  lemma FormsAgreeUpToSpaces(text: string)
    ensures EraseSpaces(Canonicalize(text)) == Letters(text)
    ensures EraseSpaces(CanonicalizeSpace(text)) == Letters(text)
  {
    OnePassForms(text);
    StripCore(Lower(text), false);
    GappedCore(Lower(text), false);
    CoreIsLetters(text);
  }

  // ---- respelling ---------------------------------------------------------------------------------------

  lemma {:induction false} LowerSplit(a: string, b: string)
    ensures Lower(a + b) == Lower(a) + Lower(b)
  {
    if a == "" {
      assert a + b == b;
    } else {
      assert (a + b)[1..] == a[1..] + b;
      LowerSplit(a[1..], b);
    }
  }

  lemma {:induction false} EraseSplit(a: string, b: string)
    ensures Erase(a + b) == Erase(a) + Erase(b)
  {
    if a == "" {
      assert a + b == b;
    } else {
      assert (a + b)[1..] == a[1..] + b;
      EraseSplit(a[1..], b);
    }
  }

  predicate AllSeparators(g: string) {
    forall i :: 0 <= i < |g| ==> g[i] in {'-', '_', '.'}
  }

  lemma {:induction false} SeparatorsErased(g: string)
    requires AllSeparators(g)
    ensures Erase(Lower(g)) == ""
  {
    if g != "" {
      LowerStaysLower(g[0]);
      SeparatorsErased(g[1..]);
    }
  }

  /** Inserting separators anywhere, or deleting them, leaves the strip form as it was. */
  lemma StripIgnoresSeparators(a: string, g: string, b: string)
    requires AllSeparators(g)
    ensures Canonicalize(a + g + b) == Canonicalize(a + b)
  {
    hide Replace, Erase, Lower;
    OnePassForms(a + g + b);
    OnePassForms(a + b);
    LowerSplit(a + g, b);
    LowerSplit(a, g);
    LowerSplit(a, b);
    EraseSplit(Lower(a) + Lower(g), Lower(b));
    EraseSplit(Lower(a), Lower(g));
    EraseSplit(Lower(a), Lower(b));
    SeparatorsErased(g);
    assert Erase(Lower(a)) + "" == Erase(Lower(a));
  }

  /** Whether a text ends inside a gap. */
  function EndsInGap(s: string, inGap: bool): bool {
    if s == "" then inGap else IsGap(s[|s| - 1])
  }

  lemma {:induction false} GappedSplit(a: string, b: string, inGap: bool)
    ensures Gapped(a + b, inGap) == Gapped(a, inGap) + Gapped(b, EndsInGap(a, inGap))
  {
    if a == "" {
      assert a + b == b;
    } else {
      assert (a + b)[1..] == a[1..] + b;
      GappedSplit(a[1..], b, IsGap(a[0]));
    }
  }

  predicate AllGap(g: string) {
    g != "" && forall i :: 0 <= i < |g| ==>
      g[i] in {'-', '_', '.', ' '} || 9 <= g[i] as int <= 13 || 28 <= g[i] as int <= 31
  }

  lemma {:induction false} GapIsOneSpace(g: string, inGap: bool)
    requires AllGap(g)
    ensures Gapped(Lower(g), inGap) == (if inGap then "" else " ") && EndsInGap(Lower(g), inGap)
  {
    LowerStaysLower(g[0]);
    assert Lower(g)[1..] == Lower(g[1..]);
    if |g| > 1 {
      GapIsOneSpace(g[1..], true);
      assert Lower(g)[|Lower(g)| - 1] == Lower(g[1..])[|Lower(g[1..])| - 1];
    } else {
      assert Lower(g) == [LowerChar(g[0])];
    }
  }

  /** Respelling a gap of separators and whitespace as any other leaves the space form as it was. */
  lemma SpaceIgnoresGapSpelling(a: string, g: string, g': string, b: string)
    requires AllGap(g) && AllGap(g')
    ensures CanonicalizeSpace(a + g + b) == CanonicalizeSpace(a + g' + b)
  {
    GapForm(a, g, b);
    GapForm(a, g', b);
  }

  lemma GapForm(a: string, g: string, b: string)
    requires AllGap(g)
    ensures var atGap := EndsInGap(Lower(a), false);
            CanonicalizeSpace(a + g + b)
            == Gapped(Lower(a), false) + (if atGap then "" else " ") + Gapped(Lower(b), true)
  {
    hide Gapped, Lower, Replace;
    OnePassForms(a + g + b);
    LowerSplit(a + g, b);
    LowerSplit(a, g);
    GappedSplit(Lower(a) + Lower(g), Lower(b), false);
    GappedSplit(Lower(a), Lower(g), false);
    GapIsOneSpace(g, EndsInGap(Lower(a), false));
    assert EndsInGap(Lower(a) + Lower(g), false) by {
      LowerNonEmpty(g);
    }
  }

  lemma LowerNonEmpty(g: string)
    requires g != ""
    ensures Lower(g) != ""
  {
  }
}
