/** Tripwire scans over both canonical forms, and the bounded, deduplicated history of firings. A
    pattern is an arbitrary search on the canonical text. */
module Tripwires {
  import opened Prelude
  import opened Canonical

  /** Where a match starts and ends. */
  datatype Match = Match(start: nat, end: nat)

  datatype Pattern = Pattern(name: string, search: string -> Option<Match>)

  datatype Firing = Firing(name: string, snippet: string)

  datatype Key = Key(name: string, prefix: string)

  function KeyOf(f: Firing): Key {
    Key(f.name, if |f.snippet| <= 80 then f.snippet else f.snippet[..80])
  }

  function Keys(fs: seq<Firing>): (r: seq<Key>)
    ensures |r| == |fs|
    ensures forall i :: 0 <= i < |fs| ==> r[i] == KeyOf(fs[i])
  {
    seq(|fs|, i requires 0 <= i < |fs| => KeyOf(fs[i]))
  }

  /** The text from `start` to `end`, with both bounds cut to the text. */
  function Slice(s: string, start: int, end: int): string {
    var lo := if start < 0 then 0 else if start > |s| then |s| else start;
    var hi := if end < lo then lo else if end > |s| then |s| else end;
    s[lo..hi]
  }

  // ---- one scan --------------------------------------------------------------------------------

  predicate Fires(p: Pattern, text: string) {
    p.search(Canonicalize(text)).Some? || p.search(CanonicalizeSpace(text)).Some?
  }

  /** The firing of a pattern that fires: on the strip form if it matches there. */
  function FiringOf(p: Pattern, text: string): Firing
    requires Fires(p, text)
  {
    var strip, space := Canonicalize(text), CanonicalizeSpace(text);
    if p.search(strip).Some? then
      var m := p.search(strip).value;
      Firing(p.name, Slice(strip, m.start - 40, m.end + 40))
    else
      var m := p.search(space).value;
      Firing(p.name, Slice(space, m.start - 40, m.end + 40))
  }

  /** One firing for each pattern that fires, in the order of the patterns. */
  function Firings(patterns: seq<Pattern>, text: string): seq<Firing> {
    if patterns == [] then []
    else
      var rest := Firings(patterns[..|patterns| - 1], text);
      var p := patterns[|patterns| - 1];
      if Fires(p, text) then rest + [FiringOf(p, text)] else rest
  }

  method ScanDualForm(patterns: seq<Pattern>, text: string) returns (firings: seq<Firing>)
    ensures firings == Firings(patterns, text)
  {
    var forms := [Canonicalize(text), CanonicalizeSpace(text)];
    firings := [];
    for i := 0 to |patterns|
      invariant firings == Firings(patterns[..i], text)
    {
      assert patterns[..i + 1][..i] == patterns[..i];
      var p := patterns[i];
      for k := 0 to |forms|
        invariant firings == Firings(patterns[..i], text)
        invariant forall j :: 0 <= j < k ==> p.search(forms[j]).None?
      {
        var m := p.search(forms[k]);
        if m.Some? {
          assert Fires(p, text) by {
            assert forms[0] == Canonicalize(text) && forms[1] == CanonicalizeSpace(text);
          }
          firings := firings + [Firing(p.name, Slice(forms[k], m.value.start - 40, m.value.end + 40))];
          break;
        }
      }
    }
    assert patterns[..|patterns|] == patterns;
  }

  /** Two firings share a key exactly if they have one name and the same first eighty characters. */
  lemma KeysMatchIff(f: Firing, g: Firing)
    ensures KeyOf(f) == KeyOf(g) <==>
            && f.name == g.name
            && (f.snippet == g.snippet || (|f.snippet| >= 80 && |g.snippet| >= 80 && f.snippet[..80] == g.snippet[..80]))
  {
  }

  /** The snippet of a firing: the match, in the form it was found in, with up to forty characters on
      either side. */
  lemma SnippetHoldsMatch(p: Pattern, text: string) returns (form: string, m: Match)
    requires Fires(p, text)
    ensures form == if p.search(Canonicalize(text)).Some? then Canonicalize(text) else CanonicalizeSpace(text)
    ensures p.search(form) == Some(m) && FiringOf(p, text).name == p.name
    ensures m.start <= m.end <= |form| ==>
              var lo := if m.start < 40 then 0 else m.start - 40;
              var hi := if m.end + 40 > |form| then |form| else m.end + 40;
              FiringOf(p, text).snippet == form[lo..m.start] + form[m.start..m.end] + form[m.end..hi]
  {
    hide Slice, Canonicalize, CanonicalizeSpace;
    form := if p.search(Canonicalize(text)).Some? then Canonicalize(text) else CanonicalizeSpace(text);
    m := p.search(form).value;
    if m.start <= m.end <= |form| {
      SliceAround(form, m);
    }
  }

  lemma SliceAround(s: string, m: Match)
    requires m.start <= m.end <= |s|
    ensures var lo := if m.start < 40 then 0 else m.start - 40;
            var hi := if m.end + 40 > |s| then |s| else m.end + 40;
            Slice(s, m.start - 40, m.end + 40) == s[lo..m.start] + s[m.start..m.end] + s[m.end..hi]
  {
    var lo := if m.start < 40 then 0 else m.start - 40;
    var hi := if m.end + 40 > |s| then |s| else m.end + 40;
    assert Slice(s, m.start - 40, m.end + 40) == s[lo..hi];
    assert s[lo..hi] == s[lo..m.end] + s[m.end..hi];
    assert s[lo..m.end] == s[lo..m.start] + s[m.start..m.end];
  }

  predicate Mentions(fs: seq<Firing>, name: string) {
    exists i :: 0 <= i < |fs| && fs[i].name == name
  }

  /** A label fires exactly when one of its patterns matches either form. */
  lemma {:induction false} LabelFiresIff(patterns: seq<Pattern>, text: string, name: string)
    ensures Mentions(Firings(patterns, text), name)
            <==> exists i :: 0 <= i < |patterns| && patterns[i].name == name && Fires(patterns[i], text)
  {
    if patterns != [] {
      var last := |patterns| - 1;
      var p := patterns[last];
      var rest := Firings(patterns[..last], text);
      LabelFiresIff(patterns[..last], text, name);
      if Fires(p, text) {
        var f := FiringOf(p, text);
        assert (rest + [f])[|rest|] == f;
        assert forall i :: 0 <= i < |rest| ==> (rest + [f])[i] == rest[i];
      }
      assert forall i :: 0 <= i < last ==> patterns[..last][i] == patterns[i];
    }
  }

  /** A pattern that matches the strip form goes on firing however separators are inserted. */
  lemma StripFiringSurvives(p: Pattern, a: string, g: string, b: string)
    requires AllSeparators(g)
    ensures p.search(Canonicalize(a + g + b)) == p.search(Canonicalize(a + b))
    ensures p.search(Canonicalize(a + b)).Some? ==> Fires(p, a + g + b)
    ensures p.search(Canonicalize(a + g + b)).Some? ==> Fires(p, a + b)
  {
    StripIgnoresSeparators(a, g, b);
  }

  /** A pattern that matches the space form goes on firing however a gap is respelled. */
  lemma SpaceFiringSurvives(p: Pattern, a: string, g: string, g': string, b: string)
    requires AllGap(g) && AllGap(g')
    ensures p.search(CanonicalizeSpace(a + g + b)) == p.search(CanonicalizeSpace(a + g' + b))
    ensures p.search(CanonicalizeSpace(a + g + b)).Some? ==> Fires(p, a + g' + b)
  {
    SpaceIgnoresGapSpelling(a, g, g', b);
  }

  // ---- the bounded history ------------------------------------------------------------------------

  /** A firing with a new key is appended and pushes out the oldest beyond the bound. */
  function Push(h: seq<Firing>, f: Firing, max: nat): seq<Firing> {
    if KeyOf(f) in Keys(h) then h else Last(h + [f], max)
  }

  function PushAll(h: seq<Firing>, fs: seq<Firing>, max: nat): seq<Firing> {
    if fs == [] then h else Push(PushAll(h, fs[..|fs| - 1], max), fs[|fs| - 1], max)
  }

  class Tripwires {
    const patterns: seq<Pattern>
    const max: nat
    var fired: seq<Firing>
    var keys: seq<Key>

    /** The key dictionary, in insertion order, lists the keys of the queue. */
    ghost predicate Valid()
      reads this
    {
      keys == Keys(fired) && Distinct(keys) && |fired| <= max
    }

    constructor (patterns: seq<Pattern>, max: nat)
      ensures Valid() && this.patterns == patterns && this.max == max && fired == []
    {
      this.patterns, this.max, fired, keys := patterns, max, [], [];
    }

    /** Scan a text and remember what fired; `ok` is false where the zero bound makes it fail. */
    method ScanText(text: string) returns (ok: bool, firings: seq<Firing>)
      requires Valid()
      modifies this
      ensures Valid()
      ensures firings == Firings(patterns, text)
      ensures ok <==> max > 0 || firings == []
      ensures fired == if ok then PushAll(old(fired), firings, max) else old(fired)
    {
      firings := ScanDualForm(patterns, text);
      ok := true;
      if firings != [] {
        ok := RecordFirings(firings);
      }
    }

    /** Record the firings of a scan. With a bound of zero the first firing fails on the empty
        dictionary. */
    method RecordFirings(firings: seq<Firing>) returns (ok: bool)
      requires Valid()
      modifies this
      ensures Valid()
      ensures ok <==> max > 0 || firings == []
      ensures fired == if ok then PushAll(old(fired), firings, max) else old(fired)
    {
      for i := 0 to |firings|
        invariant Valid()
        invariant max > 0 || i == 0
        invariant fired == PushAll(old(fired), firings[..i], max)
      {
        assert firings[..i + 1][..i] == firings[..i];
        var f := firings[i];
        var key := KeyOf(f);
        if key !in keys {
          if max == 0 {
            return false;
          }
          PushKeepsKeys(fired, f, max);
          if |fired| >= max {
            keys := keys[1..];
          }
          fired := Last(fired + [f], max);
          keys := keys + [key];
        }
      }
      assert firings[..|firings|] == firings;
      ok := true;
    }

    method Clear()
      modifies this
      ensures Valid() && fired == []
    {
      fired, keys := [], [];
    }
  }

  /** A new key joins the queue of keys at the back, and evicts only the oldest, and that only
      when the queue is full. */
  lemma PushKeepsKeys(h: seq<Firing>, f: Firing, max: nat)
    requires max > 0 && |h| <= max && Distinct(Keys(h)) && KeyOf(f) !in Keys(h)
    ensures Keys(Push(h, f, max)) == (if |h| >= max then Keys(h)[1..] else Keys(h)) + [KeyOf(f)]
    ensures Distinct(Keys(Push(h, f, max)))
    ensures |Push(h, f, max)| == if |h| >= max then |h| else |h| + 1
  {
  }

  // ---- any sequence of scans and clears --------------------------------------------------------------

  datatype Action = Scan(firings: seq<Firing>) | ClearAll

  function Run(max: nat, actions: seq<Action>): seq<Firing> {
    if actions == [] then []
    else
      var before := Run(max, actions[..|actions| - 1]);
      match actions[|actions| - 1]
      case Scan(firings) => PushAll(before, firings, max)
      case ClearAll => []
  }

  lemma {:induction false} PushAllKeepsBounds(h: seq<Firing>, fs: seq<Firing>, max: nat)
    requires max > 0 && |h| <= max && Distinct(Keys(h))
    ensures |PushAll(h, fs, max)| <= max && Distinct(Keys(PushAll(h, fs, max)))
  {
    if fs != [] {
      var init, f := fs[..|fs| - 1], fs[|fs| - 1];
      PushAllKeepsBounds(h, init, max);
      if KeyOf(f) !in Keys(PushAll(h, init, max)) {
        PushKeepsKeys(PushAll(h, init, max), f, max);
      }
    }
  }

  /** Over every sequence of scans and clears the history has no duplicate key and stays within
      its bound. */
  lemma {:induction false} HistoryStaysBounded(max: nat, actions: seq<Action>)
    requires max > 0
    ensures |Run(max, actions)| <= max && Distinct(Keys(Run(max, actions)))
  {
    if actions != [] {
      var before := Run(max, actions[..|actions| - 1]);
      HistoryStaysBounded(max, actions[..|actions| - 1]);
      if actions[|actions| - 1].Scan? {
        PushAllKeepsBounds(before, actions[|actions| - 1].firings, max);
      }
    }
  }

  /** The firings that were appended because their key was new at the time, oldest first. */
  function Added(h: seq<Firing>, fs: seq<Firing>, max: nat): seq<Firing> {
    if fs == [] then []
    else
      var init := fs[..|fs| - 1];
      if KeyOf(fs[|fs| - 1]) in Keys(PushAll(h, init, max)) then Added(h, init, max)
      else Added(h, init, max) + [fs[|fs| - 1]]
  }

  lemma LastOfLast<T>(a: seq<T>, x: T, n: nat)
    ensures Last(Last(a, n) + [x], n) == Last(a + [x], n)
  {
  }

  /** The history is a queue: it holds the last `max` of what it held and what was appended, so an
      entry leaves only after enough newer keys have come in. */
  lemma {:induction false} HistoryIsFifo(h: seq<Firing>, fs: seq<Firing>, max: nat)
    requires |h| <= max
    ensures PushAll(h, fs, max) == Last(h + Added(h, fs, max), max)
  {
    if fs == [] {
      assert h + [] == h;
    } else {
      var init, f := fs[..|fs| - 1], fs[|fs| - 1];
      HistoryIsFifo(h, init, max);
      if KeyOf(f) !in Keys(PushAll(h, init, max)) {
        LastOfLast(h + Added(h, init, max), f, max);
        assert h + Added(h, init, max) + [f] == h + (Added(h, init, max) + [f]);
      }
    }
  }

  /** Every key seen up to some point of a scan is still in the history after it, unless enough new
      keys came later to push it out. */
  lemma KeyIsRemembered(h: seq<Firing>, fs: seq<Firing>, max: nat, p: nat)
    requires |h| <= max && p < |h| && |h| - p + |Added(h, fs, max)| <= max
    ensures KeyOf(h[p]) in Keys(PushAll(h, fs, max))
  {
    hide PushAll, Added, KeyOf;
    HistoryIsFifo(h, fs, max);
    var all := h + Added(h, fs, max);
    var after := Last(all, max);
    var q := if |all| <= max then p else p - (|all| - max);
    assert all[p] == h[p];
    assert after[q] == all[p];
    assert Keys(after)[q] == KeyOf(h[p]);
  }

  /** After a scan the key of its last firing is in the history. */
  lemma LastFiringIsRemembered(h: seq<Firing>, fs: seq<Firing>, max: nat)
    requires max > 0 && fs != []
    ensures KeyOf(fs[|fs| - 1]) in Keys(PushAll(h, fs, max))
  {
    var f := fs[|fs| - 1];
    var before := PushAll(h, fs[..|fs| - 1], max);
    if KeyOf(f) !in Keys(before) {
      var r := Last(before + [f], max);
      assert r[|r| - 1] == f;
      assert Keys(r)[|r| - 1] == KeyOf(f);
    }
  }
}
