/** The skill catalog: layering and rendering (internal/skills/skills.go). */
module Skills {
  import opened Common

  datatype Skill = Skill(name: string, description: string, path: string)

  // ---- the order of names ----

  /** Strings in code point order, which is also the byte order of their UTF-8 encodings. */
  predicate Less(a: string, b: string) {
    b != "" && (a == "" || a[0] < b[0] || (a[0] == b[0] && Less(a[1..], b[1..])))
  }

  lemma {:induction false} LessIsStrict(a: string)
    ensures !Less(a, a)
  {
    if a != "" { LessIsStrict(a[1..]); }
  }

  lemma {:induction false} LessIsTotal(a: string, b: string)
    ensures a == b || Less(a, b) || Less(b, a)
  {
    if a != "" && b != "" && a[0] == b[0] {
      LessIsTotal(a[1..], b[1..]);
      assert a == [a[0]] + a[1..] && b == [b[0]] + b[1..];
    }
  }

  lemma {:induction false} LessIsTransitive(a: string, b: string, c: string)
    requires Less(a, b) && Less(b, c)
    ensures Less(a, c)
  {
    if a != "" && a[0] == b[0] && b[0] == c[0] {
      LessIsTransitive(a[1..], b[1..], c[1..]);
    }
  }

  /** a ends before b, or at the first character where they differ has the smaller one. */
  predicate FirstDiffers(a: string, b: string, k: nat) {
    k <= |a| && k < |b| && a[..k] == b[..k] && (k == |a| || a[k] < b[k])
  }

  lemma FirstDiffersShift(a: string, b: string, k: nat)
    requires a != "" && b != "" && a[0] == b[0]
    ensures FirstDiffers(a[1..], b[1..], k) <==> FirstDiffers(a, b, k + 1)
    ensures !FirstDiffers(a, b, 0)
  {
    if k + 1 <= |a| && k + 1 <= |b| {
      assert a[..k + 1] == [a[0]] + a[1..][..k] && b[..k + 1] == [b[0]] + b[1..][..k];
      assert a[1..][..k] == a[..k + 1][1..] && b[1..][..k] == b[..k + 1][1..];
    }
  }

  lemma HeadsAgree(a: string, b: string, k: nat)
    requires FirstDiffers(a, b, k) && k > 0
    ensures a != "" && b != "" && a[0] == b[0]
  {
    assert a[..k][0] == a[0] && b[..k][0] == b[0];
  }

  /** The order of names is the lexicographic one. */
  lemma {:induction false} LessIff(a: string, b: string)
    ensures Less(a, b) <==> exists k: nat :: FirstDiffers(a, b, k)
  {
    if a == "" || b == "" || a[0] != b[0] {
      assert Less(a, b) ==> FirstDiffers(a, b, 0);
      forall k: nat | FirstDiffers(a, b, k)
        ensures k == 0
      {
        if k > 0 { HeadsAgree(a, b, k); }
      }
    } else {
      LessIff(a[1..], b[1..]);
      if k: nat :| FirstDiffers(a[1..], b[1..], k) {
        FirstDiffersShift(a, b, k);
        assert FirstDiffers(a, b, k + 1);
      }
      if k: nat :| FirstDiffers(a, b, k) {
        FirstDiffersShift(a, b, 0);
        FirstDiffersShift(a, b, k - 1);
        assert FirstDiffers(a[1..], b[1..], k - 1);
      }
    }
  }

  // ---- merging ----

  /** One layer over the map so far: later skills replace earlier ones of the same name. */
  function Overlay(skills: map<string, Skill>, layer: seq<Skill>): map<string, Skill> {
    if layer == [] then skills
    else
      var s := layer[|layer| - 1];
      Overlay(skills, layer[..|layer| - 1])[s.name := s]
  }

  function ByName(layers: seq<seq<Skill>>): map<string, Skill> {
    if layers == [] then map[] else Overlay(ByName(layers[..|layers| - 1]), layers[|layers| - 1])
  }

  ghost predicate Sorted(s: seq<Skill>) {
    forall i, j :: 0 <= i < j < |s| ==> Less(s[i].name, s[j].name)
  }

  /** out lists the enabled skills of the map, strictly ordered by name. */
  ghost predicate IsCatalog(skills: map<string, Skill>, disabled: set<string>, out: seq<Skill>) {
    && Sorted(out)
    && forall s :: s in out <==> s.name in skills && skills[s.name] == s && s.name !in disabled
  }

  /** Every entry of the map is filed under its own name. */
  ghost predicate Keyed(skills: map<string, Skill>) {
    forall n :: n in skills ==> skills[n].name == n
  }

  lemma {:induction false} OverlayKeyed(skills: map<string, Skill>, layer: seq<Skill>)
    requires Keyed(skills)
    ensures Keyed(Overlay(skills, layer))
  {
    if layer != [] { OverlayKeyed(skills, layer[..|layer| - 1]); }
  }

  lemma {:induction false} ByNameKeyed(layers: seq<seq<Skill>>)
    ensures Keyed(ByName(layers))
  {
    if layers != [] {
      ByNameKeyed(layers[..|layers| - 1]);
      OverlayKeyed(ByName(layers[..|layers| - 1]), layers[|layers| - 1]);
    }
  }

  /** Inserts s into a sorted list that has no skill of that name. */
  method Insert(out: seq<Skill>, s: Skill) returns (r: seq<Skill>)
    requires Sorted(out) && forall t :: t in out ==> t.name != s.name
    ensures Sorted(r)
    ensures forall t :: t in r <==> t == s || t in out
  {
    var k := 0;
    while k < |out| && Less(out[k].name, s.name)
      invariant 0 <= k <= |out|
      invariant forall i :: 0 <= i < k ==> Less(out[i].name, s.name)
    {
      k := k + 1;
    }
    InsertSorted(out, s, k);
    r := out[..k] + [s] + out[k..];
    assert forall t :: t in out <==> t in out[..k] || t in out[k..] by {
      assert out == out[..k] + out[k..];
    }
  }

  lemma InsertSorted(out: seq<Skill>, s: Skill, k: nat)
    requires Sorted(out) && k <= |out|
    requires forall i :: 0 <= i < k ==> Less(out[i].name, s.name)
    requires k < |out| ==> out[k].name != s.name && !Less(out[k].name, s.name)
    ensures Sorted(out[..k] + [s] + out[k..])
  {
    if k < |out| {
      LessIsTotal(out[k].name, s.name);
      forall i | k < i < |out|
        ensures Less(s.name, out[i].name)
      {
        LessIsTransitive(s.name, out[k].name, out[i].name);
      }
    }
  }

  function NameSet(names: seq<string>): set<string> {
    set n | n in names
  }

  /** Layers skill lists. The map is enumerated in any order; the result does not depend on it. */
  method Merge(layers: seq<seq<Skill>>, disable: seq<string>) returns (out: seq<Skill>)
    ensures IsCatalog(ByName(layers), NameSet(disable), out)
  {
    var disabled: set<string> := {};
    for i := 0 to |disable|
      invariant disabled == NameSet(disable[..i])
    {
      disabled := disabled + {disable[i]};
      assert disable[..i + 1] == disable[..i] + [disable[i]];
    }
    assert disable[..|disable|] == disable;
    var skills := Collect(layers);
    ByNameKeyed(layers);
    out := SortedSkills(skills, disabled);
  }

  method Collect(layers: seq<seq<Skill>>) returns (skills: map<string, Skill>)
    ensures skills == ByName(layers)
  {
    skills := map[];
    for i := 0 to |layers|
      invariant skills == ByName(layers[..i])
    {
      assert layers[..i + 1][..i] == layers[..i];
      for j := 0 to |layers[i]|
        invariant skills == Overlay(ByName(layers[..i]), layers[i][..j])
      {
        assert layers[i][..j + 1][..j] == layers[i][..j];
        skills := skills[layers[i][j].name := layers[i][j]];
      }
      assert layers[i][..|layers[i]|] == layers[i];
    }
    assert layers[..|layers|] == layers;
  }

  method SortedSkills(skills: map<string, Skill>, disabled: set<string>) returns (out: seq<Skill>)
    requires Keyed(skills)
    ensures IsCatalog(skills, disabled, out)
  {
    out := [];
    var rest := skills.Keys;
    while rest != {}
      invariant rest <= skills.Keys && Sorted(out)
      invariant forall s :: s in out <==> s.name in skills.Keys - rest && skills[s.name] == s && s.name !in disabled
      decreases rest
    {
      var name :| name in rest;
      rest := rest - {name};
      if name !in disabled {
        out := Insert(out, skills[name]);
      }
    }
  }

  lemma FirstsAgree(skills: map<string, Skill>, disabled: set<string>, a: seq<Skill>, b: seq<Skill>)
    requires IsCatalog(skills, disabled, a) && IsCatalog(skills, disabled, b) && a != []
    ensures b != [] && a[0] == b[0]
  {
    assert a[0] in b;
    var i :| 0 <= i < |b| && b[i] == a[0];
    if i > 0 {
      assert b[0] in a;
      var j :| 0 <= j < |a| && a[j] == b[0];
      assert Less(b[0].name, a[0].name);
      if j > 0 { LessIsTransitive(a[0].name, b[0].name, a[0].name); }
      LessIsStrict(a[0].name);
    }
  }

  lemma TailCatalog(skills: map<string, Skill>, disabled: set<string>, a: seq<Skill>)
    requires IsCatalog(skills, disabled, a) && a != []
    ensures IsCatalog(skills, disabled + {a[0].name}, a[1..])
  {
    forall s
      ensures s in a[1..] <==> s.name in skills && skills[s.name] == s && s.name !in disabled + {a[0].name}
    {
      LessIsStrict(a[0].name);
      assert a == [a[0]] + a[1..];
      if s in a[1..] {
        var i :| 0 <= i < |a| - 1 && a[1..][i] == s;
        assert Less(a[0].name, a[i + 1].name);
        assert s in a;
      }
    }
  }

  /** There is exactly one catalog of a map: the result of Merge is determined by its arguments. */
  lemma {:induction false} CatalogIsUnique(skills: map<string, Skill>, disabled: set<string>, a: seq<Skill>, b: seq<Skill>)
    requires IsCatalog(skills, disabled, a) && IsCatalog(skills, disabled, b)
    ensures a == b
    decreases |a|
  {
    if a == [] {
      if b != [] { FirstsAgree(skills, disabled, b, a); }
    } else {
      FirstsAgree(skills, disabled, a, b);
      TailCatalog(skills, disabled, a);
      TailCatalog(skills, disabled, b);
      CatalogIsUnique(skills, disabled + {a[0].name}, a[1..], b[1..]);
      assert a == [a[0]] + a[1..] && b == [b[0]] + b[1..];
    }
  }

  // ---- last wins ----

  function Flatten(layers: seq<seq<Skill>>): seq<Skill> {
    if layers == [] then [] else Flatten(layers[..|layers| - 1]) + layers[|layers| - 1]
  }

  lemma {:induction false} OverlayConcat(skills: map<string, Skill>, a: seq<Skill>, b: seq<Skill>)
    ensures Overlay(skills, a + b) == Overlay(Overlay(skills, a), b)
  {
    if b == [] {
      assert a + b == a;
    } else {
      assert (a + b)[..|a + b| - 1] == a + b[..|b| - 1];
      OverlayConcat(skills, a, b[..|b| - 1]);
    }
  }

  lemma {:induction false} ByNameFlattens(layers: seq<seq<Skill>>)
    ensures ByName(layers) == Overlay(map[], Flatten(layers))
  {
    if layers != [] {
      var n := |layers| - 1;
      ByNameFlattens(layers[..n]);
      OverlayConcat(map[], Flatten(layers[..n]), layers[n]);
    }
  }

  /** Position i holds the last skill of its name. */
  predicate IsLast(all: seq<Skill>, i: nat)
    requires i < |all|
  {
    forall j :: i < j < |all| ==> all[j].name != all[i].name
  }

  /** s occurs in the list, and no later skill has its name. */
  ghost predicate Survives(all: seq<Skill>, s: Skill) {
    exists i :: 0 <= i < |all| && all[i] == s && IsLast(all, i)
  }

  lemma {:induction false} OverlayLastWins(all: seq<Skill>, s: Skill)
    ensures (s.name in Overlay(map[], all) && Overlay(map[], all)[s.name] == s)
            <==> Survives(all, s)
  {
    if all != [] {
      var n := |all| - 1;
      var init := all[..n];
      OverlayLastWins(init, s);
      if all[n].name == s.name {
        assert IsLast(all, n);
        if all[n] != s {
          forall i | 0 <= i < |all| && all[i] == s
            ensures !IsLast(all, i)
          {
            assert all[n].name == all[i].name && i < n;
          }
        }
      } else {
        LastOfInit(all, s);
      }
    }
  }

  lemma LastOfInit(all: seq<Skill>, s: Skill)
    requires all != [] && all[|all| - 1].name != s.name
    ensures Survives(all, s) <==> Survives(all[..|all| - 1], s)
  {
    var n := |all| - 1;
    forall i | 0 <= i < n && all[i] == s
      ensures IsLast(all, i) <==> IsLast(all[..n], i)
    {
    }
    if Survives(all, s) {
      var i :| 0 <= i < |all| && all[i] == s && IsLast(all, i);
      assert all[..n][i] == s && IsLast(all[..n], i);
    }
  }

  /** A skill is in the merged catalog iff it is the last of its name over all layers and enabled. */
  lemma LastWins(layers: seq<seq<Skill>>, disabled: set<string>, out: seq<Skill>, s: Skill)
    requires IsCatalog(ByName(layers), disabled, out)
    ensures s in out <==> s.name !in disabled && Survives(Flatten(layers), s)
  {
    ByNameFlattens(layers);
    OverlayLastWins(Flatten(layers), s);
  }

  // ---- merging in stages ----

  lemma {:induction false} OverlayDistinct(out: seq<Skill>, k: nat)
    requires Sorted(out) && k <= |out|
    ensures forall n :: n in Overlay(map[], out[..k]) <==> exists i :: 0 <= i < k && out[i].name == n
    ensures forall i :: 0 <= i < k ==> Overlay(map[], out[..k])[out[i].name] == out[i]
  {
    if k > 0 {
      OverlayDistinct(out, k - 1);
      assert out[..k][..k - 1] == out[..k - 1];
      forall i | 0 <= i < k - 1
        ensures out[i].name != out[k - 1].name
      {
        assert Less(out[i].name, out[k - 1].name);
        LessIsStrict(out[i].name);
      }
    }
  }

  /** The catalog of a map, read as a layer, is that map again. */
  lemma CatalogAsLayer(skills: map<string, Skill>, out: seq<Skill>)
    requires Keyed(skills) && IsCatalog(skills, {}, out)
    ensures Overlay(map[], out) == skills
  {
    OverlayDistinct(out, |out|);
    assert out[..|out|] == out;
    var m := Overlay(map[], out);
    forall n
      ensures n in m <==> n in skills
      ensures n in skills ==> n in m && m[n] == skills[n]
    {
      if n in skills {
        assert skills[n] in out;
        var i :| 0 <= i < |out| && out[i] == skills[n];
      }
      if n in m {
        var i :| 0 <= i < |out| && out[i].name == n;
        assert out[i] in out;
      }
    }
  }

  /** Merging the earlier layers first, with nothing disabled, changes nothing. */
  lemma {:induction false} StagedMerge(early: seq<seq<Skill>>, late: seq<seq<Skill>>, merged: seq<Skill>)
    requires IsCatalog(ByName(early), {}, merged)
    ensures ByName([merged] + late) == ByName(early + late)
  {
    if late == [] {
      ByNameKeyed(early);
      CatalogAsLayer(ByName(early), merged);
      assert [merged] + late == [merged] && early + late == early && [merged][..0] == [];
    } else {
      var n := |late| - 1;
      StagedMerge(early, late[..n], merged);
      assert ([merged] + late)[..|late|] == [merged] + late[..n];
      assert (early + late)[..|early + late| - 1] == early + late[..n];
    }
  }

  /** So do the final catalogs agree. */
  lemma StagedCatalog(early: seq<seq<Skill>>, late: seq<seq<Skill>>, disabled: set<string>,
                      merged: seq<Skill>, once: seq<Skill>, twice: seq<Skill>)
    requires IsCatalog(ByName(early), {}, merged)
    requires IsCatalog(ByName(early + late), disabled, once)
    requires IsCatalog(ByName([merged] + late), disabled, twice)
    ensures once == twice
  {
    StagedMerge(early, late, merged);
    CatalogIsUnique(ByName(early + late), disabled, once, twice);
  }

  // ---- rendering ----

  function EscapeChar(c: char): string {
    if c == '&' then "&amp;" else if c == '<' then "&lt;" else if c == '>' then "&gt;" else [c]
  }

  function EscapeXml(s: string): string {
    if s == "" then "" else EscapeChar(s[0]) + EscapeXml(s[1..])
  }

  function UnescapeXml(s: string): string {
    if s == "" then ""
    else if |s| >= 5 && s[..5] == "&amp;" then "&" + UnescapeXml(s[5..])
    else if |s| >= 4 && s[..4] == "&lt;" then "<" + UnescapeXml(s[4..])
    else if |s| >= 4 && s[..4] == "&gt;" then ">" + UnescapeXml(s[4..])
    else [s[0]] + UnescapeXml(s[1..])
  }

  lemma UnescapeOne(c: char, tail: string)
    ensures UnescapeXml(EscapeChar(c) + tail) == [c] + UnescapeXml(tail)
  {
    var s := EscapeChar(c) + tail;
    assert s[|EscapeChar(c)|..] == tail && s[..|EscapeChar(c)|] == EscapeChar(c);
    if c == '<' || c == '>' {
      assert s[1] == EscapeChar(c)[1] != 'a';
      assert |s| >= 5 ==> s[..5][1] == s[1];
    } else if c != '&' {
      assert s[0] == c;
      assert |s| >= 5 ==> s[..5][0] == c;
      assert |s| >= 4 ==> s[..4][0] == c;
    }
  }

  /** Escaping can be undone, and leaves no angle bracket. */
  lemma {:induction false} EscapeRoundTrip(s: string)
    ensures UnescapeXml(EscapeXml(s)) == s
    ensures '<' !in EscapeXml(s) && '>' !in EscapeXml(s)
  {
    if s != "" {
      EscapeRoundTrip(s[1..]);
      UnescapeOne(s[0], EscapeXml(s[1..]));
      assert [s[0]] + s[1..] == s;
    }
  }

  const PREAMBLE :=
    "The following skills provide specialized instructions for specific tasks.\n"
    + "Use your read tool to load a skill's SKILL.md when the task matches its description.\n"
    + "Skill body paths are absolute and stable for the lifetime of this session.\n\n"
    + "<available_skills>\n"
  const OPEN := "  <skill>\n" + "    <name>"
  const TO_DESCRIPTION := "</name>\n" + "    <description>"
  const TO_LOCATION := "</description>\n" + "    <location>"
  const CLOSE := "</location>\n" + "  </skill>\n"
  const FOOTER := "</available_skills>\n"

  /** One entry, followed by `rest`. */
  function EntryText(s: Skill, rest: string): string {
    OPEN + (EscapeXml(s.name) + (TO_DESCRIPTION + (EscapeXml(s.description)
    + (TO_LOCATION + (EscapeXml(s.path) + (CLOSE + rest))))))
  }

  function Entries(skills: seq<Skill>): string {
    if skills == [] then FOOTER else EntryText(skills[0], Entries(skills[1..]))
  }

  function CatalogText(skills: seq<Skill>): string {
    if skills == [] then "" else PREAMBLE + Entries(skills)
  }

  /** Writes the catalog piece by piece. */
  method FormatCatalog(skills: seq<Skill>) returns (b: string)
    ensures b == CatalogText(skills)
  {
    if |skills| == 0 {
      return "";
    }
    b := PREAMBLE;
    for i := 0 to |skills|
      invariant b + Entries(skills[i..]) == PREAMBLE + Entries(skills)
    {
      assert skills[i..][0] == skills[i] && skills[i..][1..] == skills[i + 1..];
      b := AppendEntry(b, skills[i], Entries(skills[i + 1..]));
    }
    assert skills[|skills|..] == [];
    b := b + FOOTER;
  }

  /** The entry written piece by piece onto b. */
  method AppendEntry(b: string, s: Skill, ghost rest: string) returns (r: string)
    ensures r + rest == b + EntryText(s, rest)
  {
    r := Append7(b, OPEN, EscapeXml(s.name), TO_DESCRIPTION, EscapeXml(s.description), TO_LOCATION, EscapeXml(s.path),
                 CLOSE, rest);
  }

  method Append7(b: string, p: string, q: string, t: string, u: string, v: string, w: string, x: string,
                 ghost rest: string)
    returns (r: string)
    ensures r + rest == b + (p + (q + (t + (u + (v + (w + (x + rest)))))))
  {
    r := b + p + q + t + u + v + w + x;
    Assoc(b + p + q + t + u + v + w, x, rest);
    Assoc(b + p + q + t + u + v, w, x + rest);
    Assoc(b + p + q + t + u, v, w + (x + rest));
    Assoc(b + p + q + t, u, v + (w + (x + rest)));
    Assoc(b + p + q, t, u + (v + (w + (x + rest))));
    Assoc(b + p, q, t + (u + (v + (w + (x + rest)))));
    Assoc(b, p, q + (t + (u + (v + (w + (x + rest))))));
  }

  // ---- reading a catalog back ----

  /** A field up to the next tag, and what follows the expected tag. */
  datatype Field = Field(text: string, rest: string)

  function ReadField(s: string, tag: string): Option<Field> {
    var k := IndexOf(s, '<');
    if |s| - k >= |tag| && s[k..k + |tag|] == tag then Some(Field(UnescapeXml(s[..k]), s[k + |tag|..])) else None
  }

  datatype OneSkill = OneSkill(skill: Skill, rest: string)

  function ReadEntry(s: string): (r: Option<OneSkill>)
    ensures r.Some? ==> |r.value.rest| < |s|
  {
    if |s| < |OPEN| || s[..|OPEN|] != OPEN then None
    else
      match ReadField(s[|OPEN|..], TO_DESCRIPTION)
      case None => None
      case Some(n) =>
        match ReadField(n.rest, TO_LOCATION)
        case None => None
        case Some(d) =>
          match ReadField(d.rest, CLOSE)
          case None => None
          case Some(p) => Some(OneSkill(Skill(n.text, d.text, p.text), p.rest))
  }

  function ReadEntries(s: string): Option<seq<Skill>>
    decreases |s|
  {
    if s == FOOTER then Some([])
    else
      match ReadEntry(s)
      case None => None
      case Some(o) =>
        match ReadEntries(o.rest)
        case None => None
        case Some(more) => Some([o.skill] + more)
  }

  lemma {:induction false} IndexFromSkips(s: string, c: char, from: nat, k: nat)
    requires from <= k < |s| && s[k] == c && forall i :: from <= i < k ==> s[i] != c
    ensures IndexFrom(s, c, from) == k
    decreases k - from
  {
    if from < k { IndexFromSkips(s, c, from + 1, k); }
  }

  lemma FieldAt(e: string, tag: string, rest: string)
    requires '<' !in e && tag != "" && tag[0] == '<'
    ensures ReadField(e + (tag + rest), tag) == Some(Field(UnescapeXml(e), rest))
  {
    FirstAngle(e, tag + rest);
    ThreeParts(e, tag, rest);
  }

  lemma ReadFieldBack(text: string, tag: string, rest: string)
    requires tag != "" && tag[0] == '<'
    ensures ReadField(EscapeXml(text) + (tag + rest), tag) == Some(Field(text, rest))
  {
    EscapeRoundTrip(text);
    FieldAt(EscapeXml(text), tag, rest);
  }

  lemma FirstAngle(a: string, b: string)
    requires '<' !in a && b != "" && b[0] == '<'
    ensures IndexOf(a + b, '<') == |a|
  {
    IndexFromSkips(a + b, '<', 0, |a|);
  }

  lemma ThreeParts(a: string, b: string, c: string)
    ensures var s := a + (b + c);
            s[..|a|] == a && s[|a|..|a| + |b|] == b && s[|a| + |b|..] == c
  {
  }

  lemma ReadEntryBack(s: Skill, rest: string)
    ensures ReadEntry(EntryText(s, rest)) == Some(OneSkill(s, rest))
  {
    var p := EscapeXml(s.path) + (CLOSE + rest);
    var d := EscapeXml(s.description) + (TO_LOCATION + p);
    var n := EscapeXml(s.name) + (TO_DESCRIPTION + d);
    SplitPrefix(OPEN, n);
    TagsStartWithAngle();
    ReadFieldBack(s.name, TO_DESCRIPTION, d);
    ReadFieldBack(s.description, TO_LOCATION, p);
    ReadFieldBack(s.path, CLOSE, rest);
  }

  lemma SplitPrefix(a: string, b: string)
    ensures (a + b)[..|a|] == a && (a + b)[|a|..] == b
  {
  }

  lemma TagsStartWithAngle()
    ensures TO_DESCRIPTION != "" && TO_DESCRIPTION[0] == '<'
    ensures TO_LOCATION != "" && TO_LOCATION[0] == '<'
    ensures CLOSE != "" && CLOSE[0] == '<'
    ensures OPEN != "" && OPEN[0] == ' ' && FOOTER[0] == '<'
  {
  }

  lemma ReadEntriesStep(text: string, s: Skill, rest: string)
    requires text != "" && text[0] == ' ' && ReadEntry(text) == Some(OneSkill(s, rest))
    ensures ReadEntries(text) == match ReadEntries(rest)
                                 case None => None
                                 case Some(more) => Some([s] + more)
  {
    TagsStartWithAngle();
    assert text != FOOTER;
  }

  lemma EntryStartsWithBlank(s: Skill, rest: string)
    ensures EntryText(s, rest) != "" && EntryText(s, rest)[0] == ' '
  {
    TagsStartWithAngle();
    HeadOf(OPEN, EscapeXml(s.name) + (TO_DESCRIPTION + (EscapeXml(s.description)
                 + (TO_LOCATION + (EscapeXml(s.path) + (CLOSE + rest))))));
  }

  lemma HeadOf(a: string, b: string)
    requires a != ""
    ensures a + b != "" && (a + b)[0] == a[0]
  {
  }

  lemma ReadNothingBack()
    ensures Entries([]) == FOOTER && ReadEntries(FOOTER) == Some([])
  {
  }

  lemma FirstEntry(skills: seq<Skill>)
    requires skills != []
    ensures Entries(skills) == EntryText(skills[0], Entries(skills[1..]))
  {
  }

  lemma {:induction false} ReadEntriesBack(skills: seq<Skill>)
    ensures ReadEntries(Entries(skills)) == Some(skills)
  {
    if skills == [] {
      ReadNothingBack();
    } else {
      ReadEntriesBack(skills[1..]);
      FirstEntry(skills);
      ReadFirstBack(skills[0], Entries(skills[1..]), skills[1..]);
      assert skills == [skills[0]] + skills[1..];
    }
  }

  lemma {:induction false} ReadFirstBack(s: Skill, rest: string, more: seq<Skill>)
    requires ReadEntries(rest) == Some(more)
    ensures ReadEntries(EntryText(s, rest)) == Some([s] + more)
  {
    var text := EntryText(s, rest);
    EntryStartsWithBlank(s, rest);
    ReadEntryBack(s, rest);
    ReadEntriesStep(text, s, rest);
  }

  /** Different non-empty lists of skills never render to the same catalog. */
  lemma CatalogIsInjective(a: seq<Skill>, b: seq<Skill>)
    requires a != [] && b != [] && CatalogText(a) == CatalogText(b)
    ensures a == b
  {
    SplitPrefix(PREAMBLE, Entries(a));
    SplitPrefix(PREAMBLE, Entries(b));
    ReadEntriesBack(a);
    ReadEntriesBack(b);
  }
}
