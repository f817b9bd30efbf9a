/** Names for downloaded attachments (uniqueName and its use in internal/router/router.go). */
module FileNames {
  import opened Common

  function Digit(n: nat): char
    requires n < 10
  {
    '0' + n as char
  }

  function Decimal(n: nat): string {
    if n < 10 then [Digit(n)] else Decimal(n / 10) + [Digit(n % 10)]
  }

  function Value(s: string): int {
    if s == "" then 0 else Value(s[..|s| - 1]) * 10 + (s[|s| - 1] as int - '0' as int)
  }

  lemma {:induction false} ValueOfDecimal(n: nat)
    ensures Value(Decimal(n)) == n
  {
    if n < 10 {
      assert [Digit(n)][..0] == [];
    } else {
      ValueOfDecimal(n / 10);
      assert Decimal(n)[..|Decimal(n)| - 1] == Decimal(n / 10);
    }
  }

  /** The extension: the last element's suffix from its last dot. */
  function Ext(name: string): (e: string)
    ensures |e| <= |name| && name[|name| - |e|..] == e
  {
    ExtFrom(name, |name|)
  }

  function ExtFrom(name: string, i: nat): (e: string)
    requires i <= |name|
    ensures |e| <= |name| && name[|name| - |e|..] == e
  {
    if i == 0 || name[i - 1] == '/' then ""
    else if name[i - 1] == '.' then name[i - 1..]
    else ExtFrom(name, i - 1)
  }

  /** e is the extension of name. */
  predicate IsExt(name: string, e: string) {
    if e == "" then forall j :: 0 <= j < |name| && name[j] == '.' ==> '/' in name[j..]
    else e[0] == '.' && '.' !in e[1..] && '/' !in e
  }

  /** No dot and no slash from this position on. */
  predicate Plain(name: string, i: nat) {
    forall j :: i <= j < |name| ==> name[j] != '.' && name[j] != '/'
  }

  lemma NoExt(name: string, i: nat)
    requires i <= |name| && Plain(name, i) && (i == 0 || name[i - 1] == '/')
    ensures IsExt(name, "")
  {
    forall j | 0 <= j < |name| && name[j] == '.'
      ensures '/' in name[j..]
    {
      assert i > 0 && j < i;
      assert name[j..][i - 1 - j] == name[i - 1];
    }
  }

  lemma DotExt(name: string, i: nat)
    requires 0 < i <= |name| && Plain(name, i) && name[i - 1] == '.'
    ensures IsExt(name, name[i - 1..])
  {
    var e := name[i - 1..];
    assert forall k :: 0 < k < |e| ==> e[k] == name[i - 1 + k];
  }

  lemma {:induction false} ExtFromIs(name: string, i: nat)
    requires i <= |name| && Plain(name, i)
    ensures IsExt(name, ExtFrom(name, i))
  {
    if i == 0 || name[i - 1] == '/' {
      NoExt(name, i);
    } else if name[i - 1] == '.' {
      DotExt(name, i);
    } else {
      ExtFromIs(name, i - 1);
    }
  }

  /** The extension starts at the last dot, if no slash follows it; otherwise there is none. */
  lemma ExtIs(name: string)
    ensures var e := Ext(name);
            && Stem(name) + e == name
            && (if e == "" then forall j :: 0 <= j < |name| && name[j] == '.' ==> '/' in name[j..]
                else e[0] == '.' && '.' !in e[1..] && '/' !in e)
  {
    ExtFromIs(name, |name|);
  }

  function Stem(name: string): string {
    name[..|name| - |Ext(name)|]
  }

  /** The i-th alternative: "-i" goes before the extension. */
  function Candidate(name: string, i: nat): string {
    Stem(name) + "-" + Decimal(i) + Ext(name)
  }

  lemma SuffixInside(a: string, d: string, e: string)
    ensures var s := a + "-" + d + e; s[|a| + 1..|s| - |e|] == d && |s| == |a| + 1 + |d| + |e|
  {
  }

  lemma CandidatesDiffer(name: string, i: nat, j: nat)
    requires Candidate(name, i) == Candidate(name, j)
    ensures i == j
  {
    SuffixInside(Stem(name), Decimal(i), Ext(name));
    SuffixInside(Stem(name), Decimal(j), Ext(name));
    ValueOfDecimal(i);
    ValueOfDecimal(j);
  }

  lemma CandidateIsNew(name: string, i: nat)
    ensures Candidate(name, i) != name
  {
    SuffixInside(Stem(name), Decimal(i), Ext(name));
  }

  /** For example. */
  lemma SecondReport()
    ensures Candidate("report.tar.gz", 2) == "report.tar-2.gz"
  {
    var name := "report.tar.gz";
    ExtIs(name);
    assert name[10] == '.' && name[11] == 'g' && name[12] == 'z';
    assert ExtFrom(name, 11) == name[10..];
    assert ExtFrom(name, 12) == ExtFrom(name, 11);
    assert ExtFrom(name, 13) == ExtFrom(name, 12);
    assert name[..10] == "report.tar" && name[10..] == ".gz";
    assert Decimal(2) == "2";
  }

  /** The name and its alternatives before the i-th. */
  function Tried(name: string, i: nat): set<string>
    requires i >= 2
  {
    if i == 2 then {name} else Tried(name, i - 1) + {Candidate(name, i - 1)}
  }

  lemma {:induction false} NotTriedBefore(name: string, i: nat, k: nat)
    requires 2 <= i <= k
    ensures Candidate(name, k) !in Tried(name, i)
  {
    if i == 2 {
      CandidateIsNew(name, k);
    } else {
      NotTriedBefore(name, i - 1, k);
      if Candidate(name, k) == Candidate(name, i - 1) {
        CandidatesDiffer(name, k, i - 1);
      }
    }
  }

  lemma {:induction false} TriedCount(name: string, i: nat)
    requires i >= 2
    ensures |Tried(name, i)| == i - 1
  {
    if i > 2 {
      TriedCount(name, i - 1);
      NotTriedBefore(name, i - 1, i - 1);
    }
  }

  lemma {:induction false} SubsetIsSmaller(a: set<string>, b: set<string>)
    requires a <= b
    ensures |a| <= |b|
  {
    if a != {} {
      var x :| x in a;
      SubsetIsSmaller(a - {x}, b - {x});
    }
  }

  /** If all of them are taken, there are at least as many taken names. */
  lemma Pigeonhole(name: string, i: nat, used: set<string>)
    requires i >= 2 && Tried(name, i) <= used
    ensures i - 1 <= |used|
  {
    TriedCount(name, i);
    SubsetIsSmaller(Tried(name, i), used);
  }

  /** The name itself if it is free, otherwise its first free alternative; found among the first
      |used| + 1 candidates. */
  method UniqueName(name: string, used: set<string>) returns (r: string)
    ensures r !in used
    ensures name !in used ==> r == name
    ensures name in used ==>
              exists k :: 2 <= k <= |used| + 1 && r == Candidate(name, k) && Tried(name, k) <= used
  {
    if name !in used {
      return name;
    }
    var i := 2;
    r := Candidate(name, i);
    Pigeonhole(name, i, used);
    while r in used
      invariant 2 <= i <= |used| + 1 && r == Candidate(name, i) && Tried(name, i) <= used
      decreases |used| + 1 - i
    {
      Pigeonhole(name, i + 1, used);
      i := i + 1;
      r := Candidate(name, i);
    }
  }

  /** What one attachment asks for: its preferred and fallback names, and whether the file system
      rejects the first name it is offered. */
  datatype Wanted = Wanted(preferred: string, fallback: string, rejected: bool)

  /** The names claimed inside one message directory. */
  class MessageDir {
    var used: set<string>

    constructor ()
      ensures used == {}
    {
      used := {};
    }

    /** Claims a fresh name, as one download does. */
    method Claim(w: Wanted) returns (name: string)
      modifies this
      ensures name !in old(used) && used == old(used) + {name}
      ensures !w.rejected && w.preferred !in old(used) ==> name == w.preferred
      ensures w.rejected && w.fallback !in old(used) ==> name == w.fallback
    {
      name := UniqueName(w.preferred, used);
      if w.rejected {
        name := UniqueName(w.fallback, used);
      }
      used := used + {name};
    }

    /** All names claimed for one prompt are pairwise distinct. */
    method ClaimAll(ws: seq<Wanted>) returns (names: seq<string>)
      modifies this
      ensures |names| == |ws| && Distinct(names)
      ensures forall n :: n in names ==> n !in old(used)
      ensures used == old(used) + set n | n in names
    {
      names := [];
      for i := 0 to |ws|
        invariant |names| == i && Distinct(names)
        invariant forall n :: n in names ==> n !in old(used)
        invariant used == old(used) + set n | n in names
      {
        var name := Claim(ws[i]);
        DistinctAppend(names, name);
        names := names + [name];
      }
    }
  }
}
