/** Display names (src/projects/registry.ts): trimming, SQL `lower` and JavaScript
    `toLowerCase`. Names are sequences of UTF-16 code units. */
module Names {
  import opened Common

  type Unit = int
  type Name = seq<Unit>

  const KELVIN: Unit := 0x212A

  predicate IsTrimmed(s: Name) {
    s != [] ==> !IsSpace(s[0]) && !IsSpace(s[|s| - 1])
  }

  function TrimStart(s: Name): (r: Name)
    ensures |r| <= |s| && r == s[|s| - |r|..]
    ensures r != [] ==> !IsSpace(r[0])
    ensures forall k :: 0 <= k < |s| - |r| ==> IsSpace(s[k])
  {
    if s != [] && IsSpace(s[0]) then TrimStart(s[1..]) else s
  }

  function TrimEnd(s: Name): (r: Name)
    ensures |r| <= |s| && r == s[..|r|]
    ensures r != [] ==> !IsSpace(r[|r| - 1])
    ensures forall k :: |r| <= k < |s| ==> IsSpace(s[k])
  {
    if s != [] && IsSpace(s[|s| - 1]) then TrimEnd(s[..|s| - 1]) else s
  }

  function Trim(s: Name): (r: Name)
    ensures IsTrimmed(r)
    ensures IsTrimmed(s) ==> r == s
  {
    TrimEnd(TrimStart(s))
  }

  predicate IsAscii(u: Unit) {
    0 <= u < 128
  }

  predicate AllAscii(s: Name) {
    forall k :: 0 <= k < |s| ==> IsAscii(s[k])
  }

  function FoldUnit(u: Unit): Unit {
    if 65 <= u <= 90 then u + 32 else u
  }

  /** SQL `lower`: it folds the ASCII letters only. */
  function SqlLower(s: Name): (r: Name)
    ensures |r| == |s| && forall k :: 0 <= k < |s| ==> r[k] == FoldUnit(s[k])
  {
    if s == [] then [] else [FoldUnit(s[0])] + SqlLower(s[1..])
  }

  /** Replaces the Kelvin sign, the one non-ASCII unit that lowercases into ASCII. */
  function PlainK(s: Name): (r: Name)
    ensures |r| == |s| && forall k :: 0 <= k < |s| ==> r[k] == if s[k] == KELVIN then 107 else s[k]
  {
    if s == [] then [] else [if s[0] == KELVIN then 107 else s[0]] + PlainK(s[1..])
  }

  /** What is used of Unicode lowercasing: a text whose units are ASCII or Kelvin signs
      becomes its ASCII fold; any other text keeps a unit outside ASCII. */
  ghost predicate IsUnicodeLower(lower: Name -> Name) {
    forall s :: if AllAscii(PlainK(s)) then lower(s) == SqlLower(PlainK(s)) else !AllAscii(lower(s))
  }

  lemma FoldingKeepsAscii(s: Name)
    ensures AllAscii(SqlLower(s)) <==> AllAscii(s)
  {
    forall k | 0 <= k < |s| ensures IsAscii(SqlLower(s)[k]) <==> IsAscii(s[k]) {
    }
  }

  lemma PlainKOfAscii(s: Name)
    requires AllAscii(s)
    ensures PlainK(s) == s
  {
    forall k | 0 <= k < |s| ensures PlainK(s)[k] == s[k] {
      assert IsAscii(s[k]);
    }
  }

  /** The assumption is met: replacing and folding is such a function. */
  lemma SomeLowerExists()
    ensures IsUnicodeLower(s => SqlLower(PlainK(s)))
  {
    var lower: Name -> Name := s => SqlLower(PlainK(s));
    forall s ensures if AllAscii(PlainK(s)) then lower(s) == SqlLower(PlainK(s)) else !AllAscii(lower(s)) {
      FoldingKeepsAscii(PlainK(s));
    }
  }

  /** Against an ASCII name, the two lowercasings differ only about Kelvin signs. */
  lemma LowersAlike(lower: Name -> Name, a: Name, other: Name)
    requires IsUnicodeLower(lower) && AllAscii(a)
    ensures lower(other) == lower(a) <==> SqlLower(PlainK(other)) == SqlLower(a)
  {
    PlainKOfAscii(a);
    FoldingKeepsAscii(a);
    FoldingKeepsAscii(PlainK(other));
  }
}
