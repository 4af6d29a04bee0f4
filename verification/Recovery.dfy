/**
 Recovery codes: normalising what was typed, the one string the hashes are stored in, and spending a
 code.  The hash and the upper-casing of one character are parameters; nothing is assumed of them
 unless a lemma says so.
 */
module Recovery {
  import opened Jobs
  import opened Lists

  /** Crockford's base 32. */
  const ALPHABET := "0123456789ABCDEFGHJKMNPQRSTVWXYZ"

  datatype Kit = Kit(hash: string -> string, upper: char -> char)

  predicate IsSpace(c: char) {
    c in [' ', '\t', '\n', '\r', '\U{000B}', '\U{000C}', '\U{0085}', '\U{00A0}', '\U{1680}', '\U{2028}', '\U{2029}',
          '\U{202F}', '\U{205F}', '\U{3000}'] || '\U{2000}' <= c <= '\U{200A}'
  }

  function TrimLeft(s: string): (r: string)
    ensures |r| <= |s|
  {
    if s == "" then "" else if IsSpace(s[0]) then TrimLeft(s[1..]) else s
  }

  function TrimRight(s: string): (r: string)
    ensures |r| <= |s|
  {
    if s == "" then "" else if IsSpace(s[|s| - 1]) then TrimRight(s[..|s| - 1]) else s
  }

  function Trim(s: string): string { TrimRight(TrimLeft(s)) }

  /** The pieces between newlines; one more than there are newlines. */
  function Lines(s: string): (ls: seq<string>)
    ensures ls != []
  {
    if s == "" then [""]
    else
      var rest := Lines(s[1..]);
      if s[0] == '\n' then [""] + rest else [[s[0]] + rest[0]] + rest[1..]
  }

  function Trimmed(ls: seq<string>): seq<string> {
    if ls == [] then []
    else (if Trim(ls[0]) == "" then [] else [Trim(ls[0])]) + Trimmed(ls[1..])
  }

  function Split(stored: string): seq<string> { Trimmed(Lines(stored)) }

  function Join(hs: seq<string>): string {
    if hs == [] then "" else if |hs| == 1 then hs[0] else hs[0] + "\n" + Join(hs[1..])
  }

  function Normal(kit: Kit, code: string): string {
    if code == "" then ""
    else (if kit.upper(code[0]) in ALPHABET then [kit.upper(code[0])] else "") + Normal(kit, code[1..])
  }

  /** The codes that survive normalisation, normalised. */
  function Issued(kit: Kit, codes: seq<string>): seq<string> {
    if codes == [] then []
    else (if Normal(kit, codes[0]) == "" then [] else [Normal(kit, codes[0])]) + Issued(kit, codes[1..])
  }

  function Hashes(kit: Kit, codes: seq<string>): (hs: seq<string>)
    ensures |hs| == |codes| && forall i :: 0 <= i < |codes| ==> hs[i] == kit.hash(codes[i])
  {
    seq(|codes|, i requires 0 <= i < |codes| => kit.hash(codes[i]))
  }

  function Stored(kit: Kit, codes: seq<string>): string {
    Join(Hashes(kit, Issued(kit, codes)))
  }

  /** What is left to store after `code` is tried, and whether it was accepted. */
  function Consume(kit: Kit, stored: string, code: string): (string, bool) {
    var want := kit.hash(Normal(kit, code));
    if Normal(kit, code) == "" || stored == "" || want !in Split(stored) then (stored, false)
    else (Join(RemoveFirst(Split(stored), want)), true)
  }

  // ---- the loops ----

  lemma {:induction false} NormalSnoc(kit: Kit, s: string, c: char)
    ensures Normal(kit, s + [c]) == Normal(kit, s) + (if kit.upper(c) in ALPHABET then [kit.upper(c)] else "")
  {
    if s != "" {
      assert (s + [c])[1..] == s[1..] + [c];
      NormalSnoc(kit, s[1..], c);
    } else {
      assert (s + [c])[1..] == "";
    }
  }

  method NormalizeRecoveryCode(kit: Kit, code: string) returns (b: string)
    ensures b == Normal(kit, code)
  {
    b := "";
    for i := 0 to |code|
      invariant b == Normal(kit, code[..i])
    {
      assert code[..i + 1] == code[..i] + [code[i]];
      NormalSnoc(kit, code[..i], code[i]);
      var r := kit.upper(code[i]);
      if r in ALPHABET {
        b := b + [r];
      }
    }
    assert code[..|code|] == code;
  }

  lemma {:induction false} TrimmedSnoc(ls: seq<string>, l: string)
    ensures Trimmed(ls + [l]) == Trimmed(ls) + (if Trim(l) == "" then [] else [Trim(l)])
  {
    if ls != [] {
      assert (ls + [l])[1..] == ls[1..] + [l];
      TrimmedSnoc(ls[1..], l);
    } else {
      assert (ls + [l])[1..] == [];
    }
  }

  method SplitRecoveryCodes(stored: string) returns (out: seq<string>)
    ensures out == Split(stored)
  {
    out := [];
    var lines := Lines(stored);
    for i := 0 to |lines|
      invariant out == Trimmed(lines[..i])
    {
      assert lines[..i + 1] == lines[..i] + [lines[i]];
      TrimmedSnoc(lines[..i], lines[i]);
      var line := Trim(lines[i]);
      if line != "" {
        out := out + [line];
      }
    }
    assert lines[..|lines|] == lines;
  }

  lemma {:induction false} IssuedSnoc(kit: Kit, codes: seq<string>, c: string)
    ensures Issued(kit, codes + [c]) == Issued(kit, codes) + (if Normal(kit, c) == "" then [] else [Normal(kit, c)])
  {
    if codes != [] {
      assert (codes + [c])[1..] == codes[1..] + [c];
      IssuedSnoc(kit, codes[1..], c);
    } else {
      assert (codes + [c])[1..] == [];
    }
  }

  method HashRecoveryCodes(kit: Kit, codes: seq<string>) returns (stored: string)
    ensures stored == Stored(kit, codes)
  {
    var hashes := [];
    for i := 0 to |codes|
      invariant hashes == Hashes(kit, Issued(kit, codes[..i]))
    {
      assert codes[..i + 1] == codes[..i] + [codes[i]];
      IssuedSnoc(kit, codes[..i], codes[i]);
      var normalized := NormalizeRecoveryCode(kit, codes[i]);
      if normalized != "" {
        hashes := hashes + [kit.hash(normalized)];
      }
    }
    assert codes[..|codes|] == codes;
    stored := Join(hashes);
  }

  /** The loop runs to the end: only the first match is dropped. */
  method ConsumeRecoveryCode(kit: Kit, stored: string, code: string) returns (remaining: string, ok: bool)
    ensures (remaining, ok) == Consume(kit, stored, code)
  {
    hide Lines, Trimmed, Join, Normal, Split;
    var normalized := NormalizeRecoveryCode(kit, code);
    if normalized == "" || stored == "" {
      return stored, false;
    }
    var want := kit.hash(normalized);
    var kept := [];
    ok := false;
    var hashes := SplitRecoveryCodes(stored);
    for i := 0 to |hashes|
      invariant ok <==> want in hashes[..i]
      invariant kept == RemoveFirst(hashes[..i], want)
    {
      assert hashes[..i + 1] == hashes[..i] + [hashes[i]];
      RemoveFirstSnoc(hashes[..i], hashes[i], want);
      if hashes[i] == want && !ok {
        ok := true;
      } else {
        kept := kept + [hashes[i]];
      }
    }
    assert hashes[..|hashes|] == hashes;
    if !ok {
      return stored, false;
    }
    remaining := Join(kept);
  }

  /** Where in the list a code with the normal form `c` stands. */
  ghost function Copies(kit: Kit, codes: seq<string>, c: string): set<nat> {
    set i: nat | i < |codes| && Normal(kit, codes[i]) == c
  }

  lemma CopiesOfOneMore(kit: Kit, codes: seq<string>, x: string, c: string)
    ensures Copies(kit, codes + [x], c) == if Normal(kit, x) == c then Copies(kit, codes, c) + {|codes|} else Copies(kit, codes, c)
  {
    hide Normal;
    forall i: nat
      ensures i in Copies(kit, codes + [x], c) <==> i in Copies(kit, codes, c) || (i == |codes| && Normal(kit, x) == c)
    {
    }
    hide Copies;
  }

  lemma CopiesSnoc(kit: Kit, codes: seq<string>, x: string, c: string)
    ensures |Copies(kit, codes + [x], c)| == |Copies(kit, codes, c)| + (if Normal(kit, x) == c then 1 else 0)
  {
    hide Normal;
    assert |codes| !in Copies(kit, codes, c);
    hide Copies;
    CopiesOfOneMore(kit, codes, x, c);
  }

  /** A code is issued once for every code in the list that normalises to it, and never with nothing left. */
  lemma {:induction false} IssuedCounts(kit: Kit, codes: seq<string>, c: string)
    ensures multiset(Issued(kit, codes))[c] == if c == "" then 0 else |Copies(kit, codes, c)|
  {
    if codes == [] {
      assert Copies(kit, codes, c) == {};
    } else {
      var front, x := codes[..|codes| - 1], codes[|codes| - 1];
      hide Normal, Copies, Issued;
      assert codes == front + [x];
      IssuedCounts(kit, front, c);
      IssuedSnoc(kit, front, x);
      CopiesSnoc(kit, front, x, c);
    }
  }

  // ---- the stored form ----

  /** A line that splitting gives back as it is. */
  predicate Clean(h: string) {
    h != "" && '\n' !in h && Trim(h) == h
  }

  lemma {:induction false} LinesOfOne(h: string)
    requires '\n' !in h
    ensures Lines(h) == [h]
  {
    if h != "" {
      LinesOfOne(h[1..]);
      assert [h[0]] + h[1..] == h;
    }
  }

  lemma {:induction false} LinesJoin(h: string, rest: string)
    requires '\n' !in h
    ensures Lines(h + "\n" + rest) == [h] + Lines(rest)
  {
    var all := h + "\n" + rest;
    if h == "" {
      assert all[1..] == rest;
    } else {
      assert all[1..] == h[1..] + "\n" + rest;
      LinesJoin(h[1..], rest);
      assert [h[0]] + h[1..] == h;
    }
  }

  lemma TrimOfNothing()
    ensures Trim("") == ""
  {
  }

  lemma TrimmedCons(l: string, ls: seq<string>)
    requires Clean(l)
    ensures Trimmed([l] + ls) == [l] + Trimmed(ls)
  {
    hide Trim;
    assert ([l] + ls)[1..] == ls;
  }

  /** Joining clean hashes and splitting again gives them back, in order. */
  lemma {:induction false} SplitJoin(hs: seq<string>)
    requires forall h :: h in hs ==> Clean(h)
    ensures Split(Join(hs)) == hs
  {
    hide Lines, Trim;
    if hs == [] {
      LinesOfOne("");
      TrimOfNothing();
      assert [""][1..] == [];
    } else {
      assert Clean(hs[0]) by {
        assert hs[0] in hs;
      }
      var rest := if |hs| == 1 then [] else Lines(Join(hs[1..]));
      if |hs| == 1 {
        LinesOfOne(hs[0]);
      } else {
        LinesJoin(hs[0], Join(hs[1..]));
        SplitJoin(hs[1..]);
      }
      TrimmedCons(hs[0], rest);
      assert Lines(Join(hs)) == [hs[0]] + rest;
    }
  }

  lemma TrimLeftNoSpace(s: string)
    ensures TrimLeft(s) == "" || !IsSpace(TrimLeft(s)[0])
    ensures forall c :: c in TrimLeft(s) ==> c in s
  {
  }

  lemma TrimRightKeepsStart(s: string)
    ensures TrimRight(s) == "" || (!IsSpace(TrimRight(s)[|TrimRight(s)| - 1]) && TrimRight(s)[0] == s[0])
    ensures forall c :: c in TrimRight(s) ==> c in s
  {
  }

  lemma TrimIdempotent(s: string)
    ensures Trim(Trim(s)) == Trim(s)
    ensures forall c :: c in Trim(s) ==> c in s
  {
    TrimLeftNoSpace(s);
    TrimRightKeepsStart(TrimLeft(s));
  }

  lemma LinesHaveNoNewline(s: string)
    ensures forall l :: l in Lines(s) ==> '\n' !in l
  {
  }

  /** Everything splitting yields is clean, whatever was stored. */
  lemma SplitIsClean(stored: string)
    ensures forall h :: h in Split(stored) ==> Clean(h)
  {
    LinesHaveNoNewline(stored);
    TrimmedIsClean(Lines(stored));
  }

  lemma {:induction false} TrimmedIsClean(ls: seq<string>)
    requires forall l :: l in ls ==> '\n' !in l
    ensures forall h :: h in Trimmed(ls) ==> Clean(h)
  {
    if ls != [] {
      TrimIdempotent(ls[0]);
      TrimmedIsClean(ls[1..]);
    }
  }

  /** Spending takes exactly one stored hash, the spent code's, and leaves every other in place. */
  lemma ConsumeTakesOne(kit: Kit, stored: string, code: string)
    ensures var (remaining, ok) := Consume(kit, stored, code);
            var want := kit.hash(Normal(kit, code));
            && (ok <==> Normal(kit, code) != "" && want in Split(stored))
            && (ok ==> Split(remaining) == RemoveFirst(Split(stored), want)
                       && multiset(Split(remaining)) == multiset(Split(stored)) - multiset{want})
            && (!ok ==> remaining == stored)
  {
    var want := kit.hash(Normal(kit, code));
    SplitIsClean(stored);
    if Normal(kit, code) != "" && want in Split(stored) {
      SplitJoin([]);
      SplitJoin(RemoveFirst(Split(stored), want));
      RemoveFirstTakesOne(Split(stored), want);
    }
  }

  lemma {:induction false} NormalJoin(kit: Kit, a: string, b: string)
    ensures Normal(kit, a + b) == Normal(kit, a) + Normal(kit, b)
  {
    if a == "" {
      assert a + b == b;
    } else {
      assert (a + b)[1..] == a[1..] + b;
      NormalJoin(kit, a[1..], b);
    }
  }

  lemma {:induction false} NormalOfJunk(kit: Kit, junk: string)
    requires forall c :: c in junk ==> kit.upper(c) !in ALPHABET
    ensures Normal(kit, junk) == ""
  {
    hide ALPHABET;
    if junk != "" {
      NormalOfJunk(kit, junk[1..]);
    }
  }

  /** What people type between the meaningful characters does not matter. */
  lemma {:induction false} JunkIgnored(kit: Kit, a: string, junk: string, b: string)
    requires forall c :: c in junk ==> kit.upper(c) !in ALPHABET
    ensures Normal(kit, a + junk + b) == Normal(kit, a + b)
  {
    NormalJoin(kit, a + junk, b);
    NormalJoin(kit, a, junk);
    NormalJoin(kit, a, b);
    NormalOfJunk(kit, junk);
  }

  /** Case does not matter: codes that agree once put in upper case have one normal form. */
  lemma {:induction false} CaseIgnored(kit: Kit, a: string, b: string)
    requires |a| == |b| && forall i :: 0 <= i < |a| ==> kit.upper(a[i]) == kit.upper(b[i])
    ensures Normal(kit, a) == Normal(kit, b)
  {
    hide ALPHABET;
    if a != "" {
      CaseIgnored(kit, a[1..], b[1..]);
    }
  }

  /** A code already in the alphabet, which upper case leaves alone, is its own normal form. */
  lemma {:induction false} CanonicalStays(kit: Kit, code: string)
    requires forall c :: c in code ==> c in ALPHABET && kit.upper(c) == c
    ensures Normal(kit, code) == code
  {
    hide ALPHABET;
    if code != "" {
      CanonicalStays(kit, code[1..]);
      assert code == [code[0]] + code[1..];
    }
  }

  lemma SplitOneLine(line: string)
    requires '\n' !in line
    ensures Split(line) == if Trim(line) == "" then [] else [Trim(line)]
  {
    LinesOfOne(line);
    hide Lines, Trim;
    var one := [line];
    assert one[1..] == [] && Trimmed(one[1..]) == [];
    assert [Trim(line)] + [] == [Trim(line)];
    assert Trimmed(one) == if Trim(line) == "" then [] else [Trim(line)];
  }

  /** Blanks around a stored hash do not matter, nor do blank lines. */
  lemma PaddingIgnored(before: string, h: string, after: string)
    requires Clean(h) && '\n' !in before && '\n' !in after
    requires (forall c :: c in before ==> IsSpace(c)) && (forall c :: c in after ==> IsSpace(c))
    ensures Split(before + h + after) == [h] && Split(before) == []
  {
    hide Split, Trim, IsSpace;
    TrimOfNothing();
    TrimPadding(before, h, after);
    TrimPadding(before, "", "");
    assert before + "" + "" == before;
    SplitOneLine(before + h + after);
    SplitOneLine(before);
  }

  lemma TrimPadding(before: string, h: string, after: string)
    requires Trim(h) == h
    requires (forall c :: c in before ==> IsSpace(c)) && (forall c :: c in after ==> IsSpace(c))
    ensures Trim(before + h + after) == h
  {
    hide IsSpace;
    DropBlanks(before, h + after);
    assert before + (h + after) == before + h + after;
    if h == "" {
      DropBlanks(after, "");
      assert after + "" == after && h + after == after;
    } else {
      CleanEnds(h);
      assert TrimLeft(h + after) == h + after;
      DropBlanksRight(h, after);
    }
  }

  /** What trimming leaves as it is starts and ends with no blank. */
  lemma CleanEnds(h: string)
    requires Trim(h) == h && h != ""
    ensures !IsSpace(h[0]) && TrimRight(h) == h
  {
    hide IsSpace;
    assert |TrimLeft(h)| >= |TrimRight(TrimLeft(h))| == |h|;
    assert IsSpace(h[0]) ==> |TrimLeft(h)| <= |h| - 1;
  }

  lemma {:induction false} DropBlanks(before: string, s: string)
    requires forall c :: c in before ==> IsSpace(c)
    ensures TrimLeft(before + s) == TrimLeft(s)
  {
    hide IsSpace;
    if before == "" {
      assert before + s == s;
    } else {
      assert (before + s)[0] == before[0] && (before + s)[1..] == before[1..] + s;
      DropBlanks(before[1..], s);
    }
  }

  lemma {:induction false} DropBlanksRight(s: string, after: string)
    requires forall c :: c in after ==> IsSpace(c)
    ensures TrimRight(s + after) == TrimRight(s)
  {
    hide IsSpace;
    if after == "" {
      assert s + after == s;
    } else {
      var n := |after| - 1;
      assert (s + after)[|s| + n] == after[n] && (s + after)[..|s| + n] == s + after[..n];
      DropBlanksRight(s, after[..n]);
    }
  }
}
