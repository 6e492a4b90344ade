/** The parts of the receipt layout that services/PrinterService.ts and utils/SmartPOSPrint.ts
    write identically: the licence rule and the offense block, which lists several offenses
    when the offense name holds more than one entry joined with ", ". */
module Offenses {
  import opened Text

  /** The delimiter that joins several offense names (and codes) into one field. */
  const Delimiter: string := ", "

  /** `'-'.repeat(32)`: the rule under each section heading. */
  const Dash: string := "--------------------------------"

  /** `licenseNumber && licenseNumber !== 'N/A'`: a licence line is printed for a
      non-empty number other than the "N/A" placeholder. */
  predicate LicenseShown(licenseNumber: string) {
    licenseNumber != "" && licenseNumber != "N/A"
  }

  /** `codes[index]` is truthy: the code exists and is not empty. */
  predicate HasCode(codes: seq<string>, i: nat) {
    i < |codes| && codes[i] != ""
  }

  /** What one step of the `forEach` over the offense names emits for entry `i`. */
  function Entry(names: seq<string>, codes: seq<string>, i: nat): seq<string>
    requires i < |names|
  {
    [names[i]] + (if HasCode(codes, i) then ["  Code: " + codes[i]] else [])
  }

  /** The lines the `forEach` has emitted after its first `n` steps. */
  function EntryLines(names: seq<string>, codes: seq<string>, n: nat): seq<string>
    requires n <= |names|
  {
    if n == 0 then [] else EntryLines(names, codes, n - 1) + Entry(names, codes, n - 1)
  }

  /** Where the line of entry `i` stands in the emitted lines: one line per earlier
      entry, plus one per earlier entry that had a code. */
  function EntryStart(codes: seq<string>, i: nat): nat {
    if i == 0 then 0 else EntryStart(codes, i - 1) + (if HasCode(codes, i - 1) then 2 else 1)
  }

  /** The offense block: every entry of a multi-offense ticket, or the single name and code. */
  function OffenseLines(name: string, code: string): (lines: seq<string>)
    ensures !Contains(name, Delimiter) ==> lines == [name, "Code: " + code]
    ensures Contains(name, Delimiter) ==>
      var names := Split(name, Delimiter);
      lines == EntryLines(names, Split(code, Delimiter), |names|)
  {
    SplitManyIffContains(name, Delimiter);
    var names := Split(name, Delimiter);
    if |names| > 1 then EntryLines(names, Split(code, Delimiter), |names|)
    else [name, "Code: " + code]
  }

  lemma {:induction false} EntryLinesLength(names: seq<string>, codes: seq<string>, n: nat)
    requires n <= |names|
    ensures |EntryLines(names, codes, n)| == EntryStart(codes, n)
  {
    if n > 0 {
      EntryLinesLength(names, codes, n - 1);
    }
  }

  lemma {:induction false} EntryLinesPrefix(names: seq<string>, codes: seq<string>, m: nat, n: nat)
    requires m <= n <= |names|
    ensures EntryLines(names, codes, m) <= EntryLines(names, codes, n)
    decreases n - m
  {
    if m < n {
      EntryLinesPrefix(names, codes, m, n - 1);
    }
  }

  /** Entry `i` of the emitted lines: its name at `EntryStart(codes, i)`, followed by its
      indented code line exactly when the code is present. */
  lemma EntryAt(names: seq<string>, codes: seq<string>, n: nat, i: nat)
    requires i < n <= |names|
    ensures var lines, p := EntryLines(names, codes, n), EntryStart(codes, i);
      && p < |lines| && lines[p] == names[i]
      && (HasCode(codes, i) ==> p + 1 < |lines| && lines[p + 1] == "  Code: " + codes[i])
  {
    EntryLinesPrefix(names, codes, i + 1, n);
    EntryLinesLength(names, codes, i);
    EntryLinesLength(names, codes, i + 1);
    var before := EntryLines(names, codes, i);
    assert EntryLines(names, codes, i + 1) == before + Entry(names, codes, i);
  }

  /** The multi-offense path: taken exactly when the name holds the delimiter; every
      offense name gets its own line, in order, each followed by `"  Code: "` and its code
      only when that code is present and non-empty; and nothing else is emitted. The names
      printed, joined back with the delimiter, are the original field, and none of them
      still holds the delimiter. */
  lemma MultiOffenseLayout(name: string, code: string)
    requires Contains(name, Delimiter)
    ensures var lines, names, codes := OffenseLines(name, code), Split(name, Delimiter), Split(code, Delimiter);
      && |names| > 1
      && Join(names, Delimiter) == name
      && |lines| == EntryStart(codes, |names|)
      && forall i :: 0 <= i < |names| ==>
           && EntryStart(codes, i + 1) == EntryStart(codes, i) + (if HasCode(codes, i) then 2 else 1)
           && EntryStart(codes, i) < |lines| && lines[EntryStart(codes, i)] == names[i]
           && (HasCode(codes, i) ==> EntryStart(codes, i) + 1 < |lines| && lines[EntryStart(codes, i) + 1] == "  Code: " + codes[i])
    ensures var names := Split(name, Delimiter);
      forall i :: 0 <= i < |names| ==> !Contains(names[i], Delimiter)
  {
    SplitPiecesFree(name, Delimiter);
    var names, codes := Split(name, Delimiter), Split(code, Delimiter);
    var lines := OffenseLines(name, code);
    SplitManyIffContains(name, Delimiter);
    SplitJoin(name, Delimiter);
    assert lines == EntryLines(names, codes, |names|);
    EntryLinesLength(names, codes, |names|);
    forall i | 0 <= i < |names|
      ensures && EntryStart(codes, i + 1) == EntryStart(codes, i) + (if HasCode(codes, i) then 2 else 1)
              && EntryStart(codes, i) < |lines| && lines[EntryStart(codes, i)] == names[i]
              && (HasCode(codes, i) ==> EntryStart(codes, i) + 1 < |lines| && lines[EntryStart(codes, i) + 1] == "  Code: " + codes[i])
    {
      EntryAt(names, codes, |names|, i);
    }
  }

  /** The single-offense pair `[name, "Code: " + code]` is printed exactly when the name
      does not hold the delimiter. */
  lemma SingleOffenseIff(name: string, code: string)
    ensures OffenseLines(name, code) == [name, "Code: " + code] <==> !Contains(name, Delimiter)
  {
    if Contains(name, Delimiter) {
      var names := Split(name, Delimiter);
      SplitManyIffContains(name, Delimiter);
      SplitFirstPiece(name, Delimiter);
      EntryAt(names, Split(code, Delimiter), |names|, 0);
      assert OffenseLines(name, code)[0] == names[0];
      assert |names[0]| < |name|;
    }
  }

  /** The offense block of both formatters: split both fields on ", "; with more than
      one name, the `forEach` over the names, otherwise the single name and code. */
  method AddOffenses(content: string, ghost base: seq<string>, name: string, code: string) returns (content': string)
    requires content == Render(base)
    ensures content' == Render(base + OffenseLines(name, code))
  {
    var offenses := Split(name, Delimiter);
    var codes := Split(code, Delimiter);
    ghost var sec := OffenseLines(name, code);
    content' := content;
    if |offenses| > 1 {
      SplitManyIffContains(name, Delimiter);
      assert sec == EntryLines(offenses, codes, |offenses|);
      EntryLinesLength(offenses, codes, |offenses|);
      var index := 0;
      ghost var k := 0;
      while index < |offenses|
        invariant 0 <= index <= |offenses|
        invariant k == EntryStart(codes, index)
        invariant k <= |sec| && content' == Printed(base, sec, k)
      {
        EntryAt(offenses, codes, |offenses|, index);
        content' := Put(content', base, sec, k, offenses[index] + "\n");
        if index < |codes| && codes[index] != "" {
          content' := Put(content', base, sec, k + 1, "  Code: " + codes[index] + "\n");
          k := k + 1;
        }
        k := k + 1;
        index := index + 1;
      }
      SectionDone(content', base, sec);
    } else {
      content' := Put(content', base, sec, 0, name + "\n");
      content' := Put(content', base, sec, 1, "Code: " + code + "\n");
      SectionDone(content', base, sec);
    }
  }

  /** The offense section of a receipt: its heading and a rule, the offense block, a rule,
      the total line and a blank line. */
  function Listing(heading: string, name: string, code: string, total: string): seq<string> {
    [heading, Dash] + OffenseLines(name, code) + [Dash, total, ""]
  }

  /** The offense block sits between the two rules, the total line right after the second. */
  lemma ListingLayout(heading: string, name: string, code: string, total: string)
    ensures var s, block := Listing(heading, name, code, total), OffenseLines(name, code);
      && |s| == |block| + 5
      && s[0] == heading && s[1] == Dash
      && s[2..|s| - 3] == block
      && s[|s| - 3] == Dash && s[|s| - 2] == total && s[|s| - 1] == ""
  {
    var block := OffenseLines(name, code);
    assert Listing(heading, name, code, total)[2..|block| + 2] == block;
  }

  /** The offense section of both formatters: heading, rule, the offense block, rule, the
      total line, and the blank line. */
  method AddListing(content: string, ghost base: seq<string>, heading: string, name: string, code: string, total: string)
      returns (content': string)
    requires content == Render(base)
    ensures content' == Render(base + Listing(heading, name, code, total))
  {
    ghost var sec := Listing(heading, name, code, total);
    ghost var offense := OffenseLines(name, code);
    content' := Put(content, base, sec, 0, heading + "\n");
    content' := Put(content', base, sec, 1, Dash + "\n");
    PrintedRenders(base, sec, 2);
    content' := AddOffenses(content', base + sec[..2], name, code);
    ghost var k := 2 + |offense|;
    assert base + sec[..2] + offense == base + sec[..k];
    PrintedRenders(base, sec, k);
    content' := Put(content', base, sec, k, Dash + "\n");
    content' := Put(content', base, sec, k + 1, total + "\n");
    content' := Put(content', base, sec, k + 2, "\n");
    SectionDone(content', base, sec);
  }
}
