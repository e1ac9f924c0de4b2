/** The event log: a file of lines that never grows past its cap, because appending compacts it first. */
module EventLog {
  const MIN_BYTES: nat := 256 * 1024
  const MAX_BYTES: nat := 8 * 1024 * 1024
  const MIN_TARGET: nat := 1024

  // A record's line. Its size counts the newline.
  datatype Line = Line(id: nat, size: nat)

  predicate Real(lines: seq<Line>)
  {
    forall i | 0 <= i < |lines| :: lines[i].size > 0
  }

  function Size(lines: seq<Line>): nat
  {
    if lines == [] then 0 else lines[0].size + Size(lines[1..])
  }

  function Target(cap: nat): nat
  {
    if cap * 80 / 100 < MIN_TARGET then MIN_TARGET else cap * 80 / 100
  }

  // ---- Compaction ----

  /** The first line compaction keeps: the least k whose lines from k on are within the target, but never past the last. */
  function KeepFrom(lines: seq<Line>, target: nat): (k: nat)
    ensures k <= |lines| && (lines != [] ==> k < |lines|)
  {
    if |lines| <= 1 || Size(lines) <= target then 0 else 1 + KeepFrom(lines[1..], target)
  }

  // Drops the oldest lines while they are over the cap, and the last one as well when it alone is.
  function Fit(lines: seq<Line>, cap: nat): seq<Line>
  {
    if Size(lines) <= cap then lines else if |lines| > 1 then Fit(lines[1..], cap) else []
  }

  function Compacted(lines: seq<Line>, cap: nat): seq<Line>
  {
    Fit(lines[KeepFrom(lines, Target(cap))..], cap)
  }

  lemma {:induction false} SizeConcat(a: seq<Line>, b: seq<Line>)
    ensures Size(a + b) == Size(a) + Size(b)
  {
    if a == [] {
      assert a + b == b;
    } else {
      assert (a + b)[1..] == a[1..] + b;
      SizeConcat(a[1..], b);
    }
  }

  lemma SizeFrom(lines: seq<Line>, i: nat)
    requires i < |lines|
    ensures Size(lines[i..]) == lines[i].size + Size(lines[i + 1..])
  {
    assert lines[i..][1..] == lines[i + 1..];
  }

  lemma {:induction false} SizeShrinks(lines: seq<Line>, i: nat)
    requires i <= |lines|
    ensures Size(lines[i..]) <= Size(lines)
  {
    SizeConcat(lines[..i], lines[i..]);
    assert lines == lines[..i] + lines[i..];
  }

  /** Compaction keeps as much as it may: what it keeps is within the target unless it is one line, and any line more
      would pass the target. */
  lemma {:induction false} KeepFromMeaning(lines: seq<Line>, target: nat)
    ensures var k := KeepFrom(lines, target);
            && (Size(lines[k..]) <= target || k == |lines| - 1)
            && (forall j | 0 <= j < k :: Size(lines[j..]) > target)
  {
    assert lines[0..] == lines;
    if |lines| > 1 && Size(lines) > target {
      var k := KeepFrom(lines[1..], target);
      KeepFromMeaning(lines[1..], target);
      assert lines[1..][k..] == lines[k + 1..];
      forall j | 0 <= j < k + 1 ensures Size(lines[j..]) > target {
        if j > 0 { assert lines[1..][j - 1..] == lines[j..]; }
      }
    }
  }

  // The two facts pin the index down.
  lemma KeepFromIs(lines: seq<Line>, target: nat, k: nat)
    requires k < |lines| && (Size(lines[k..]) <= target || k == |lines| - 1)
    requires k == 0 || Size(lines[k - 1..]) > target
    ensures k == KeepFrom(lines, target)
  {
    var m := KeepFrom(lines, target);
    KeepFromMeaning(lines, target);
    if m < k {
      assert lines[m..][k - 1 - m..] == lines[k - 1..];
      SizeShrinks(lines[m..], k - 1 - m);
    }
  }

  /** Compacting again changes nothing. */
  lemma CompactedTwice(lines: seq<Line>, cap: nat)
    requires MIN_BYTES <= cap
    ensures Compacted(Compacted(lines, cap), cap) == Compacted(lines, cap)
  {
    var k := KeepFrom(lines, Target(cap));
    KeepFromMeaning(lines, Target(cap));
    assert lines[k..][0..] == lines[k..];
  }

  function Reversed(s: seq<Line>): (r: seq<Line>)
    ensures |r| == |s| && forall i | 0 <= i < |s| :: r[i] == s[|s| - 1 - i]
  {
    seq(|s|, i requires 0 <= i < |s| => s[|s| - 1 - i])
  }

  // Swaps the ends inwards.
  method ReverseInPlace(a: array<Line>)
    modifies a
    ensures a[..] == Reversed(old(a[..]))
  {
    var i, j := 0, a.Length - 1;
    while i < j
      invariant 0 <= i <= a.Length && j == a.Length - 1 - i && i <= j + 1
      invariant forall k | 0 <= k < i || j < k < a.Length :: a[k] == old(a[a.Length - 1 - k])
      invariant forall k | i <= k <= j :: a[k] == old(a[k])
    {
      a[i], a[j] := a[j], a[i];
      i, j := i + 1, j - 1;
    }
  }

  // The lines kept, newest first.
  method KeepNewest(lines: seq<Line>, target: nat) returns (kept: seq<Line>)
    ensures kept == Reversed(lines[KeepFrom(lines, target)..])
  {
    kept := [];
    var total, i := 0, |lines|;
    while i > 0
      invariant 0 <= i <= |lines| && kept == Reversed(lines[i..]) && total == Size(lines[i..])
      invariant i < |lines| ==> total <= target || i == |lines| - 1
    {
      var add := lines[i - 1].size;
      SizeFrom(lines, i - 1);
      if total + add > target && |kept| > 0 {
        KeepFromIs(lines, target, i);
        return;
      }
      kept := kept + [lines[i - 1]];
      total, i := total + add, i - 1;
    }
    if lines != [] {
      KeepFromIs(lines, target, 0);
    }
  }

  /** compactLocked, on the lines it reads. */
  method Compact(lines: seq<Line>, cap: nat) returns (body: seq<Line>)
    ensures body == Compacted(lines, cap)
  {
    var target := if cap * 80 / 100 < MIN_TARGET then MIN_TARGET else cap * 80 / 100;
    var newest := KeepNewest(lines, target);
    var kept := new Line[|newest|](i requires 0 <= i < |newest| => newest[i]);
    assert kept[..] == newest;
    ReverseInPlace(kept);
    ghost var k := KeepFrom(lines, target);
    assert kept[..] == lines[k..];
    body := kept[..];
    while Size(body) > cap && |body| > 1
      invariant Fit(body, cap) == Compacted(lines, cap)
      decreases |body|
    {
      body := body[1..];
    }
    if Size(body) > cap {
      body := [];
    }
  }

  // ---- Appending ----

  datatype Outcome = Appended | TooLong | NoRoom

  function TakenBy(lines: seq<Line>, line: Line, cap: nat): Outcome
  {
    if line.size > cap then TooLong
    else if Size(lines) + line.size <= cap || Size(Compacted(lines, cap)) + line.size <= cap then Appended
    else NoRoom
  }

  // The file after an append, or an attempt at one.
  function AfterAppend(lines: seq<Line>, line: Line, cap: nat): seq<Line>
  {
    if line.size > cap then lines
    else if Size(lines) + line.size <= cap then lines + [line]
    else if Size(Compacted(lines, cap)) + line.size <= cap then Compacted(lines, cap) + [line]
    else Compacted(lines, cap)
  }

  /** Logger. */
  class Logger {
    const cap: nat
    var file: seq<Line>

    ghost predicate Valid()
      reads this
    {
      MIN_BYTES <= cap <= MAX_BYTES && Size(file) <= cap && Real(file)
    }

    /** New, on a directory with no log yet. */
    constructor (maxBytes: int)
      ensures Valid() && file == [] && cap == ClampBytes(maxBytes)
    {
      cap := if maxBytes < MIN_BYTES then MIN_BYTES else if maxBytes > MAX_BYTES then MAX_BYTES else maxBytes;
      file := [];
    }

    /** Append, with appendAfterCompact's attempts: it succeeds exactly when the line fits as the file is or after one
        compaction, compacts at most once when it succeeds, and never leaves the file over the cap. */
    method Append(line: Line) returns (r: Outcome, compactions: nat)
      requires Valid() && line.size > 0
      modifies `file
      ensures Valid()
      ensures r == TakenBy(old(file), line, cap) && file == AfterAppend(old(file), line, cap)
      ensures r == TooLong <==> line.size > cap
      ensures r == Appended <==> line.size <= cap && (Size(old(file)) + line.size <= cap || Size(Compacted(old(file), cap)) + line.size <= cap)
      ensures r == TooLong ==> file == old(file)
      ensures r == NoRoom ==> file == Compacted(old(file), cap)
      ensures r == Appended ==> file == (if compactions == 0 then old(file) else Compacted(old(file), cap)) + [line]
      ensures r == Appended ==> (compactions == 0 <==> Size(old(file)) + line.size <= cap)
      ensures r == Appended ==> compactions <= 1 && file != [] && file[|file| - 1] == line
      ensures r == Appended && compactions == 0 ==> file == old(file) + [line]
    {
      if line.size > cap {
        return TooLong, 0;
      }
      CompactedFits(file, cap);
      r, compactions := AppendAfterCompact(line, Compacted(file, cap));
    }

    // appendAfterCompact: up to three attempts, c being what compacting the file gives.
    method AppendAfterCompact(line: Line, ghost c: seq<Line>) returns (r: Outcome, compactions: nat)
      requires Valid() && 0 < line.size <= cap && c == Compacted(file, cap) && Size(c) <= cap && Real(c)
      modifies `file
      ensures Valid()
      ensures file == if Size(old(file)) + line.size <= cap then old(file) + [line] else if Size(c) + line.size <= cap then c + [line] else c
      ensures r == if Size(old(file)) + line.size <= cap || Size(c) + line.size <= cap then Appended else NoRoom
      ensures r == Appended ==> compactions == if Size(old(file)) + line.size <= cap then 0 else 1
    {
      compactions := 0;
      for tries := 0 to 3
        invariant compactions == tries && Valid()
        invariant file == if tries == 0 then old(file) else c
        invariant tries > 0 ==> Size(old(file)) + line.size > cap
        invariant tries > 1 ==> Size(c) + line.size > cap
      {
        if Size(file) + line.size <= cap || file == [] {
          SizeConcat(file, [line]);
          file := file + [line];
          return Appended, compactions;
        }
        CompactFile(old(file), c);
        compactions := compactions + 1;
      }
      r := NoRoom;
    }

    method CompactFile(ghost before: seq<Line>, ghost c: seq<Line>)
      requires Valid() && c == Compacted(before, cap) && (file == before || file == c)
      modifies `file
      ensures file == c
    {
      CompactedTwice(before, cap);
      file := Compact(file, cap);
    }
  }

  function ClampBytes(n: int): nat
  {
    if n < MIN_BYTES then MIN_BYTES else if n > MAX_BYTES then MAX_BYTES else n
  }

  lemma CompactedFits(lines: seq<Line>, cap: nat)
    requires MIN_BYTES <= cap && Real(lines)
    ensures Size(Compacted(lines, cap)) <= cap && Real(Compacted(lines, cap))
  {
    KeepFromMeaning(lines, Target(cap));
  }

  // ---- Any sequence of appends ----

  // The file, and every line that was taken, oldest first.
  datatype History = History(file: seq<Line>, taken: seq<Line>)

  function After(lines: seq<Line>, cap: nat): History
  {
    if lines == [] then History([], [])
    else
      var before, last := After(lines[..|lines| - 1], cap), lines[|lines| - 1];
      History(AfterAppend(before.file, last, cap), if TakenBy(before.file, last, cap) == Appended then before.taken + [last] else before.taken)
  }

  predicate IsSuffix(a: seq<Line>, b: seq<Line>)
  {
    |a| <= |b| && a == b[|b| - |a|..]
  }

  lemma SuffixAppend(a: seq<Line>, b: seq<Line>, line: Line)
    requires IsSuffix(a, b)
    ensures IsSuffix(a + [line], b + [line])
  {
  }

  lemma CompactedIsSuffix(lines: seq<Line>, all: seq<Line>, cap: nat)
    requires MIN_BYTES <= cap && IsSuffix(lines, all)
    ensures IsSuffix(Compacted(lines, cap), all)
  {
    var k := KeepFrom(lines, Target(cap));
    KeepFromMeaning(lines, Target(cap));
    SuffixOfSuffix(lines, all, k);
    SuffixOfSuffix(lines, all, |lines|);
  }

  lemma SuffixOfSuffix(a: seq<Line>, b: seq<Line>, k: nat)
    requires IsSuffix(a, b) && k <= |a|
    ensures IsSuffix(a[k..], b)
  {
    assert a[k..] == b[|b| - |a| + k..];
  }

  /** After any sequence of appends the file is a suffix of everything taken, and within the cap. */
  lemma {:induction false} FileIsSuffix(lines: seq<Line>, cap: nat)
    requires MIN_BYTES <= cap && Real(lines)
    ensures var h := After(lines, cap); IsSuffix(h.file, h.taken) && Size(h.file) <= cap && Real(h.file)
  {
    if lines != [] {
      FileIsSuffix(lines[..|lines| - 1], cap);
      var before, last := After(lines[..|lines| - 1], cap), lines[|lines| - 1];
      AppendKeepsSuffix(before.file, before.taken, last, cap);
    }
  }

  lemma AppendFits(file: seq<Line>, line: Line, cap: nat)
    requires MIN_BYTES <= cap && Real(file) && line.size > 0 && Size(file) <= cap
    ensures var after := AfterAppend(file, line, cap); Size(after) <= cap && Real(after)
  {
    CompactedFits(file, cap);
    SizeConcat(file, [line]);
    SizeConcat(Compacted(file, cap), [line]);
  }

  lemma AppendKeepsSuffix(file: seq<Line>, taken: seq<Line>, line: Line, cap: nat)
    requires MIN_BYTES <= cap && Real(file) && line.size > 0 && IsSuffix(file, taken) && Size(file) <= cap
    ensures var after := AfterAppend(file, line, cap);
            && IsSuffix(after, if TakenBy(file, line, cap) == Appended then taken + [line] else taken)
            && Size(after) <= cap && Real(after)
  {
    var c := Compacted(file, cap);
    AppendFits(file, line, cap);
    CompactedIsSuffix(file, taken, cap);
    SuffixAppend(file, taken, line);
    SuffixAppend(c, taken, line);
  }

  // No line is longer than a fifth of the cap.
  predicate Short(lines: seq<Line>, cap: nat)
  {
    forall i | 0 <= i < |lines| :: lines[i].size <= cap / 5
  }

  lemma ShortFits(lines: seq<Line>, line: Line, cap: nat)
    requires MIN_BYTES <= cap && Short(lines, cap) && line.size <= cap / 5
    ensures TakenBy(lines, line, cap) == Appended && Short(Compacted(lines, cap), cap)
  {
    var k := KeepFrom(lines, Target(cap));
    KeepFromMeaning(lines, Target(cap));
    if lines != [] && k == |lines| - 1 {
      assert lines[k..] == [lines[k]] && [lines[k]][1..] == [];
    }
  }

  /** When no line is longer than a fifth of the cap, every append succeeds: everything was taken, and the newest
      record is in the file. */
  lemma {:induction false} ShortLinesAreAllTaken(lines: seq<Line>, cap: nat)
    requires MIN_BYTES <= cap && Real(lines) && Short(lines, cap)
    ensures var h := After(lines, cap);
            h.taken == lines && Short(h.file, cap) && (lines != [] ==> h.file != [] && h.file[|h.file| - 1] == lines[|lines| - 1])
  {
    if lines != [] {
      var before, last := After(lines[..|lines| - 1], cap), lines[|lines| - 1];
      ShortLinesAreAllTaken(lines[..|lines| - 1], cap);
      ShortFits(before.file, last, cap);
      assert lines == lines[..|lines| - 1] + [last];
    }
  }

  /** A record leaves the file only in a compaction that could not keep it: with it and everything after it the file
      would pass the target. */
  lemma DroppedOnlyWhenFull(lines: seq<Line>, line: Line, cap: nat, i: nat)
    requires MIN_BYTES <= cap && Real(lines) && Size(lines) <= cap && i < |lines|
    requires var after := AfterAppend(lines, line, cap);
             var kept := if TakenBy(lines, line, cap) == Appended then |after| - 1 else |after|;
             kept < |lines| - i
    ensures Size(lines[i..]) > Target(cap) && Size(lines) + line.size > cap
  {
    KeepFromMeaning(lines, Target(cap));
    SizeShrinks(lines, KeepFrom(lines, Target(cap)));
  }

  // ---- In numbers ----

  /** The cap is what was asked for, between 256 KiB and 8 MiB. */
  lemma CapIsClamped(asked: int)
    ensures 262144 <= ClampBytes(asked) <= 8388608
    ensures 262144 <= asked <= 8388608 ==> ClampBytes(asked) == asked
    ensures asked < 262144 ==> ClampBytes(asked) == 262144
    ensures asked > 8388608 ==> ClampBytes(asked) == 8388608
  {
  }

  // Within four fifths of the cap, rounded down to a byte.
  predicate WithinTarget(size: nat, cap: nat)
  {
    5 * size <= 4 * cap
  }

  lemma TargetIs(cap: nat, size: nat)
    requires 262144 <= cap
    ensures size <= Target(cap) <==> WithinTarget(size, cap)
  {
  }

  /** A compaction keeps the longest tail of the lines that is within four fifths of the cap; when not even the last line is,
      that line alone, if it is within the cap; and else nothing. */
  lemma CompactionInBytes(lines: seq<Line>, cap: nat)
    requires 262144 <= cap && lines != []
    ensures var kept, last := Compacted(lines, cap), lines[|lines| - 1];
            && IsSuffix(kept, lines)
            && (WithinTarget(last.size, cap) ==> kept != [] && WithinTarget(Size(kept), cap))
            && (!WithinTarget(last.size, cap) ==> kept == if last.size <= cap then [last] else [])
            && (forall j | 0 <= j < |lines| - |kept| && WithinTarget(last.size, cap) :: !WithinTarget(Size(lines[j..]), cap))
  {
    var k, last := KeepFrom(lines, Target(cap)), |lines| - 1;
    KeepFromMeaning(lines, Target(cap));
    assert lines[last..] == [lines[last]] && [lines[last]][1..] == [];
    assert Size(lines[last..]) == lines[last].size;
    forall j | 0 <= j <= last ensures Size(lines[j..]) <= Target(cap) <==> WithinTarget(Size(lines[j..]), cap) {
      TargetIs(cap, Size(lines[j..]));
    }
    if WithinTarget(lines[last].size, cap) {
      assert Fit(lines[k..], cap) == lines[k..];
    } else {
      TailIsOver(lines, cap, k);
    }
  }

  // With a last line over the target nothing before it is kept.
  lemma TailIsOver(lines: seq<Line>, cap: nat, k: nat)
    requires lines != [] && k < |lines| && lines[|lines| - 1].size > Target(cap)
    requires Size(lines[k..]) <= Target(cap) || k == |lines| - 1
    ensures k == |lines| - 1 && Fit(lines[k..], cap) == if lines[k].size <= cap then [lines[k]] else []
  {
    var last := |lines| - 1;
    assert lines[k..][last - k..] == lines[last..] == [lines[last]] && [lines[last]][1..] == [];
    SizeShrinks(lines[k..], last - k);
  }
}
