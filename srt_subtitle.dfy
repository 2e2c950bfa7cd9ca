/**
 * A subtitle track (`SRTSubtitle`): an ordered list of entries that can be
 * extended at any position and rendered as SubRip text.
 */
module SrtSubtitle {
  import opened Wrappers
  import opened Decimal
  import opened SrtEntry

  /** The exception `insertAt` throws for an index outside `0..size()`. */
  datatype SubtitleError = IndexOutOfRange

  // ---------------------------------------------------------------------
  // Insertion

  /** The list `s` with `es` inserted, in order, in front of position `i`. */
  function Splice<T>(s: seq<T>, i: nat, es: seq<T>): (r: seq<T>)
    requires i <= |s|
    ensures |r| == |s| + |es|
    ensures forall k :: 0 <= k < i ==> r[k] == s[k]
    ensures forall k :: 0 <= k < |es| ==> r[i + k] == es[k]
    ensures forall k :: i <= k < |s| ==> r[k + |es|] == s[k]
  {
    s[..i] + es + s[i..]
  }

  /** The list after `add`ing each element of `es` to `s`, one at a time. */
  function AppendEach<T>(s: seq<T>, es: seq<T>): seq<T>
    decreases |es|
  {
    if es == [] then s else AppendEach(s + [es[0]], es[1..])
  }

  /** Adding the elements one by one at the end is splicing them in at `|s|`. */
  lemma {:induction false} AppendEachIsSplice<T>(s: seq<T>, es: seq<T>)
    ensures AppendEach(s, es) == Splice(s, |s|, es)
    decreases |es|
  {
    if es != [] {
      AppendEachIsSplice(s + [es[0]], es[1..]);
      assert (s + [es[0]]) + es[1..] == s + es;
    }
  }

  // ---------------------------------------------------------------------
  // Time stamps

  /** A time split into clock fields, as `formatTime` computes it. */
  datatype Clock = Clock(hours: nat, minutes: nat, seconds: nat, millis: nat)

  /** The number of milliseconds a clock reading stands for. */
  function Millis(c: Clock): nat
  {
    c.hours * 3600000 + c.minutes * 60000 + c.seconds * 1000 + c.millis
  }

  /**
   * The `TimeUnit` conversions of `formatTime`: whole hours, then whole
   * minutes of what is left, then whole seconds, then the milliseconds.
   * The times passed in are never negative, where `TimeUnit`'s truncation
   * agrees with Dafny's division.
   */
  function Breakdown(t: nat): (c: Clock)
    ensures c.minutes < 60 && c.seconds < 60 && c.millis < 1000
    ensures c.hours * 3600000 + c.minutes * 60000 + c.seconds * 1000 + c.millis == t
  {
    var hr := t / 3600000;
    var min := (t - hr * 3600000) / 60000;
    var sec := (t - hr * 3600000 - min * 60000) / 1000;
    var ms := t - hr * 3600000 - min * 60000 - sec * 1000;
    Clock(hr, min, sec, ms)
  }

  /** The breakdown is the only one with minutes, seconds and milliseconds in range. */
  lemma BreakdownUnique(t: nat, c: Clock)
    requires c.minutes < 60 && c.seconds < 60 && c.millis < 1000
    requires Millis(c) == t
    ensures c == Breakdown(t)
  {
    var b := Breakdown(t);
    var restC := c.minutes * 60000 + c.seconds * 1000 + c.millis;
    var restB := b.minutes * 60000 + b.seconds * 1000 + b.millis;
    assert restC < 3600000 && restB < 3600000;
    assert c.hours == b.hours;
    assert c.minutes == b.minutes;
    assert c.seconds == b.seconds;
  }

  /** `String.format("%02d:%02d:%02d,%03d", hr, min, sec, ms)` of the breakdown. */
  function FormatTime(t: nat): (s: string)
    ensures |s| >= 12
    ensures s[|s| - 10] == ':' && s[|s| - 7] == ':' && s[|s| - 4] == ','
    ensures t < 100 * 3600000 ==> |s| == 12
  {
    var c := Breakdown(t);
    ZeroPadWidth(c.minutes, 2);
    ZeroPadWidth(c.seconds, 2);
    ZeroPadWidth(c.millis, 3);
    assert c.hours < 100 ==> |ZeroPad(c.hours, 2)| == 2 by {
      if c.hours < 100 { ZeroPadWidth(c.hours, 2); }
    }
    ZeroPad(c.hours, 2) + ":" + ZeroPad(c.minutes, 2) + ":" + ZeroPad(c.seconds, 2) + "," + ZeroPad(c.millis, 3)
  }

  /**
   * Reads an `H..H:MM:SS,mmm` time stamp back into milliseconds: at least two
   * hour digits, minutes and seconds below 60.
   */
  function ParseTime(s: string): (r: Option<nat>)
  {
    var n := |s|;
    if n < 12 || s[n - 10] != ':' || s[n - 7] != ':' || s[n - 4] != ',' then None
    else ReadClock(s[..n - 10], s[n - 9..n - 7], s[n - 6..n - 4], s[n - 3..])
  }

  /** Reads the four digit fields of a time stamp. */
  function ReadClock(h: string, mm: string, ss: string, ms: string): (r: Option<nat>)
  {
    if AllDigits(h) && AllDigits(mm) && AllDigits(ss) && AllDigits(ms)
       && Value(mm) < 60 && Value(ss) < 60
    then Some(Millis(Clock(Value(h), Value(mm), Value(ss), Value(ms))))
    else None
  }

  /** A stamp assembled from fields of the printed widths is read field by field. */
  lemma ParseFields(h: string, mm: string, ss: string, ms: string)
    requires |h| >= 2 && |mm| == 2 && |ss| == 2 && |ms| == 3
    ensures ParseTime(h + ":" + mm + ":" + ss + "," + ms) == ReadClock(h, mm, ss, ms)
  {
    var s := h + ":" + mm + ":" + ss + "," + ms;
    var n := |s|;
    assert s[n - 10] == ':' && s[n - 7] == ':' && s[n - 4] == ',';
    assert s[..n - 10] == h && s[n - 9..n - 7] == mm && s[n - 6..n - 4] == ss && s[n - 3..] == ms;
  }

  /** The zero-padded fields of a clock reading read back as that reading. */
  lemma ReadPaddedClock(c: Clock)
    requires c.minutes < 60 && c.seconds < 60 && c.millis < 1000
    ensures ReadClock(ZeroPad(c.hours, 2), ZeroPad(c.minutes, 2), ZeroPad(c.seconds, 2), ZeroPad(c.millis, 3))
         == Some(Millis(c))
  {
    ZeroPadValue(c.hours, 2);
    ZeroPadValue(c.minutes, 2);
    ZeroPadValue(c.seconds, 2);
    ZeroPadValue(c.millis, 3);
  }

  /** Every time stamp `formatTime` prints reads back as the time it came from. */
  lemma FormatTimeRoundTrip(t: nat)
    ensures ParseTime(FormatTime(t)) == Some(t)
  {
    var c := Breakdown(t);
    ZeroPadWidth(c.minutes, 2);
    ZeroPadWidth(c.seconds, 2);
    ZeroPadWidth(c.millis, 3);
    ParseFields(ZeroPad(c.hours, 2), ZeroPad(c.minutes, 2), ZeroPad(c.seconds, 2), ZeroPad(c.millis, 3));
    ReadPaddedClock(c);
  }

  /** Distinct times print as distinct time stamps. */
  lemma FormatTimeInjective(a: nat, b: nat)
    requires FormatTime(a) == FormatTime(b)
    ensures a == b
  {
    FormatTimeRoundTrip(a);
    FormatTimeRoundTrip(b);
  }

  // ---------------------------------------------------------------------
  // Rendering

  /**
   * `ArrayList.indexOf`: the first position holding `x`, or -1. `SRTEntry`
   * does not override `equals`, so for entries this compares references.
   */
  function IndexOf<T(==)>(s: seq<T>, x: T): (r: int)
    ensures -1 <= r < |s|
    ensures r == -1 <==> x !in s
    ensures 0 <= r ==> s[r] == x && forall k :: 0 <= k < r ==> s[k] != x
  {
    if s == [] then -1
    else if s[0] == x then 0
    else
      var r := IndexOf(s[1..], x);
      if r < 0 then -1 else r + 1
  }

  /** The cue number `toString` prints for the entry at position `k`. */
  function CueNumber(es: seq<Entry>, k: nat): (n: nat)
    requires k < |es|
    ensures 1 <= n <= k + 1
  {
    IndexOf(es, es[k]) + 1
  }

  /** No entry object occurs twice in the list. */
  predicate Distinct<T(==)>(s: seq<T>) {
    forall i, j :: 0 <= i < j < |s| ==> s[i] != s[j]
  }

  /** With no object listed twice, cues are numbered 1, 2, 3, ... in list order. */
  lemma CueNumbersContiguous(es: seq<Entry>, k: nat)
    requires Distinct(es) && k < |es|
    ensures CueNumber(es, k) == k + 1
  {
  }

  /** An object listed again gets the number of its first occurrence. */
  lemma RepeatedEntrySharesNumber(es: seq<Entry>, i: nat, j: nat)
    requires i < j < |es| && es[i] == es[j]
    ensures CueNumber(es, j) == CueNumber(es, i) <= i + 1
  {
  }

  /**
   * After inserting new entries (none already in the track) into a track
   * without repeats, the cues are again numbered 1, 2, 3, ... by position.
   */
  lemma InsertRenumbers(s: seq<Entry>, i: nat, es: seq<Entry>, k: nat)
    requires i <= |s| && Distinct(s) && Distinct(es)
    requires forall a, b :: 0 <= a < |s| && 0 <= b < |es| ==> s[a] != es[b]
    requires k < |s| + |es|
    ensures CueNumber(Splice(s, i, es), k) == k + 1
  {
    SpliceKeepsDistinct(s, i, es);
    CueNumbersContiguous(Splice(s, i, es), k);
  }

  /** Distinct entries spliced into a list with none in common stay distinct. */
  lemma SpliceKeepsDistinct<T>(s: seq<T>, i: nat, es: seq<T>)
    requires i <= |s| && Distinct(s) && Distinct(es)
    requires forall k, m :: 0 <= k < |s| && 0 <= m < |es| ==> s[k] != es[m]
    ensures Distinct(Splice(s, i, es))
  {
    var r := Splice(s, i, es);
    forall a, b | 0 <= a < b < |r|
      ensures r[a] != r[b]
    {
      // Each position of r comes from s or from es, at a known index.
      if a < i {
        if b < i { assert r[a] == s[a] && r[b] == s[b]; }
        else if b < i + |es| { assert r[a] == s[a] && r[b] == es[b - i]; }
        else { assert r[a] == s[a] && r[b] == s[b - |es|]; }
      } else if a < i + |es| {
        if b < i + |es| { assert r[a] == es[a - i] && r[b] == es[b - i]; }
        else { assert r[a] == es[a - i] && r[b] == s[b - |es|]; }
      } else {
        assert r[a] == s[a - |es|] && r[b] == s[b - |es|];
      }
    }
  }

  /** What `toString` reads from one entry. */
  datatype Cue = Cue(startMs: nat, endMs: nat, lines: seq<string>)

  /** Each line followed by a newline, in stored order. */
  function LinesText(lines: seq<string>): (s: string)
    ensures |s| >= |lines|
  {
    if lines == [] then ""
    else LinesText(lines[..|lines| - 1]) + (lines[|lines| - 1] + "\n")
  }

  /** The cue number line of a block. */
  function NumberLine(number: nat): string {
    Digits(number) + "\n"
  }

  /** The `start --> end` line of a block. */
  function TimingLine(c: Cue): string {
    FormatTime(c.startMs) + " --> " + FormatTime(c.endMs) + "\n"
  }

  /** One SubRip block: number, time range, the lines, a blank line. */
  function Block(number: nat, c: Cue): string {
    NumberLine(number) + TimingLine(c) + LinesText(c.lines) + "\n"
  }

  /** Regrouping concatenation; a proof step of `BlockAppended`. */
  lemma AppendAssoc(a: string, b: string, c: string)
    ensures a + (b + c) == (a + b) + c
  {
  }

  /** Appending a block's pieces one by one appends the block. */
  lemma BlockAppended(sb: string, number: string, timing: string, text: string)
    ensures sb + number + timing + text + "\n" == sb + (number + timing + text + "\n")
  {
    AppendAssoc(sb, number + timing + text, "\n");
    AppendAssoc(sb, number + timing, text);
    AppendAssoc(sb, number, timing);
  }

  /** Every entry in the list keeps its invariant. */
  ghost predicate AllValid(es: seq<Entry>)
    reads set e | e in es
  {
    forall e :: e in es ==> e.Valid()
  }

  /** What `toString` reads from one entry, through its getters. */
  function CueOf(e: Entry): Cue
    reads e
    requires e.Valid()
  {
    Cue(e.GetStartTime(), e.GetEndTime(), e.GetText())
  }

  /** The values `toString` reads from the entries, in list order. */
  function Cues(es: seq<Entry>): (cs: seq<Cue>)
    reads set e | e in es
    requires AllValid(es)
    ensures |cs| == |es|
    ensures forall k :: 0 <= k < |es| ==> cs[k] == CueOf(es[k])
  {
    if es == [] then []
    else Cues(es[..|es| - 1]) + [CueOf(es[|es| - 1])]
  }

  /** The cue numbers `toString` prints, in list order. */
  function CueNumbers(es: seq<Entry>): (ns: seq<nat>)
    ensures |ns| == |es|
  {
    seq(|es|, k requires 0 <= k < |es| => CueNumber(es, k))
  }

  /** The block of each cue under the number at the same position, in order. */
  function RenderBlocks(numbers: seq<nat>, cues: seq<Cue>): (s: string)
    requires |numbers| == |cues|
    ensures |s| >= |cues|
    ensures s == "" <==> cues == []
  {
    if cues == [] then ""
    else
      var n := |cues| - 1;
      RenderBlocks(numbers[..n], cues[..n]) + Block(numbers[n], cues[n])
  }

  /** The text `toString` produces for the list `es`. */
  function Render(es: seq<Entry>): (s: string)
    reads set e | e in es
    requires AllValid(es)
    ensures |s| >= |es|
    ensures s == "" <==> es == []
  {
    RenderBlocks(CueNumbers(es), Cues(es))
  }

  /** An element already in `s` keeps its index when something is appended. */
  lemma IndexOfExtend<T>(s: seq<T>, x: T, e: T)
    requires x in s
    ensures IndexOf(s + [e], x) == IndexOf(s, x)
  {
    var r, r' := IndexOf(s, x), IndexOf(s + [e], x);
    assert (s + [e])[r] == x;
    assert r' <= r;
    assert s[r'] == x;
  }

  /** The first `k + 1` elements are the first `k` and then element `k`. */
  lemma TakeOneMore<T>(s: seq<T>, k: nat)
    requires k < |s|
    ensures s[..k + 1] == s[..k] + [s[k]]
  {
  }

  /** Taking every element gives the sequence back; closes the loop proof of `ToString`. */
  lemma TakeAll<T>(s: seq<T>)
    ensures s[..|s|] == s
  {
  }

  /** Rendering one more numbered cue appends its block. */
  lemma RenderBlocksAppend(numbers: seq<nat>, cues: seq<Cue>, number: nat, c: Cue)
    requires |numbers| == |cues|
    ensures RenderBlocks(numbers + [number], cues + [c]) == RenderBlocks(numbers, cues) + Block(number, c)
  {
    assert (numbers + [number])[..|numbers|] == numbers;
    assert (cues + [c])[..|cues|] == cues;
  }

  /** An entry not yet in the list is numbered by its position when appended. */
  lemma CueNumbersAppend(es: seq<Entry>, e: Entry)
    requires e !in es
    ensures CueNumbers(es + [e]) == CueNumbers(es) + [|es| + 1]
  {
    var es' := es + [e];
    forall k | 0 <= k < |es|
      ensures CueNumber(es', k) == CueNumber(es, k)
    {
      assert es'[k] == es[k];
      IndexOfExtend(es, es[k], e);
    }
    assert IndexOf(es', e) == |es| by {
      assert es'[|es|] == e;
    }
  }

  /**
   * Adding an entry that is not yet in the track adds exactly one block at
   * the end of the text, numbered by the entry's position.
   */
  lemma RenderAppend(es: seq<Entry>, e: Entry)
    requires AllValid(es + [e]) && e !in es
    ensures AllValid(es)
    ensures Render(es + [e]) == Render(es) + Block(|es| + 1, CueOf(e))
  {
    var es' := es + [e];
    assert AllValid(es) by {
      forall x | x in es ensures x.Valid() { assert x in es'; }
    }
    CueNumbersAppend(es, e);
    assert Cues(es') == Cues(es) + [CueOf(e)];
    RenderBlocksAppend(CueNumbers(es), Cues(es), |es| + 1, CueOf(e));
  }

  // ---------------------------------------------------------------------
  // The track

  class Subtitle {
    /** The entries in display order (the `ArrayList` this class extends). */
    var entries: seq<Entry>

    /** `new SRTSubtitle()`: an empty track. */
    constructor ()
      ensures entries == []
    {
      entries := [];
    }

    /** `new SRTSubtitle(entries...)`: the entries in argument order. */
    constructor FromEntries(es: seq<Entry>)
      ensures entries == es
    {
      entries := [];
      new;
      AddEach(es);
    }

    /** `ArrayList.add`: appends one entry. */
    method Add(e: Entry)
      modifies this
      ensures entries == old(entries) + [e]
    {
      entries := entries + [e];
    }

    /** The `for (e : es) add(e)` loop the source writes three times. */
    method AddEach(es: seq<Entry>)
      modifies this
      ensures entries == old(entries) + es
    {
      for k := 0 to |es|
        invariant entries == old(entries) + es[..k]
      {
        assert es[..k + 1] == es[..k] + [es[k]];
        Add(es[k]);
      }
      assert es[..|es|] == es;
    }

    /** `ArrayList.clear`: removes every entry. */
    method Clear()
      modifies this
      ensures entries == []
    {
      entries := [];
    }

    /**
     * The temporary list `insertAt` builds: the entries before `index`, then
     * the new entries, then the entries from `index` on, copied one by one.
     */
    static method Rebuild(s: seq<Entry>, index: nat, es: seq<Entry>) returns (al: seq<Entry>)
      requires index <= |s|
      ensures al == Splice(s, index, es)
    {
      al := [];
      var i := 0;
      while i < index
        invariant 0 <= i <= index
        invariant al == s[..i]
      {
        assert s[..i + 1] == s[..i] + [s[i]];
        al := al + [s[i]];
        i := i + 1;
      }
      for k := 0 to |es|
        invariant al == s[..index] + es[..k]
      {
        assert es[..k + 1] == es[..k] + [es[k]];
        al := al + [es[k]];
      }
      assert es[..|es|] == es;
      i := 0;
      while i < |s| - index
        invariant 0 <= i <= |s| - index
        invariant al == s[..index] + es + s[index..index + i]
      {
        assert s[index..index + i + 1] == s[index..index + i] + [s[i + index]];
        al := al + [s[i + index]];
        i := i + 1;
      }
      assert s[index..index + i] == s[index..];
    }

    /**
     * `insertAt(index, es...)`: an index outside `0..size()` is refused and
     * the track is unchanged; at `size()` the entries are added one by one;
     * otherwise the list is rebuilt as prefix, new entries, then the rest.
     */
    method InsertAt(index: int, es: seq<Entry>) returns (r: Outcome<SubtitleError>)
      modifies this
      ensures r.Pass? <==> 0 <= index <= |old(entries)|
      ensures r.Fail? ==> r.error == IndexOutOfRange && entries == old(entries)
      ensures r.Pass? ==> entries == Splice(old(entries), index, es)
      ensures r.Pass? && index == |old(entries)| ==> entries == AppendEach(old(entries), es)
    {
      if index < 0 || index > |entries| {
        return Fail(IndexOutOfRange);
      } else if index == |entries| {
        AddEach(es);
        AppendEachIsSplice(old(entries), es);
        return Pass;
      }
      var al := Rebuild(entries, index, es);
      Clear();
      AddEach(al);
      r := Pass;
    }

    /**
     * `toString`: one SubRip block per entry, in list order, each numbered
     * by `indexOf(entry) + 1`.
     */
    method ToString() returns (s: string)
      requires AllValid(entries)
      ensures s == Render(entries)
    {
      ghost var numbers, cues := CueNumbers(entries), Cues(entries);
      s := "";
      for k := 0 to |entries|
        invariant s == RenderBlocks(numbers[..k], cues[..k])
      {
        var e := entries[k];
        assert e.Valid();
        var number, cue := IndexOf(entries, e) + 1, CueOf(e);
        assert number == numbers[k] && cue == cues[k];
        TakeOneMore(numbers, k);
        TakeOneMore(cues, k);
        RenderBlocksAppend(numbers[..k], cues[..k], number, cue);
        s := AppendBlock(s, number, cue);
      }
      TakeAll(numbers);
      TakeAll(cues);
    }

    /**
     * The body of `toString`'s loop: appends the cue number, the timing line,
     * each text line and the blank line of one entry.
     */
    static method AppendBlock(sb: string, number: nat, c: Cue) returns (s: string)
      ensures s == sb + Block(number, c)
    {
      s := sb + NumberLine(number);
      s := s + TimingLine(c);
      s := AppendLines(s, c.lines);
      s := s + "\n";
      BlockAppended(sb, NumberLine(number), TimingLine(c), LinesText(c.lines));
    }

    /** The inner loop of `toString`: each text line, then a newline. */
    static method AppendLines(sb: string, lines: seq<string>) returns (s: string)
      ensures s == sb + LinesText(lines)
    {
      s := sb;
      for j := 0 to |lines|
        invariant s == sb + LinesText(lines[..j])
      {
        assert lines[..j + 1][..j] == lines[..j];
        s := s + (lines[j] + "\n");
      }
      assert lines[..|lines|] == lines;
    }
  }
}
