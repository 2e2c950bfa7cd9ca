/**
 * A worked SubRip rendering: a track of two cues, one of one line and one of
 * two lines, and the exact text `toString` gives for it, written block by
 * block and line by line.
 */
module SrtExample {
  import opened Decimal
  import opened SrtEntry
  import opened SrtSubtitle

  /** A one-digit number padded to `width` is zeros and that digit. */
  lemma PadDigit(d: nat, width: nat)
    requires d < 10 && width >= 1
    ensures ZeroPad(d, width) == Zeros(width - 1) + [DigitChar(d)]
  {
  }

  /** The stamp text spelled out character by character; a proof step of `FormatSeconds`. */
  lemma StampText(c: char)
    ensures "00:00:0" + [c] + ",000" == ['0', '0', ':', '0', '0', ':', '0', c, ',', '0', '0', '0']
  {
  }

  /** A time of fewer than ten whole seconds prints as `00:00:0s,000`. */
  lemma FormatSeconds(t: nat, sec: nat)
    requires sec < 10 && t == sec * 1000
    ensures FormatTime(t) == ['0', '0', ':', '0', '0', ':', '0', DigitChar(sec), ',', '0', '0', '0']
  {
    BreakdownUnique(t, Clock(0, 0, sec, 0));
    PadDigit(0, 2);
    PadDigit(0, 3);
    PadDigit(sec, 2);
    assert Zeros(1) == "0" && Zeros(2) == "00";
    assert DigitChar(0) == '0';
    StampText(DigitChar(sec));
  }

  /** The number line of a one-digit cue number. */
  lemma NumberText(n: nat, d: char)
    requires n < 10 && d as int == '0' as int + n
    ensures Digits(n) == [d]
  {
  }

  /** The text of a one-line cue; a proof step of `TwoLines` and `FirstBlock`. */
  lemma OneLine(l: string)
    ensures LinesText([l]) == l + "\n"
  {
    assert [l][..0] == [];
  }

  /** The text of a two-line cue, line by line; a proof step of `SecondBlock`. */
  lemma TwoLines(l1: string, l2: string)
    ensures LinesText([l1, l2]) == (l1 + "\n") + (l2 + "\n")
  {
    assert [l1, l2][..1] == [l1];
    OneLine(l1);
  }

  /** A single entry renders as its block, numbered 1. */
  lemma RenderOne(a: Entry)
    requires a.Valid()
    ensures AllValid([a])
    ensures Render([a]) == Block(1, CueOf(a))
  {
    assert CueNumbers([a]) == [] + [1] by {
      assert CueNumber([a], 0) == 1;
    }
    assert Cues([a]) == [] + [CueOf(a)];
    RenderBlocksAppend([], [], 1, CueOf(a));
    EmptyPrefix(Block(1, CueOf(a)));
  }

  /** Two different entries render as block 1 followed by block 2. */
  lemma RenderTwo(a: Entry, b: Entry)
    requires a != b && AllValid([a, b])
    ensures Render([a, b]) == Block(1, CueOf(a)) + Block(2, CueOf(b))
  {
    assert a in [a, b];
    RenderOne(a);
    assert [a] + [b] == [a, b];
    RenderAppend([a], b);
  }

  /** The empty text in front changes nothing; a proof step of `RenderOne`. */
  lemma EmptyPrefix(s: string)
    ensures "" + s == s
  {
  }

  /** A stamp of whole seconds below ten, given as its text. */
  lemma StampIs(t: nat, sec: nat, text: string)
    requires sec < 10 && t == sec * 1000
    requires text == ['0', '0', ':', '0', '0', ':', '0', DigitChar(sec), ',', '0', '0', '0']
    ensures FormatTime(t) == text
  {
    FormatSeconds(t, sec);
  }

  /** A block is its number line, timing line, text lines and a blank line. */
  lemma BlockIs(n: nat, c: Cue, number: string, timing: string, lines: string)
    requires NumberLine(n) == number && TimingLine(c) == timing && LinesText(c.lines) == lines
    ensures Block(n, c) == number + timing + lines + "\n"
  {
  }

  /** The timing line of a cue whose two stamps are given as text. */
  lemma TimingIs(c: Cue, from: string, to: string)
    requires FormatTime(c.startMs) == from && FormatTime(c.endMs) == to
    ensures TimingLine(c) == from + " --> " + to + "\n"
  {
  }

  /** The block of cue 1, "Hello" from 1 s to 3 s. */
  lemma FirstBlock(a: Entry)
    requires a.startTime == 1000 && a.endTime == 3000 && a.text == ["Hello"]
    ensures Block(1, CueOf(a))
         == ("1" + "\n")
          + ("00:00:01,000" + " --> " + "00:00:03,000" + "\n")
          + ("Hello" + "\n")
          + "\n"
  {
    var c := CueOf(a);
    assert DigitChar(1) == '1' && DigitChar(3) == '3';
    StampIs(c.startMs, 1, "00:00:01,000");
    StampIs(c.endMs, 3, "00:00:03,000");
    TimingIs(c, "00:00:01,000", "00:00:03,000");
    NumberText(1, '1');
    OneLine("Hello");
    BlockIs(1, c, "1" + "\n", "00:00:01,000" + " --> " + "00:00:03,000" + "\n", "Hello" + "\n");
  }

  /** The block of cue 2, "World" / "Line2" from 4 s to 6 s. */
  lemma SecondBlock(b: Entry)
    requires b.startTime == 4000 && b.endTime == 6000 && b.text == ["World", "Line2"]
    ensures Block(2, CueOf(b))
         == ("2" + "\n")
          + ("00:00:04,000" + " --> " + "00:00:06,000" + "\n")
          + (("World" + "\n") + ("Line2" + "\n"))
          + "\n"
  {
    var c := CueOf(b);
    assert DigitChar(4) == '4' && DigitChar(6) == '6';
    StampIs(c.startMs, 4, "00:00:04,000");
    StampIs(c.endMs, 6, "00:00:06,000");
    TimingIs(c, "00:00:04,000", "00:00:06,000");
    NumberText(2, '2');
    TwoLines("World", "Line2");
    BlockIs(2, c, "2" + "\n", "00:00:04,000" + " --> " + "00:00:06,000" + "\n",
            ("World" + "\n") + ("Line2" + "\n"));
  }

  /**
   * The track of the cue "Hello" from 1 s to 3 s and the cue "World" /
   * "Line2" from 4 s to 6 s renders as
   *
   *   1
   *   00:00:01,000 --> 00:00:03,000
   *   Hello
   *
   *   2
   *   00:00:04,000 --> 00:00:06,000
   *   World
   *   Line2
   *
   */
  lemma RenderTwoEntries(a: Entry, b: Entry)
    requires a != b
    requires a.startTime == 1000 && a.endTime == 3000 && a.text == ["Hello"]
    requires b.startTime == 4000 && b.endTime == 6000 && b.text == ["World", "Line2"]
    ensures Render([a, b])
         == ("1" + "\n")
          + ("00:00:01,000" + " --> " + "00:00:03,000" + "\n")
          + ("Hello" + "\n")
          + "\n"
          + (("2" + "\n")
          + ("00:00:04,000" + " --> " + "00:00:06,000" + "\n")
          + (("World" + "\n") + ("Line2" + "\n"))
          + "\n")
  {
    RenderTwo(a, b);
    FirstBlock(a);
    SecondBlock(b);
  }

  /**
   * Inserting `e` at index 1 of the track `a, b, c` gives `a, e, b, c`; when
   * the four are different objects they are numbered 1 to 4 in that order.
   */
  lemma InsertIntoThree(a: Entry, b: Entry, c: Entry, e: Entry)
    ensures Splice([a, b, c], 1, [e]) == [a, e, b, c]
    ensures Distinct([a, e, b, c]) ==> forall k :: 0 <= k < 4 ==> CueNumber([a, e, b, c], k) == k + 1
  {
    var r := Splice([a, b, c], 1, [e]);
    assert r[0] == a && r[1] == e && r[2] == b && r[3] == c;
    if Distinct([a, e, b, c]) {
      forall k | 0 <= k < 4
        ensures CueNumber([a, e, b, c], k) == k + 1
      {
        CueNumbersContiguous([a, e, b, c], k);
      }
    }
  }
}
