/**
 * One SubRip cue (`SRTEntry`): a start and an end time in milliseconds,
 * relative to the start of the film, and the lines of text to show.
 * Every entry keeps `0 <= startTime < endTime`.
 */
module SrtEntry {
  import opened Wrappers

  /** Selector constant for the first subtitle line (`0b11000001`). */
  const LINE_1: int := 0xC1
  /** Selector constant for the second subtitle line (`0b11000010`). */
  const LINE_2: int := 0xC2

  /** The `IllegalArgumentException`s an entry throws, one per message. */
  datatype EntryError =
    | EqualTimes          // constructor: start == end
    | NegativeStart       // constructor: start < 0
    | StartAfterEnd       // constructor: start > end
    | StartOutOfRange     // setStartTime: not 0 <= start < end
    | EndNotAfterStart    // setEndTime: end <= start
    | InvalidLineChoice   // getCorrespondingLineNumber: first guard
    | UnknownLine         // getCorrespondingLineNumber: switch default
    | LineMissing         // setTextAtLine: the entry has no such line (array bounds)

  /**
   * The constructor's checks, in their order: the accepted range first,
   * then equal times, then a negative start, otherwise start after end.
   */
  function CheckRange(start: int, end: int): (r: Outcome<EntryError>)
    ensures r.Pass? <==> 0 <= start < end
    ensures r == Fail(EqualTimes) <==> start == end
    ensures r == Fail(NegativeStart) <==> start != end && start < 0
    ensures r == Fail(StartAfterEnd) <==> 0 <= start && end < start
  {
    if 0 <= start && start < end then Pass
    else if start == end then Fail(EqualTimes)
    else if start < 0 then Fail(NegativeStart)
    else Fail(StartAfterEnd)
  }

  /**
   * `getCorrespondingLineNumber` as written: its guard
   * `line != LINE_1 || line != LINE_2` holds for every `line`, because the
   * two constants differ, so every selector is rejected and the switch
   * behind the guard is never reached.
   */
  function CorrespondingLineNumber(line: int): (r: Result<int, EntryError>)
    ensures r == Failure(InvalidLineChoice)
  {
    if line != LINE_1 || line != LINE_2 then Failure(InvalidLineChoice)
    else if line == LINE_1 then Success(0)
    else if line == LINE_2 then Success(1)
    else Failure(UnknownLine)
  }

  /** Even the documented selectors are refused by the code as written. */
  lemma LineSelectorsAllRejected()
    ensures CorrespondingLineNumber(LINE_1).Failure?
    ensures CorrespondingLineNumber(LINE_2).Failure?
  {
  }

  /**
   * The mapping the switch was meant to give: `LINE_1` is index 0,
   * `LINE_2` index 1, any other selector is rejected.
   */
  function IntendedLineNumber(line: int): (r: Result<int, EntryError>)
    ensures r.Success? <==> line == LINE_1 || line == LINE_2
    ensures r.Success? ==> r.value == line - LINE_1 && 0 <= r.value < 2
    ensures r.Failure? ==> r.error == InvalidLineChoice
  {
    if line == LINE_1 then Success(0)
    else if line == LINE_2 then Success(1)
    else Failure(InvalidLineChoice)
  }

  class Entry {
    var startTime: int
    var endTime: int
    var text: seq<string>

    /** The entry invariant: the cue starts at or after 0 and ends after it starts. */
    ghost predicate Valid()
      reads this
    {
      0 <= startTime < endTime
    }

    /** The successful path of the Java constructor. */
    constructor (start: int, end: int, lines: seq<string>)
      requires 0 <= start < end
      ensures Valid()
      ensures startTime == start && endTime == end && text == lines
    {
      startTime, endTime, text := start, end, lines;
    }

    /**
     * `new SRTEntry(start, end, lines...)`: an entry exactly when
     * `0 <= start < end`, holding the given values; otherwise the error the
     * constructor throws, and no entry.
     */
    static method Create(start: int, end: int, lines: seq<string>) returns (r: Result<Entry, EntryError>)
      ensures r.Success? <==> 0 <= start < end
      ensures r.Success? ==> fresh(r.value) && r.value.Valid()
      ensures r.Success? ==> r.value.startTime == start && r.value.endTime == end && r.value.text == lines
      ensures r.Failure? ==> CheckRange(start, end) == Fail(r.error)
    {
      var check := CheckRange(start, end);
      if check.Fail? {
        return Failure(check.error);
      }
      var e := new Entry(start, end, lines);
      return Success(e);
    }

    /**
     * `setStartTime`: accepted exactly when `0 <= start < endTime`; then only
     * the start time changes, otherwise nothing changes.
     */
    method SetStartTime(start: int) returns (r: Outcome<EntryError>)
      requires Valid()
      modifies this
      ensures Valid()
      ensures r.Pass? <==> 0 <= start < old(endTime)
      ensures r.Fail? ==> r.error == StartOutOfRange
      ensures startTime == (if r.Pass? then start else old(startTime))
      ensures endTime == old(endTime) && text == old(text)
    {
      if start < endTime && start >= 0 {
        startTime := start;
        r := Pass;
      } else {
        r := Fail(StartOutOfRange);
      }
    }

    /**
     * `setEndTime`: accepted exactly when `end > startTime`; then only the
     * end time changes, otherwise nothing changes.
     */
    method SetEndTime(end: int) returns (r: Outcome<EntryError>)
      requires Valid()
      modifies this
      ensures Valid()
      ensures r.Pass? <==> end > old(startTime)
      ensures r.Fail? ==> r.error == EndNotAfterStart
      ensures endTime == (if r.Pass? then end else old(endTime))
      ensures startTime == old(startTime) && text == old(text)
    {
      if end > startTime {
        endTime := end;
        r := Pass;
      } else {
        r := Fail(EndNotAfterStart);
      }
    }

    /** `setText`: replaces all lines, whatever their number; the times stay. */
    method SetText(lines: seq<string>)
      requires Valid()
      modifies this
      ensures Valid()
      ensures text == lines
      ensures startTime == old(startTime) && endTime == old(endTime)
    {
      text := lines;
    }

    /**
     * `setTextAtLine` as written: the selector lookup always throws, so the
     * call always fails and the entry is left as it was.
     */
    method SetTextAtLine(line: int, s: string) returns (r: Outcome<EntryError>)
      requires Valid()
      modifies this
      ensures Valid()
      ensures r == Fail(InvalidLineChoice)
      ensures startTime == old(startTime) && endTime == old(endTime) && text == old(text)
    {
      var i := CorrespondingLineNumber(line);
      match i
      case Failure(err) =>
        r := Fail(err);
    }

    /**
     * `setTextAtLine` with the intended selector mapping: the selected line
     * is replaced and nothing else changes; an unknown selector, or a line
     * the entry does not have (Java's array bounds check), leaves the entry
     * as it was.
     */
    method SetTextAtLineIntended(line: int, s: string) returns (r: Outcome<EntryError>)
      requires Valid()
      modifies this
      ensures Valid()
      ensures r.Pass? <==> (line == LINE_1 && |old(text)| >= 1) || (line == LINE_2 && |old(text)| >= 2)
      ensures r.Pass? ==> text == old(text)[line - LINE_1 := s]
      ensures r.Fail? ==> text == old(text)
      ensures r.Fail? ==> r.error == (if line == LINE_1 || line == LINE_2 then LineMissing else InvalidLineChoice)
      ensures startTime == old(startTime) && endTime == old(endTime)
    {
      var i := IntendedLineNumber(line);
      if i.Failure? {
        return Fail(i.error);
      }
      if i.value >= |text| {
        return Fail(LineMissing);
      }
      text := text[i.value := s];
      r := Pass;
    }

    /** `getStartTime`: never negative and before the end time. */
    function GetStartTime(): (t: int)
      reads this
      requires Valid()
      ensures 0 <= t < endTime
    {
      startTime
    }

    /** `getEndTime`: strictly positive and after the start time. */
    function GetEndTime(): (t: int)
      reads this
      requires Valid()
      ensures t > startTime && t > 0
    {
      endTime
    }

    /** `getText`: the stored lines, in order, as a value. */
    function GetText(): (t: seq<string>)
      reads this
      ensures t == text
    {
      text
    }

    /** `getDuration`: how long the cue is shown; always strictly positive. */
    function GetDuration(): (d: int)
      reads this
      requires Valid()
      ensures d > 0
      ensures startTime + d == endTime
    {
      endTime - startTime
    }
  }
}
