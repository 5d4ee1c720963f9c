/**
 * The `TextProgress` plugin class of src/main.ts: its code-block processor
 * parses a block's label line into fields of the plugin object, merges the
 * block's override rows into a copy of the persisted settings, copies six of
 * them onto the object, and lays out the bar.
 */
module Plugin {

  import opened Wrappers
  import opened Strings
  import Ratio
  import opened Segments
  import opened LabelPattern
  import opened Settings

  /** The notice shown when the first row is not a label line. */
  const LabelNotice := "Could not find label in correct format."

  /** The rendered block: the label (empty when hidden), the fill's pictographic hint, and the framed bar. */
  datatype RenderedBlock = RenderedBlock(
    shownLabel: string,
    hasEmoji: bool,
    open: string,
    segments: seq<Segment>,
    close: string)

  /** The processor's effect: the notice it raises, if any, and the block it renders, if the total is positive. */
  datatype BlockOutput = BlockOutput(notice: Option<string>, bar: Option<RenderedBlock>)

  /** The rows of a block: its trimmed text split on newlines; there is always a first row. */
  function Rows(source: string): (rows: seq<string>)
    ensures |rows| >= 1
  {
    Split(Trim(source), '\n')
  }

  class TextProgress {

    var settings: GlobalSettings
    var labelText: string         // `label` (a reserved word in Dafny)
    var done: nat
    var total: nat
    var transition: string
    var fillParts: seq<string>    // `_fill`, the comma-split fill
    var empty: string
    var open: string
    var close: string
    var length: int

    /** The plugin after `loadSettings`; fields the source leaves unset start empty or zero. */
    constructor (settings: GlobalSettings)
      ensures this.settings == settings
      ensures labelText == "" && done == 0 && total == 0
      ensures transition == "" && fillParts == [""] && empty == "" && open == "" && close == "" && length == 0
    {
      this.settings := settings;
      labelText, done, total := "", 0, 0;
      transition, fillParts, empty, open, close, length := "", [""], "", "", "", 0;
    }

    /** The `fill` getter: the parts joined with commas. */
    function Fill(): string
      reads this`fillParts
    {
      Join(fillParts, ',')
    }

    /** The `fill` setter stores the comma-split value; reading back gives the value set. */
    method SetFill(value: string)
      modifies this`fillParts
      ensures fillParts == Split(value, ',')
      ensures Fill() == value
    {
      fillParts := Split(value, ',');
      JoinSplit(value, ',');
    }

    /** `renderTransition`: the symbol of the comma-split transition at `floor(remainder * n)`, always within the list. */
    function RenderTransition(): (t: string)
      reads this
      requires total > 0 && length >= 0
      ensures var transitions := Split(transition, ',');
              var i := Ratio.TransitionIndex(done, total, length, |transitions|);
              i == ((done * length) % total) * |transitions| / total && t == transitions[i]
    {
      var transitions := Split(transition, ',');
      transitions[Ratio.TransitionIndex(done, total, length, |transitions|)]
    }

    /**
     * `parseLabel`: on a match, stores the label and the two numbers and
     * answers true; otherwise answers false and changes nothing.
     */
    method ParseLabel(line: string) returns (found: bool)
      modifies this`labelText, this`done, this`total
      ensures found <==> MatchLabel(line).Some?
      ensures found ==> labelText == MatchLabel(line).value.text &&
                        done == MatchLabel(line).value.done && total == MatchLabel(line).value.total
      ensures !found ==> labelText == old(labelText) && done == old(done) && total == old(total)
    {
      var matchResult := MatchLabel(line);
      if matchResult.Some? {
        var groups := matchResult.value;
        MatchLabelSpec(line);
        if groups.text != "" {
          labelText := groups.text;
          done := groups.done;
          total := groups.total;
          return true;
        }
      }
      return false;
    }

    /** The label fields after `line` is offered to `parseLabel` over the values `l0`, `d0`, `t0`. */
    function LabelAfter(line: string, l0: string, d0: nat, t0: nat): (string, nat, nat) {
      match MatchLabel(line)
      case Some(g) => (g.text, g.done, g.total)
      case None => (l0, d0, t0)
    }

    /** The notice raised for a label line. */
    function NoticeFor(line: string): Option<string> {
      if MatchLabel(line).Some? then None else Some(LabelNotice)
    }

    /**
     * Lines 114-125 of src/main.ts: the trimmed block split into rows, the
     * first parsed as the label line (raising the notice when it does not
     * match), the others returned as override rows.
     */
    method ReadLabelRow(source: string) returns (rows: seq<string>, notice: Option<string>)
      modifies this`labelText, this`done, this`total
      ensures rows == Rows(source)[1..]
      ensures (labelText, done, total) == LabelAfter(Rows(source)[0], old(labelText), old(done), old(total))
      ensures notice == NoticeFor(Rows(source)[0])
    {
      rows := Split(Trim(source), '\n');
      var first := rows[0];
      rows := rows[1..];
      notice := None;
      var found := ParseLabel(first);
      if !found {
        notice := Some(LabelNotice);
      }
    }

    /**
     * Lines 129-154 of src/main.ts: the override rows merged over a copy of
     * the persisted settings, then transition, open, close, fill, length and
     * empty copied from the result.
     */
    method ApplyOverrides(rows: seq<string>)
      modifies this`transition, this`open, this`close, this`fillParts, this`length, this`empty
      ensures var f := Resolve(Merge(Snapshot(settings), rows));
              transition == f.transition && open == f.open && close == f.close &&
              fillParts == Split(f.fill, ',') && Fill() == f.fill &&
              length == f.length && empty == f.empty
    {
      var merged := MergeRows(Snapshot(settings), rows);
      CopyFields(merged);
    }

    /** Lines 149-154 of src/main.ts: the six fields copied from the merged dictionary. */
    method CopyFields(merged: Dictionary)
      requires WellTyped(merged)
      modifies this`transition, this`open, this`close, this`fillParts, this`length, this`empty
      ensures var f := Resolve(merged);
              transition == f.transition && open == f.open && close == f.close &&
              fillParts == Split(f.fill, ',') && Fill() == f.fill &&
              length == f.length && empty == f.empty
    {
      transition := merged["transition"].text;
      open := merged["open"].text;
      close := merged["close"].text;
      SetFill(merged["fill"].text);
      length := LengthOf(merged["length"]);
      empty := merged["empty"].text;
    }

    /**
     * Lines 174-191 of src/main.ts: exactly `length` segments, filled below
     * `floor(done * length / total)` (not capped), a transition where the
     * division leaves a remainder, empty after.
     */
    method RenderSegments() returns (bits: seq<Segment>)
      requires total > 0 && length >= 0
      ensures bits == Layout(length, Ratio.FilledParts(done, total, length), Ratio.Remainder(done, total, length) != 0.0,
                             Fill(), RenderTransition(), empty)
    {
      var complete := Ratio.FilledParts(done, total, length);
      var remainder := Ratio.Remainder(done, total, length);
      bits := [];
      for index := 0 to length
        invariant |bits| == index
        invariant forall k :: 0 <= k < index ==>
          bits[k] == SegmentAt(k, complete, length, remainder != 0.0, Fill(), RenderTransition(), empty)
      {
        if index < complete || complete == length {
          bits := bits + [Filled(Fill())];
        } else if complete == index && remainder != 0.0 {
          bits := bits + [Segment.Transition(RenderTransition())];
        } else {
          bits := bits + [Empty(empty)];
        }
      }
    }

    /**
     * The block drawn from the current fields: the label unless the persisted
     * settings hide it, the fill's pictographic hint, and `length` segments
     * with `floor(done * length / total)` of them filled (not capped) and a
     * transition where the division leaves a remainder, between the frame.
     */
    function Drawn(isEmoji: string -> bool): RenderedBlock
      reads this
      requires total > 0 && length >= 0
    {
      RenderedBlock(
        if settings.labelHide then "" else labelText,
        isEmoji(Fill()),
        open,
        Layout(length, Ratio.FilledParts(done, total, length), Ratio.Remainder(done, total, length) != 0.0,
               Fill(), RenderTransition(), empty),
        close)
    }

    /**
     * Lines 156-195 of src/main.ts: the label unless the persisted settings
     * hide it, the fill's pictographic hint (the Unicode classification is
     * supplied by the caller), the length falling back to the total, and the
     * framed segments. A zero total (a non-number in the source) renders nothing here.
     */
    method RenderBlock(isEmoji: string -> bool) returns (bar: Option<RenderedBlock>)
      modifies this`length
      ensures length == Ratio.BarLength(old(length), total)
      ensures bar.Some? <==> total > 0
      ensures bar.Some? ==> bar.value == Drawn(isEmoji)
    {
      var hasEmoji := isEmoji(Fill());
      var shown := if settings.labelHide then "" else labelText;
      length := if length > 0 then length else total;
      if total == 0 {
        return None;
      }
      var bits := RenderSegments();
      bar := Some(RenderedBlock(shown, hasEmoji, open, bits, close));
    }

    /**
     * Lines 112-154 of src/main.ts: the label row read and the override rows
     * applied.
     */
    method ReadBlock(source: string) returns (notice: Option<string>)
      modifies this`labelText, this`done, this`total, this`transition, this`open, this`close,
               this`fillParts, this`length, this`empty
      ensures (labelText, done, total) == LabelAfter(Rows(source)[0], old(labelText), old(done), old(total))
      ensures notice == NoticeFor(Rows(source)[0])
      ensures var f := Resolve(Merge(Snapshot(settings), Rows(source)[1..]));
              transition == f.transition && open == f.open && close == f.close &&
              fillParts == Split(f.fill, ',') && Fill() == f.fill && empty == f.empty &&
              length == f.length
    {
      var rows;
      rows, notice := ReadLabelRow(source);
      ApplyOverrides(rows);
    }

    /**
     * The code-block processor. The first row sets the label and the numbers
     * (or raises the notice and keeps the previous ones); the other rows are
     * merged over the persisted settings; six fields are copied onto the
     * plugin; the length falls back to the total; and, when the total is
     * positive, the bar is drawn from those fields.
     * The label shown follows the persisted `labelHide`, not the block's rows.
     */
    method ProcessBlock(source: string, isEmoji: string -> bool) returns (out: BlockOutput)
      modifies this`labelText, this`done, this`total, this`transition, this`open, this`close,
               this`fillParts, this`length, this`empty
      ensures (labelText, done, total) == LabelAfter(Rows(source)[0], old(labelText), old(done), old(total))
      ensures out.notice == NoticeFor(Rows(source)[0])
      ensures var f := Resolve(Merge(Snapshot(settings), Rows(source)[1..]));
              transition == f.transition && open == f.open && close == f.close &&
              fillParts == Split(f.fill, ',') && Fill() == f.fill && empty == f.empty &&
              length == Ratio.BarLength(f.length, total)
      ensures out.bar.Some? <==> total > 0
      ensures out.bar.Some? ==> out.bar.value == Drawn(isEmoji)
    {
      var notice := ReadBlock(source);
      var bar := RenderBlock(isEmoji);
      out := BlockOutput(notice, bar);
    }
  }
}
