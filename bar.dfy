/**
 * The `ProgressBar` class of src/bar.ts: a bar whose style fields are set one
 * by one and which computes its progress figures and its segments on demand.
 * The DOM it builds is modelled as a `RenderedBar` value.
 */
module Bar {

  import opened Wrappers
  import opened Strings
  import Ratio
  import opened Segments

  /** What `renderBar` puts on screen: the label span (when shown), then the bar. */
  datatype RenderedBar = RenderedBar(
    shownLabel: Option<string>,
    hasEmoji: bool,
    prefix: string,
    segments: seq<Segment>,
    suffix: string)

  class ProgressBar {

    var fillSymbol: string       // `_fill`
    var lengthSetting: int       // `_length`, as last assigned
    var transitions: seq<string> // `_transition`, the comma-split transition symbols
    var labelText: string   // `label` (a reserved word in Dafny)
    var done: nat
    var total: nat
    var empty: string
    var prefix: string
    var suffix: string
    var labelHide: bool

    /** The transition list always holds at least one symbol, as `split` never returns an empty list. */
    ghost predicate Valid()
      reads this
    {
      |transitions| >= 1
    }

    /** Fields the source leaves unset start as the empty string, length 0 and the split of "". */
    constructor (labelText: string, done: nat, total: nat)
      ensures Valid()
      ensures this.labelText == labelText && this.done == done && this.total == total
      ensures fillSymbol == "" && lengthSetting == 0 && transitions == [""]
      ensures empty == "" && prefix == "" && suffix == "" && !labelHide
    {
      this.labelText := labelText;
      this.done := done;
      this.total := total;
      fillSymbol, lengthSetting, transitions := "", 0, [""];
      empty, prefix, suffix, labelHide := "", "", "", false;
    }

    function Fill(): string
      reads this
    {
      fillSymbol
    }

    method SetFill(value: string)
      modifies this`fillSymbol
      ensures Fill() == value
    {
      fillSymbol := value;
    }

    /** The `length` getter: the stored length when positive, otherwise `total`. */
    function Length(): (r: nat)
      reads this
      ensures total > 0 ==> r >= 1
    {
      Ratio.BarLength(lengthSetting, total)
    }

    method SetLength(value: int)
      modifies this`lengthSetting
      ensures lengthSetting == value
      ensures Length() == if value > 0 then value else total
    {
      lengthSetting := value;
    }

    /** The `transition` getter: the symbols joined with commas. */
    function Transition(): string
      reads this
    {
      Join(transitions, ',')
    }

    /** The `transition` setter stores the comma-split symbols; reading back gives the string set. */
    method SetTransition(value: string)
      modifies this`transitions
      ensures Valid()
      ensures transitions == Split(value, ',')
      ensures Transition() == value
    {
      transitions := Split(value, ',');
      JoinSplit(value, ',');
    }

    /** `getDonePercent`: `done / total * 100`, unclamped. */
    function DonePercent(): (r: real)
      reads this
      requires total > 0
      ensures r * total as real == 100.0 * done as real
    {
      Ratio.Percent(done, total)
    }

    /** `getRemainder`: the fill of the boundary segment, in [0, 1), zero exactly when the division is exact. */
    function Remainder(): (r: real)
      reads this
      requires total > 0
      ensures 0.0 <= r < 1.0
      ensures r == ((done * Length()) % total) as real / total as real
      ensures r == 0.0 <==> (done * Length()) % total == 0
    {
      Ratio.Remainder(done, total, Length())
    }

    /** `getDoneParts`: the filled segments, `floor(done * length / total)` capped at the length. */
    function DoneParts(): (r: nat)
      reads this
      requires total > 0
      ensures r == Ratio.Min(done * Length() / total, Length())
      ensures r <= Length()
      ensures done >= total ==> r == Length()
    {
      Ratio.DoneParts(done, total, Length())
    }

    /** `renderTransition`: the symbol at `floor(remainder * n)`, always within the list. */
    function RenderTransition(): (t: string)
      reads this
      requires Valid() && total > 0
      ensures var i := Ratio.TransitionIndex(done, total, Length(), |transitions|);
              i == ((done * Length()) % total) * |transitions| / total && t == transitions[i]
    {
      transitions[Ratio.TransitionIndex(done, total, Length(), |transitions|)]
    }

    /**
     * `renderBar`: the label unless hidden, the fill's pictographic hint (the
     * Unicode classification is supplied by the caller), and exactly
     * `Length()` segments framed by the prefix and the suffix.
     */
    method RenderBar(isEmoji: string -> bool) returns (r: RenderedBar)
      requires Valid() && total > 0
      ensures r.shownLabel == if labelHide then None else Some(labelText)
      ensures r.hasEmoji == isEmoji(fillSymbol)
      ensures r.prefix == prefix && r.suffix == suffix
      ensures r.segments == Layout(Length(), DoneParts(), Remainder() != 0.0, fillSymbol, RenderTransition(), empty)
    {
      var shown: Option<string> := None;
      if !labelHide {
        shown := Some(labelText);
      }
      var hasEmoji := isEmoji(Fill());
      var complete := DoneParts();
      var length := Length();
      var partial := Remainder() != 0.0;
      var bits: seq<Segment> := [];
      var index := 0;
      while index < length
        invariant index <= length
        invariant |bits| == index
        invariant forall k :: 0 <= k < index ==>
          bits[k] == SegmentAt(k, complete, length, partial, fillSymbol, RenderTransition(), empty)
      {
        if index < complete || complete == length {
          bits := bits + [Filled(Fill())];
        } else if complete == index && partial {
          bits := bits + [Segment.Transition(RenderTransition())];
        } else {
          bits := bits + [Empty(empty)];
        }
        index := index + 1;
      }
      r := RenderedBar(shown, hasEmoji, prefix, bits, suffix);
    }
  }

  /** The expectations of tests/bar.test.ts, as assertions about the model. */
  method CalculatesProgress()
  {
    var pb := new ProgressBar("Books read", 0, 10);
    assert pb.DonePercent() == 0.0;
    pb.done := 5;
    assert pb.DonePercent() == 50.0;
    pb.done := 10;
    assert pb.DonePercent() == 100.0;
    pb.done := 20;
    assert pb.DonePercent() == 200.0;

    pb := new ProgressBar("Books read", 0, 15);
    assert pb.DoneParts() == 0;
    pb.done := 5;
    assert pb.DoneParts() == 5;
    pb.done := 10;
    assert pb.DoneParts() == 10;
    pb.done := 20;
    assert pb.DoneParts() == 15;

    pb := new ProgressBar("Books read", 1, 10);
    pb.SetLength(1);
    assert pb.Remainder() == 0.1;

    pb := new ProgressBar("Books read", 5, 10);
    pb.SetLength(2);
    assert pb.DoneParts() == 1;
    assert pb.Remainder() == 0.0;
  }

}
