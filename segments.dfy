/**
 * The segment layout common to both render loops of the source: a bar of
 * `length` segments where the first `complete` are filled, the one at index
 * `complete` shows a transition symbol when the boundary is partly filled,
 * and the rest are empty.
 */
module Segments {

  import opened Ratio

  datatype Segment = Filled(symbol: string) | Transition(symbol: string) | Empty(symbol: string)

  /**
   * The segment the loop body emits at `index`: filled below `complete` or when
   * `complete` equals the length, the transition symbol at `complete` when the
   * boundary is partly filled, empty otherwise.
   */
  function SegmentAt(index: nat, complete: nat, length: nat, partial: bool,
                     fill: string, transition: string, empty: string): Segment
  {
    if index < complete || complete == length then Filled(fill)
    else if index == complete && partial then Transition(transition)
    else Empty(empty)
  }

  /** The whole bar: `SegmentAt` for every index below `length`, in order. */
  function Layout(length: nat, complete: nat, partial: bool,
                  fill: string, transition: string, empty: string): (bar: seq<Segment>)
    ensures |bar| == length
  {
    seq(length, i requires 0 <= i < length => SegmentAt(i, complete, length, partial, fill, transition, empty))
  }

  function Repeat(s: Segment, n: nat): (r: seq<Segment>)
    ensures |r| == n && forall i :: 0 <= i < n ==> r[i] == s
  {
    seq(n, _ => s)
  }

  /**
   * A bar is a run of filled segments (as many as `complete`, at most the
   * length), at most one transition segment, then empty segments.
   */
  lemma LayoutShape(length: nat, complete: nat, partial: bool, fill: string, transition: string, empty: string)
    ensures var filled := Min(complete, length);
            var middle := if partial && complete < length then [Transition(transition)] else [];
            Layout(length, complete, partial, fill, transition, empty) ==
              Repeat(Filled(fill), filled) + middle + Repeat(Empty(empty), length - filled - |middle|)
  {
    var bar := Layout(length, complete, partial, fill, transition, empty);
    var filled := Min(complete, length);
    var middle := if partial && complete < length then [Transition(transition)] else [];
    var shape := Repeat(Filled(fill), filled) + middle + Repeat(Empty(empty), length - filled - |middle|);
    assert |shape| == length;
    forall i | 0 <= i < length
      ensures bar[i] == shape[i]
    {
      if i < filled {
        assert shape[i] == Filled(fill);
      } else if i < filled + |middle| {
        assert shape[i] == Transition(transition);
      } else {
        assert shape[i] == Empty(empty);
      }
    }
  }

  /** When `complete` reaches the length every segment is filled. */
  lemma FullBar(length: nat, complete: nat, partial: bool, fill: string, transition: string, empty: string)
    requires complete >= length
    ensures Layout(length, complete, partial, fill, transition, empty) == Repeat(Filled(fill), length)
  {
    LayoutShape(length, complete, partial, fill, transition, empty);
  }

  /**
   * There is at most one transition segment; it stands at index `complete`,
   * and there is one exactly when the boundary is partly filled inside the bar.
   */
  lemma SingleTransition(length: nat, complete: nat, partial: bool, fill: string, transition: string, empty: string)
    ensures var bar := Layout(length, complete, partial, fill, transition, empty);
            forall i :: 0 <= i < length && bar[i].Transition? ==> i == complete && bar[i] == Transition(transition)
    ensures var bar := Layout(length, complete, partial, fill, transition, empty);
            (exists i :: 0 <= i < length && bar[i].Transition?) <==> partial && complete < length
  {
    var bar := Layout(length, complete, partial, fill, transition, empty);
    if partial && complete < length {
      assert bar[complete].Transition?;
    }
  }

  /**
   * Capping `complete` at the length, as one copy of the loop does and the
   * other does not, yields the same bar.
   */
  lemma CapIrrelevant(length: nat, complete: nat, partial: bool, fill: string, transition: string, empty: string)
    ensures Layout(length, complete, partial, fill, transition, empty) ==
            Layout(length, Min(complete, length), partial, fill, transition, empty)
  {
    LayoutShape(length, complete, partial, fill, transition, empty);
    LayoutShape(length, Min(complete, length), partial, fill, transition, empty);
  }

}
