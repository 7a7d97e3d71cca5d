/**
 * The list edits the two product forms share (UpdateProductUi.tsx and
 * CreateProductUi.tsx): toggling a size, adding a trimmed colour that is not
 * there yet, and removing a colour by position.
 */
module ProductFormLists {
  import opened Text
  import opened ListOps

  /** A chosen image file; its content is never inspected. */
  datatype File = File(name: string)

  /** The image slots both forms offer. */
  const SlotCount := 3

  function Identity(s: string): string {
    s
  }

  /** toggleSize: a present size is filtered out, an absent one is appended at the end. */
  function Toggled(sizes: seq<string>, size: string): (r: seq<string>)
    ensures size in sizes ==> r == Without(sizes, Identity, size)
    ensures size !in sizes ==> r == sizes + [size]
    ensures size in r <==> size !in sizes
    ensures forall x :: x != size ==> (x in r <==> x in sizes)
  {
    if size in sizes then Without(sizes, Identity, size) else sizes + [size]
  }

  /** Toggling a size twice restores which sizes are chosen. */
  lemma {:induction false} ToggleTwiceMembership(sizes: seq<string>, size: string)
    ensures forall x :: x in Toggled(Toggled(sizes, size), size) <==> x in sizes
  {
  }

  /** Choosing a size that was not chosen and then unchoosing it gives back the very same list. */
  lemma {:induction false} ToggleTwiceRestores(sizes: seq<string>, size: string)
    requires size !in sizes
    ensures Toggled(Toggled(sizes, size), size) == sizes
  {
    WithoutAppend(sizes, [size], Identity, size);
    WithoutAbsent(sizes, Identity, size);
    assert Without([size], Identity, size) == [] by {
      assert [size][1..] == [];
    }
  }

  predicate NoDuplicates(xs: seq<string>) {
    forall i, j :: 0 <= i < j < |xs| ==> xs[i] != xs[j]
  }

  /** The colour addColor would add: the trimmed input, when it is non-empty and not listed yet. */
  predicate AcceptsColor(colors: seq<string>, newColor: string) {
    Trim(newColor) != "" && Trim(newColor) !in colors
  }

  /** addColor on the colour list and the input: both change together, or neither does. */
  function AddColor(colors: seq<string>, newColor: string): (r: (seq<string>, string))
    ensures AcceptsColor(colors, newColor) ==> r == (colors + [Trim(newColor)], "")
    ensures !AcceptsColor(colors, newColor) ==> r == (colors, newColor)
  {
    var t := Trim(newColor);
    if t != "" && t !in colors then (colors + [t], "") else (colors, newColor)
  }

  /** A colour list without duplicates stays without duplicates. */
  lemma {:induction false} AddColorKeepsNoDuplicates(colors: seq<string>, newColor: string)
    requires NoDuplicates(colors)
    ensures NoDuplicates(AddColor(colors, newColor).0)
  {
    var r := AddColor(colors, newColor).0;
    if AcceptsColor(colors, newColor) {
      forall i, j | 0 <= i < j < |r| ensures r[i] != r[j] {
        if j == |colors| {
          assert r[i] == colors[i];
        }
      }
    }
  }

  /** An added colour is never empty, never padded with whitespace, and a second identical input is refused. */
  lemma {:induction false} AddedColorIsTrimmed(colors: seq<string>, newColor: string)
    requires AcceptsColor(colors, newColor)
    ensures var c := AddColor(colors, newColor).0[|colors|];
      c != "" && !IsWhitespace(c[0]) && !IsWhitespace(c[|c| - 1])
    ensures AddColor(AddColor(colors, newColor).0, newColor).0 == AddColor(colors, newColor).0
  {
    assert Trim(newColor) in AddColor(colors, newColor).0;
  }

  /** removeColor: `colors.filter((_, i) => i !== index)`, for any number as the index. */
  function RemoveAt(xs: seq<string>, index: int): (r: seq<string>)
    ensures |r| == if 0 <= index < |xs| then |xs| - 1 else |xs|
  {
    if xs == [] then []
    else (if index == 0 then [] else [xs[0]]) + RemoveAt(xs[1..], index - 1)
  }

  /** Within range, exactly position `index` goes and the rest keep their order. */
  lemma {:induction false} RemoveAtSplice(xs: seq<string>, index: int)
    requires 0 <= index < |xs|
    ensures RemoveAt(xs, index) == xs[..index] + xs[index + 1..]
  {
    if index > 0 {
      RemoveAtSplice(xs[1..], index - 1);
      assert xs[1..][..index - 1] == xs[1..index];
      assert xs[1..][index..] == xs[index + 1..];
      assert [xs[0]] + xs[1..index] == xs[..index];
    } else {
      RemoveAtOutOfRange(xs[1..], -1);
    }
  }

  /** Outside the range, nothing is removed. */
  lemma {:induction false} RemoveAtOutOfRange(xs: seq<string>, index: int)
    requires index < 0 || index >= |xs|
    ensures RemoveAt(xs, index) == xs
  {
    if xs != [] {
      RemoveAtOutOfRange(xs[1..], index - 1);
      assert xs == [xs[0]] + xs[1..];
    }
  }
}
