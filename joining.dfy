/** Python's `sep.join(list)` for a one-character separator, and the
    matching `str.split(sep)` that undoes it when no item contains the
    separator. */
module Joining {

  /** `[sep].join(items)`: the items with one `sep` between neighbours;
      the empty list joins to the empty string. */
  function Join(items: seq<string>, sep: char): (s: string)
    ensures |items| > 1 ==> sep in s
    decreases |items|
  {
    if |items| == 0 then ""
    else if |items| == 1 then items[0]
    else items[0] + [sep] + Join(items[1..], sep)
  }

  /** `s.split(sep)`: the pieces between separators; never empty. */
  function Split(s: string, sep: char): (pieces: seq<string>)
    ensures |pieces| > 0
    decreases |s|
  {
    if s == [] then [""]
    else
      var rest := Split(s[1..], sep);
      if s[0] == sep then [""] + rest else [[s[0]] + rest[0]] + rest[1..]
  }

  predicate NoneContains(items: seq<string>, sep: char) {
    forall i :: 0 <= i < |items| ==> sep !in items[i]
  }

  lemma {:induction false} SplitPiece(w: string, sep: char, tail: string)
    requires sep !in w
    ensures Split(w + [sep] + tail, sep) == [w] + Split(tail, sep)
    ensures Split(w, sep) == [w]
    decreases |w|
  {
    if w == [] {
      assert w + [sep] + tail == [sep] + tail;
      assert ([sep] + tail)[1..] == tail;
    } else {
      assert (w + [sep] + tail)[1..] == w[1..] + [sep] + tail;
      SplitPiece(w[1..], sep, tail);
      assert [w[0]] + w[1..] == w;
    }
  }

  /** Splitting a joined non-empty list gives the list back when no item
      contains the separator. */
  lemma {:induction false} SplitJoin(items: seq<string>, sep: char)
    requires |items| > 0 && NoneContains(items, sep)
    ensures Split(Join(items, sep), sep) == items
    decreases |items|
  {
    if |items| == 1 {
      SplitPiece(items[0], sep, "");
    } else {
      SplitJoin(items[1..], sep);
      SplitPiece(items[0], sep, Join(items[1..], sep));
      assert [items[0]] + items[1..] == items;
    }
  }
}
