/** Python's `" ".join(parts)`, the context handed to the question
    answerer (main.py:83). */
module Text {

  /** The parts in order, with one space between neighbours. */
  function Join(parts: seq<string>): (r: string)
    ensures |parts| == 0 ==> r == ""
    ensures |parts| > 0 ==> |parts[0]| <= |r| && r[..|parts[0]|] == parts[0]
  {
    if |parts| == 0 then ""
    else if |parts| == 1 then parts[0]
    else parts[0] + " " + Join(parts[1..])
  }

  /** Where part `i` starts in `Join(parts)`: the lengths of the parts
      before it, each followed by its separator. */
  function Offset(parts: seq<string>, i: nat): nat
    requires i <= |parts|
  {
    if i == 0 then 0 else |parts[0]| + 1 + Offset(parts[1..], i - 1)
  }

  /** Part `i` appears verbatim at `Offset(parts, i)`, and a single space
      follows every part but the last. */
  lemma {:induction false} JoinPlacesParts(parts: seq<string>, i: nat)
    requires i < |parts|
    ensures Offset(parts, i) + |parts[i]| <= |Join(parts)|
    ensures i + 1 < |parts| ==> Offset(parts, i) + |parts[i]| < |Join(parts)|
    ensures Join(parts)[Offset(parts, i)..Offset(parts, i) + |parts[i]|] == parts[i]
    ensures i + 1 < |parts| ==> Join(parts)[Offset(parts, i) + |parts[i]|] == ' '
  {
    if |parts| > 1 {
      var head := parts[0] + " ";
      assert Join(parts) == head + Join(parts[1..]);
      if i > 0 {
        var rest := Join(parts[1..]);
        JoinPlacesParts(parts[1..], i - 1);
        var o := Offset(parts[1..], i - 1);
        assert parts[1..][i - 1] == parts[i];
        assert Offset(parts, i) == |head| + o;
        SliceAfterPrefix(head, rest, o, o + |parts[i]|);
        if i + 1 < |parts| {
          assert Join(parts)[|head| + o + |parts[i]|] == rest[o + |parts[i]|];
        }
      } else {
        assert Join(parts)[..|parts[0]|] == parts[0];
      }
    }
  }

  /** Slicing past a prefix slices what follows it. */
  lemma SliceAfterPrefix(head: string, rest: string, lo: nat, hi: nat)
    requires lo <= hi <= |rest|
    ensures (head + rest)[|head| + lo..|head| + hi] == rest[lo..hi]
  {
    var whole := head + rest;
    assert forall k :: 0 <= k < hi - lo ==> whole[|head| + lo..|head| + hi][k] == rest[lo..hi][k];
  }

  /** The joined text is exactly as long as the parts plus one separator
      between each neighbouring pair. */
  lemma {:induction false} JoinLength(parts: seq<string>)
    requires |parts| > 0
    ensures |Join(parts)| == Offset(parts, |parts| - 1) + |parts[|parts| - 1]|
  {
    if |parts| > 1 {
      var rest := parts[1..];
      JoinLength(rest);
      assert Join(parts) == parts[0] + " " + Join(rest);
      assert rest[|rest| - 1] == parts[|parts| - 1];
      assert Offset(parts, |parts| - 1) == |parts[0]| + 1 + Offset(rest, |rest| - 1);
    }
  }
}
