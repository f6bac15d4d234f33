/**
 * The joining helpers the j2k renderer relies on: `makeString(sep)` on a list of
 * rendered fragments, and the list helper `toKotlin(commentConverter, sep, prefix, suffix)`.
 * Neither is defined in MethodCallExpression.kt; this module states the behaviour the
 * renderer assumes of them.
 */
module PrettyPrint {

  /** The fragments in order, with `sep` between each adjacent pair and nowhere else. */
  function Join(parts: seq<string>, sep: string): (r: string)
    ensures |parts| == 0 ==> r == ""
    ensures |parts| > 0 ==> |parts[0]| <= |r| && r[..|parts[0]|] == parts[0]
    decreases |parts|
  {
    if |parts| == 0 then ""
    else if |parts| == 1 then parts[0]
    else parts[0] + sep + Join(parts[1..], sep)
  }

  /**
   * The list helper: nothing at all for an empty list (no prefix, no suffix),
   * otherwise `prefix`, the joined fragments, `suffix`. The empty-list case is an
   * assumption about a helper whose source is not part of this model.
   */
  function ListToKotlin(parts: seq<string>, sep: string, prefix: string, suffix: string): (r: string)
    ensures |parts| == 0 ==> r == ""
    ensures |parts| > 0 ==> |r| >= |prefix| + |suffix| && r[..|prefix|] == prefix && r[|r| - |suffix|..] == suffix
  {
    if |parts| == 0 then "" else prefix + Join(parts, sep) + suffix
  }

  /** Where the `i`-th fragment starts inside `Join(parts, sep)`. */
  function Offset(parts: seq<string>, sep: string, i: nat): nat
    requires i <= |parts|
    decreases i
  {
    if i == 0 then 0 else |parts[0]| + |sep| + Offset(parts[1..], sep, i - 1)
  }

  /** Total length of the fragments, separators excluded. */
  function TotalLength(parts: seq<string>): nat
    decreases |parts|
  {
    if |parts| == 0 then 0 else |parts[0]| + TotalLength(parts[1..])
  }

  /**
   * In `joined`, fragment `i` stands verbatim at `Offset(parts, sep, i)`; it is followed
   * by exactly `sep` when another fragment comes after it, and the last fragment ends the text.
   */
  predicate PartPlaced(joined: string, parts: seq<string>, sep: string, i: nat)
    requires i < |parts|
  {
    var at := Offset(parts, sep, i);
    var end := at + |parts[i]|;
    end <= |joined| && joined[at..end] == parts[i] &&
    (i + 1 < |parts| ==> end + |sep| <= |joined| && joined[end..end + |sep|] == sep) &&
    (i + 1 == |parts| ==> end == |joined|)
  }

  /** Order preservation: every fragment is placed in the joined text as `PartPlaced` says. */
  lemma {:induction false} JoinPartAt(parts: seq<string>, sep: string, i: nat)
    requires i < |parts|
    ensures PartPlaced(Join(parts, sep), parts, sep, i)
    decreases i
  {
    if |parts| == 1 {
      assert Join(parts, sep) == parts[0];
    } else {
      var head := parts[0] + sep;
      var rest := Join(parts[1..], sep);
      var joined := Join(parts, sep);
      assert joined == head + rest;
      if i == 0 {
        assert joined[..|parts[0]|] == parts[0];
        assert joined[|parts[0]|..|head|] == sep;
      } else {
        JoinPartAt(parts[1..], sep, i - 1);
        assert parts[1..][i - 1] == parts[i];
        var o := Offset(parts[1..], sep, i - 1);
        var n := |parts[i]|;
        assert Offset(parts, sep, i) == |head| + o;
        SliceAfter(head, rest, o, n);
        if i + 1 < |parts| {
          SliceAfter(head, rest, o + n, |sep|);
        }
      }
    }
  }

  /** A slice of the second part of a concatenation, read through the whole. */
  lemma SliceAfter(head: string, rest: string, from: nat, len: nat)
    requires from + len <= |rest|
    ensures (head + rest)[|head| + from..|head| + from + len] == rest[from..from + len]
  {
    assert forall k :: from <= k < from + len ==> (head + rest)[|head| + k] == rest[k];
  }

  /** The joined text is the fragments plus exactly one separator per adjacent pair. */
  lemma {:induction false} JoinLength(parts: seq<string>, sep: string)
    requires |parts| > 0
    ensures |Join(parts, sep)| == TotalLength(parts) + (|parts| - 1) * |sep|
    decreases |parts|
  {
    if |parts| > 1 {
      JoinLength(parts[1..], sep);
    }
  }
}
