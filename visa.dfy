// The traffic between a driver and its instrument over a VISA session, as the
// drivers see it: what they write and what they ask, in order. Replies are the
// instrument's business and enter the model as inputs of the operations.
module Visa {

  /**
   * One exchange with an instrument. `Number` is a write whose text is `head`,
   * the formatted number, then `tail`; how the number is printed is left open.
   */
  datatype Command =
    | Clear
    | Write(text: string)
    | Number(head: string, value: real, tail: string)
    | Query(text: string)

  /** `s.startswith(prefix)` */
  predicate StartsWith(s: string, prefix: string)
  {
    |prefix| <= |s| && s[..|prefix|] == prefix
  }

  /** `s[:n]`: at most the first `n` characters. */
  function Take(s: string, n: nat): (r: string)
    ensures |r| == if |s| < n then |s| else n
    ensures r <= s
  {
    if |s| <= n then s else s[..n]
  }

  /** The written set-points `head + v + tail` for the values of `vs`, in order. */
  function Numbers(head: string, vs: seq<real>, tail: string): (r: seq<Command>)
    ensures |r| == |vs|
    ensures forall i :: 0 <= i < |vs| ==> r[i] == Number(head, vs[i], tail)
  {
    seq(|vs|, i requires 0 <= i < |vs| => Number(head, vs[i], tail))
  }

  lemma NumbersAppend(head: string, vs: seq<real>, v: real, tail: string)
    ensures Numbers(head, vs + [v], tail) == Numbers(head, vs, tail) + [Number(head, v, tail)]
  {
  }
}
