/**
 * The celebration guard both level pages use:
 *   if (!ready || firedRef.current) return; firedRef.current = true; celebrate();
 * `firedRef` lives as long as the page, so the guard is evaluated once per
 * change of `ready` and remembers whether it has already fired.
 */
module OnceGuard {

  datatype Decision = Decision(fires: bool, firedAfter: bool)

  /** One evaluation of the guard. */
  function Check(ready: bool, fired: bool): (d: Decision)
    ensures d.fires <==> ready && !fired
    ensures d.firedAfter <==> fired || ready
  {
    if !ready || fired then Decision(false, fired) else Decision(true, true)
  }

  /** How many times the guard fires over successive evaluations. */
  function FireCount(trace: seq<bool>, fired: bool): nat
  {
    if trace == [] then 0
    else
      var d := Check(trace[0], fired);
      (if d.fires then 1 else 0) + FireCount(trace[1..], d.firedAfter)
  }

  /** The remembered flag after successive evaluations. */
  function FiredAfter(trace: seq<bool>, fired: bool): bool
  {
    if trace == [] then fired else FiredAfter(trace[1..], Check(trace[0], fired).firedAfter)
  }

  /**
   * Whatever the sequence of `ready` values, the celebration fires at most
   * once; it fires exactly once precisely when it had not fired yet and
   * `ready` is true at some point; afterwards the flag stays set.
   */
  lemma {:induction false} FiresAtMostOnce(trace: seq<bool>, fired: bool)
    ensures FireCount(trace, fired) <= 1
    ensures fired ==> FireCount(trace, fired) == 0 && FiredAfter(trace, fired)
    ensures !fired ==> (FireCount(trace, fired) == 1 <==> exists i :: 0 <= i < |trace| && trace[i])
    ensures FiredAfter(trace, fired) <==> fired || exists i :: 0 <= i < |trace| && trace[i]
  {
    if trace != [] {
      var d := Check(trace[0], fired);
      FiresAtMostOnce(trace[1..], d.firedAfter);
      forall i | 0 <= i < |trace| - 1
        ensures trace[1..][i] == trace[i + 1]
      {
      }
      if !trace[0] {
        assert (exists i :: 0 <= i < |trace| && trace[i]) <==> (exists i :: 0 <= i < |trace[1..]| && trace[1..][i]) by {
          if exists i :: 0 <= i < |trace| && trace[i] {
            var i :| 0 <= i < |trace| && trace[i];
            assert trace[1..][i - 1] == trace[i];
          }
        }
      }
    }
  }
}
