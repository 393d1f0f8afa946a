/**
 * First-match-wins search over an ordered list of element selectors.
 *
 * Each selector is tried once, in list order; the browser's answer for one
 * selector is an oracle `probe` (the element was found and acted on, it was
 * absent, or the attempt raised an exception the search does not catch).
 * The first hit ends the search; later selectors are never tried.
 */
module Locator {

  /** The outcome of trying one selector. */
  datatype Probe =
    | Hit    // element found and the action on it succeeded
    | Miss   // the exception the search catches (not found / wait timed out)
    | Crash  // any other exception: it escapes the search

  /** The outcome of a whole search. */
  datatype Search =
    | Found(index: nat)      // selector `index` hit
    | Exhausted(tried: nat)  // every selector missed
    | Aborted(index: nat)    // selector `index` raised an uncaught exception

  /** How many selectors the search tried. */
  function Tried(r: Search): nat {
    match r
    case Found(i) => i + 1
    case Aborted(i) => i + 1
    case Exhausted(n) => n
  }

  /** A search that catches every exception: a crash counts as a miss. */
  function Tolerant<S>(probe: S -> Probe): S -> Probe {
    s => if probe(s) == Crash then Miss else probe(s)
  }

  /** The first `n` selectors all missed. */
  ghost predicate MissesBefore<S>(sels: seq<S>, probe: S -> Probe, n: nat)
    requires n <= |sels|
  {
    forall j :: 0 <= j < n ==> probe(sels[j]) == Miss
  }

  /** `r` is the outcome a first-match-wins search over `sels` must report. */
  ghost predicate Explains<S>(sels: seq<S>, probe: S -> Probe, r: Search) {
    match r
    case Found(i) => i < |sels| && probe(sels[i]) == Hit && MissesBefore(sels, probe, i)
    case Aborted(i) => i < |sels| && probe(sels[i]) == Crash && MissesBefore(sels, probe, i)
    case Exhausted(n) => n == |sels| && MissesBefore(sels, probe, n)
  }

  /** The search, started at selector `k` (the selectors before `k` missed). */
  function ResolveFrom<S>(sels: seq<S>, probe: S -> Probe, k: nat): (r: Search)
    requires k <= |sels| && MissesBefore(sels, probe, k)
    ensures Explains(sels, probe, r)
    ensures k <= Tried(r) <= |sels|
    decreases |sels| - k
  {
    if k == |sels| then Exhausted(k)
    else match probe(sels[k])
      case Hit => Found(k)
      case Crash => Aborted(k)
      case Miss => ResolveFrom(sels, probe, k + 1)
  }

  /** The whole search, from the first selector. */
  function Resolve<S>(sels: seq<S>, probe: S -> Probe): (r: Search)
    ensures Explains(sels, probe, r)
    ensures Tried(r) <= |sels|
  {
    ResolveFrom(sels, probe, 0)
  }

  /** The characterisation is complete: at most one outcome explains a search. */
  lemma ExplainsUnique<S>(sels: seq<S>, probe: S -> Probe, r1: Search, r2: Search)
    requires Explains(sels, probe, r1) && Explains(sels, probe, r2)
    ensures r1 == r2
  {
  }

  /**
   * Selectors after the deciding one are never consulted: two oracles that
   * agree on the selectors the search tried give the same outcome.
   */
  lemma ResolveIgnoresUntried<S>(sels: seq<S>, probe: S -> Probe, other: S -> Probe)
    requires forall j :: 0 <= j < Tried(Resolve(sels, probe)) ==> other(sels[j]) == probe(sels[j])
    ensures Resolve(sels, other) == Resolve(sels, probe)
  {
    var r := Resolve(sels, probe);
    assert Explains(sels, other, r);
    ExplainsUnique(sels, other, r, Resolve(sels, other));
  }

  /** A search that catches everything never aborts. */
  lemma TolerantNeverAborts<S>(sels: seq<S>, probe: S -> Probe)
    ensures !Resolve(sels, Tolerant(probe)).Aborted?
  {
  }

  /**
   * The search as the bots write it: a `for` loop over the selectors that
   * breaks at the first hit and lets an uncaught exception escape.
   */
  method ResolveLoop<S>(sels: seq<S>, probe: S -> Probe) returns (r: Search)
    ensures Explains(sels, probe, r)
  {
    var k := 0;
    while k < |sels|
      invariant k <= |sels|
      invariant MissesBefore(sels, probe, k)
    {
      var p := probe(sels[k]);
      if p == Hit {
        return Found(k);
      } else if p == Crash {
        return Aborted(k);
      }
      k := k + 1;
    }
    r := Exhausted(k);
  }
}
