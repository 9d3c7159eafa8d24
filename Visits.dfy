/**
 * The visiting protocol shared by the hint traversals: a functor answers
 * Continue or Halt on each call, and a traversal reports Empty (nothing was
 * visited), All (every candidate was visited) or Some (the functor halted).
 *
 * A functor is modelled by the answers it gives, in call order: its k-th call
 * answers Answer(answers, k). Which entries get visited is given as a sequence
 * of calls, one per entry, Some(arguments) for an entry the traversal hands to
 * the functor and None for an entry it skips.
 */
module Visits {
  import Common

  /** What a functor answers. */
  datatype Visit = Continue | Halt

  /** How a traversal ended. */
  datatype Visited = Empty | All | Some

  /** The functor's answer on its k-th call (counting from 0); unrecorded calls continue. */
  function Answer(answers: seq<Visit>, k: nat): Visit
  {
    if k < |answers| then answers[k] else Continue
  }

  /** The answers left after the first call. */
  function Rest(answers: seq<Visit>): (r: seq<Visit>)
    ensures forall k: nat :: Answer(r, k) == Answer(answers, k + 1)
  {
    if answers == [] then [] else answers[1..]
  }

  /** The arguments of the entries that are handed to the functor, in entry order. */
  function Matches<A>(calls: seq<Common.Option<A>>): (m: seq<A>)
    ensures |m| <= |calls|
  {
    if calls == [] then []
    else (if calls[0].Some? then [calls[0].value] else []) + Matches(calls[1..])
  }

  /** The index of the first Halt among the first n answers, or n when there is none. */
  function FirstHalt(answers: seq<Visit>, n: nat): (k: nat)
    ensures k <= n
    ensures forall j :: 0 <= j < k ==> Answer(answers, j) == Continue
    ensures k < n ==> Answer(answers, k) == Halt
  {
    if n == 0 then 0
    else if Answer(answers, 0) == Halt then 0
    else
      var k := FirstHalt(Rest(answers), n - 1);
      assert forall j :: 0 < j <= k ==> Answer(answers, j) == Answer(Rest(answers), j - 1);
      1 + k
  }

  /**
   * The index loop with its didVisit flag and early return: the result and the
   * arguments the functor was called with, in call order.
   */
  function VisitEach<A>(calls: seq<Common.Option<A>>, answers: seq<Visit>): (r: (Visited, seq<A>))
  {
    if calls == [] then (Empty, [])
    else if calls[0].None? then VisitEach(calls[1..], answers)
    else if Answer(answers, 0) == Halt then (Some, [calls[0].value])
    else
      var rest := VisitEach(calls[1..], Rest(answers));
      (if rest.0 == Empty then All else rest.0, [calls[0].value] + rest.1)
  }

  /**
   * The traversal calls the functor on the matching entries in order, up to and
   * including the first that halts; it reports Some when one halted, otherwise
   * All when any entry matched and Empty when none did.
   */
  lemma {:induction false} VisitEachMeaning<A>(calls: seq<Common.Option<A>>, answers: seq<Visit>)
    ensures var m := Matches(calls);
            var k := FirstHalt(answers, |m|);
            var r := VisitEach(calls, answers);
            && r.0 == (if m == [] then Empty else if k < |m| then Some else All)
            && r.1 == (if k < |m| then m[..k + 1] else m)
  {
    if calls == [] {
    } else if calls[0].None? {
      VisitEachMeaning(calls[1..], answers);
      assert Matches(calls) == Matches(calls[1..]);
    } else {
      var m := Matches(calls);
      assert m == [calls[0].value] + Matches(calls[1..]);
      if Answer(answers, 0) != Halt {
        VisitEachMeaning(calls[1..], Rest(answers));
        var m' := Matches(calls[1..]);
        assert FirstHalt(answers, |m|) == 1 + FirstHalt(Rest(answers), |m'|);
        if FirstHalt(Rest(answers), |m'|) < |m'| {
          assert m[..FirstHalt(answers, |m|) + 1]
              == [calls[0].value] + m'[..FirstHalt(Rest(answers), |m'|) + 1];
        }
      }
    }
  }

  /** The three results, each characterised by the matching entries and the answers. */
  lemma VisitedCases<A>(calls: seq<Common.Option<A>>, answers: seq<Visit>)
    ensures var m := Matches(calls);
            var r := VisitEach(calls, answers);
            && (r.0 == Empty <==> m == [])
            && (r.0 == Some <==> exists j :: 0 <= j < |m| && Answer(answers, j) == Halt)
            && (r.0 == All <==> m != [] && forall j :: 0 <= j < |m| ==> Answer(answers, j) == Continue)
            && (r.0 != Some ==> r.1 == m)
            && (r.0 == Some ==> 0 < |r.1| <= |m| && r.1 == m[..|r.1|] && Answer(answers, |r.1| - 1) == Halt)
  {
    VisitEachMeaning(calls, answers);
    var m := Matches(calls);
    var k := FirstHalt(answers, |m|);
    if exists j :: 0 <= j < |m| && Answer(answers, j) == Halt {
      var j :| 0 <= j < |m| && Answer(answers, j) == Halt;
      assert k <= j;
    }
  }
}
