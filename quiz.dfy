/**
 * The pure part of the quiz engine: how a question's four choices are built
 * from the random draws, and how answers add up to a score.
 *
 * A question asks for `table × multiplier`.  Its choices are that product and
 * three decoys `table × k`, each with its own independently drawn `k`, in a
 * shuffled order.  Nothing keeps the four choices distinct: a decoy may equal
 * another decoy or the correct product.
 *
 * The random number generator is not modelled: what it produces is passed in
 * as a `Draw`, whose ranges are stated by `DrawFits`.
 */
module Quiz {

  /** The value of `table × k`. */
  function Product(table: int, k: int): int {
    table * k
  }

  /** `v` is `table × k` for some multiplier `k` in `[2, maxMult]`. */
  ghost predicate InTable(v: int, table: int, maxMult: int) {
    exists k :: 2 <= k <= maxMult && v == Product(table, k)
  }

  /** `order` lists each of the indices `0 .. n-1` exactly once. */
  predicate IsPermutation(order: seq<nat>, n: nat) {
    && |order| == n
    && (forall i :: 0 <= i < n ==> order[i] < n)
    && (forall i, j :: 0 <= i < j < n ==> order[i] != order[j])
  }

  /** `s` rearranged so that position `i` holds `s[order[i]]`. */
  function Shuffle(s: seq<int>, order: seq<nat>): (r: seq<int>)
    requires IsPermutation(order, |s|)
    ensures |r| == |s|
  {
    seq(|s|, i requires 0 <= i < |s| => s[order[i]])
  }

  /** Shuffling by a permutation of the indices loses and invents no element. */
  lemma {:induction false} ShufflePermutes(s: seq<int>, order: seq<nat>)
    requires IsPermutation(order, |s|)
    ensures multiset(Shuffle(s, order)) == multiset(s)
    decreases |s|
  {
    if |s| > 0 {
      var n := |s|;
      var k := order[0];
      var rest := s[..k] + s[k + 1..];
      // the remaining indices, renumbered for `rest`
      var order': seq<nat> := seq(n - 1, i requires 0 <= i < n - 1 =>
        if order[i + 1] < k then order[i + 1] else order[i + 1] - 1);
      forall i, j | 0 <= i < j < n - 1
        ensures order'[i] != order'[j]
      {
        assert order[i + 1] != order[j + 1] && order[i + 1] != k && order[j + 1] != k;
      }
      assert IsPermutation(order', |rest|);
      ShufflePermutes(rest, order');
      assert Shuffle(s, order) == [s[k]] + Shuffle(rest, order');
      assert s == s[..k] + [s[k]] + s[k + 1..];
    }
  }

  /**
   * What the random number generator supplies for one question: the
   * multiplier asked about, the multipliers of the three decoys, and the order
   * in which the four products are shown.
   */
  datatype Draw = Draw(multiplier: int, decoy1: int, decoy2: int, decoy3: int, order: seq<nat>)

  /** Every multiplier lies in `[2, maxMult]` and the order is a permutation of four indices. */
  predicate DrawFits(d: Draw, maxMult: int) {
    && 2 <= d.multiplier <= maxMult
    && 2 <= d.decoy1 <= maxMult
    && 2 <= d.decoy2 <= maxMult
    && 2 <= d.decoy3 <= maxMult
    && IsPermutation(d.order, 4)
  }

  /** The four products before shuffling, the correct one first. */
  function Candidates(table: int, d: Draw): seq<int> {
    [Product(table, d.multiplier), Product(table, d.decoy1), Product(table, d.decoy2), Product(table, d.decoy3)]
  }

  /** The choices shown for a question. */
  function Choices(table: int, d: Draw): (r: seq<int>)
    requires IsPermutation(d.order, 4)
    ensures |r| == 4
    ensures multiset(r) == multiset(Candidates(table, d))
    ensures Product(table, d.multiplier) in r
  {
    ShufflePermutes(Candidates(table, d), d.order);
    assert Product(table, d.multiplier) in multiset(Candidates(table, d));
    Shuffle(Candidates(table, d), d.order)
  }

  /**
   * The choices are the four candidate products in some order, so the
   * correct product is among them, and each choice is a product of the table
   * with a multiplier in range.  Duplicates are allowed.
   */
  lemma ChoicesHoldAnswer(table: int, maxMult: int, d: Draw)
    requires DrawFits(d, maxMult)
    ensures |Choices(table, d)| == 4
    ensures multiset(Choices(table, d)) == multiset(Candidates(table, d))
    ensures Product(table, d.multiplier) in Choices(table, d)
    ensures forall v :: v in Choices(table, d) ==> InTable(v, table, maxMult)
  {
    var c := Candidates(table, d);
    ShufflePermutes(c, d.order);
    forall v | v in Choices(table, d)
      ensures InTable(v, table, maxMult)
    {
      assert v in multiset(c);
      assert v in c;
      if v == c[0] {
        assert Product(table, d.multiplier) == v;
      } else if v == c[1] {
        assert Product(table, d.decoy1) == v;
      } else if v == c[2] {
        assert Product(table, d.decoy2) == v;
      } else {
        assert Product(table, d.decoy3) == v;
      }
    }
    assert c[0] in multiset(c);
  }

  /** The running tally of a game: questions answered, correct answers, game over. */
  datatype Tally = Tally(asked: nat, score: nat, over: bool)

  /** The tally after one more answer, `correct` telling whether it was right. */
  function Record(t: Tally, correct: bool, numQuestions: int): (r: Tally)
    ensures r.asked == t.asked + 1
    ensures t.score <= r.score <= t.score + 1
    ensures r.score == t.score + 1 <==> correct
    ensures t.score <= t.asked ==> r.score <= r.asked
    ensures r.over <==> t.over || r.asked == numQuestions
  {
    var asked := t.asked + 1;
    Tally(asked, if correct then t.score + 1 else t.score, if asked == numQuestions then true else t.over)
  }

  /** The tally after answering, from a fresh game, with the given outcomes in order. */
  function Play(outcomes: seq<bool>, numQuestions: int): (r: Tally)
    ensures r.asked == |outcomes|
    ensures r.score <= r.asked
  {
    if outcomes == [] then Tally(0, 0, false)
    else Record(Play(outcomes[..|outcomes| - 1], numQuestions), outcomes[|outcomes| - 1], numQuestions)
  }

  /** How many of the outcomes are correct answers. */
  function CountCorrect(outcomes: seq<bool>): (r: nat)
    ensures r <= |outcomes|
    ensures r == |outcomes| <==> forall i :: 0 <= i < |outcomes| ==> outcomes[i]
    ensures r == 0 <==> forall i :: 0 <= i < |outcomes| ==> !outcomes[i]
  {
    if outcomes == [] then 0
    else CountCorrect(outcomes[..|outcomes| - 1]) + (if outcomes[|outcomes| - 1] then 1 else 0)
  }

  /**
   * From a fresh game, every answer counts one question, the score counts the
   * correct ones (so it never exceeds the questions asked), and the game is
   * over exactly when `numQuestions` answers have been given.
   */
  lemma {:induction false} PlayCounts(outcomes: seq<bool>, numQuestions: int)
    requires 0 < numQuestions
    requires |outcomes| <= numQuestions
    ensures Play(outcomes, numQuestions) == Tally(|outcomes|, CountCorrect(outcomes), |outcomes| == numQuestions)
    ensures Play(outcomes, numQuestions).score <= Play(outcomes, numQuestions).asked
  {
    if outcomes != [] {
      PlayCounts(outcomes[..|outcomes| - 1], numQuestions);
    }
  }
}
