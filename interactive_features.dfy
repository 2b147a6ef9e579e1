/**
 * The poll and quiz cards: vote totals and percentage shares, and the two
 * once-only latches (a poll takes one vote; a quiz takes one answer and then
 * shows which option was right).
 */
module Interactive {
  import opened Wrappers

  datatype Poll = Poll(id: int, question: string, options: seq<string>, votes: seq<int>, totalVotes: int)

  datatype Quiz = Quiz(id: int, question: string, options: seq<string>, correctAnswer: int, participants: int, correctGuesses: int)

  const SeedPolls: seq<Poll> := [
    Poll(1, "What's your favorite season?", ["Spring", "Summer", "Fall", "Winter"], [45, 120, 89, 34], 288),
    Poll(2, "Best travel destination?", ["Beach", "Mountains", "City", "Countryside"], [156, 78, 234, 45], 513)
  ]

  const SeedQuizzes: seq<Quiz> := [
    Quiz(1, "Guess my favorite color", ["Blue", "Green", "Red", "Purple"], 0, 89, 23),
    Quiz(2, "What year was this photo taken?", ["2020", "2021", "2022", "2023"], 2, 156, 78)
  ]

  /** `votes.reduce((sum, v) => sum + v, 0)`: a left fold, so the last element is added last. */
  function Sum(votes: seq<int>): int {
    if votes == [] then 0 else Sum(votes[..|votes| - 1]) + votes[|votes| - 1]
  }

  /** Adding one more count at the end adds it to the total. */
  lemma SumAppend(votes: seq<int>, v: int)
    ensures Sum(votes + [v]) == Sum(votes) + v
  {
    assert (votes + [v])[..|votes|] == votes;
  }

  /** The stored totals of both seed polls are the sums of their counts. */
  lemma SeedTotalsAreSums()
    ensures forall k :: 0 <= k < |SeedPolls| ==> Sum(SeedPolls[k].votes) == SeedPolls[k].totalVotes
  {
    assert [45, 120, 89, 34] == [45, 120, 89] + [34];
    assert [45, 120, 89] == [45, 120] + [89];
    assert [45, 120] == [45] + [120];
    assert [45] == [] + [45];
    SumAppend([], 45);
    SumAppend([45], 120);
    SumAppend([45, 120], 89);
    SumAppend([45, 120, 89], 34);
    assert [156, 78, 234, 45] == [156, 78, 234] + [45];
    assert [156, 78, 234] == [156, 78] + [234];
    assert [156, 78] == [156] + [78];
    assert [156] == [] + [156];
    SumAppend([], 156);
    SumAppend([156], 78);
    SumAppend([156, 78], 234);
    SumAppend([156, 78, 234], 45);
  }

  /** The share of option `i`, in percent: 0 unless the computed total is positive. */
  function Percentage(votes: seq<int>, i: int): (p: real)
    requires 0 <= i < |votes|
    ensures Sum(votes) <= 0 ==> p == 0.0
    ensures Sum(votes) > 0 ==> p * (Sum(votes) as real) == (votes[i] as real) * 100.0
  {
    var total := Sum(votes);
    if total > 0 then (votes[i] as real / total as real) * 100.0 else 0.0
  }

  /** The shares of the first `k` options. */
  function SharesUpTo(votes: seq<int>, k: nat): real
    requires k <= |votes|
  {
    if k == 0 then 0.0 else SharesUpTo(votes, k - 1) + Percentage(votes, k - 1)
  }

  lemma {:induction false} SharesUpToIsPrefixShare(votes: seq<int>, k: nat)
    requires k <= |votes| && Sum(votes) > 0
    ensures SharesUpTo(votes, k) == (Sum(votes[..k]) as real / Sum(votes) as real) * 100.0
  {
    var t := Sum(votes) as real;
    if k > 0 {
      SharesUpToIsPrefixShare(votes, k - 1);
      assert votes[..k] == votes[..k - 1] + [votes[k - 1]];
      SumAppend(votes[..k - 1], votes[k - 1]);
      var a := Sum(votes[..k - 1]) as real;
      var b := votes[k - 1] as real;
      assert (a / t) * 100.0 + (b / t) * 100.0 == ((a + b) / t) * 100.0;
    }
  }

  /** With a positive total, the shares of all options add up to exactly 100 percent. */
  lemma SharesSumTo100(votes: seq<int>)
    requires Sum(votes) > 0
    ensures SharesUpTo(votes, |votes|) == 100.0
  {
    SharesUpToIsPrefixShare(votes, |votes|);
    assert votes[..|votes|] == votes;
    var t := Sum(votes) as real;
    assert t / t == 1.0;
  }

  predicate NonNegative(votes: seq<int>) {
    forall i :: 0 <= i < |votes| ==> votes[i] >= 0
  }

  lemma {:induction false} CountAtMostSum(votes: seq<int>, i: int)
    requires NonNegative(votes) && 0 <= i < |votes|
    ensures 0 <= votes[i] <= Sum(votes)
    decreases |votes|
  {
    var init := votes[..|votes| - 1];
    SumOfNonNegative(init);
    if i < |votes| - 1 {
      assert init[i] == votes[i];
      CountAtMostSum(init, i);
    }
  }

  lemma {:induction false} SumOfNonNegative(votes: seq<int>)
    requires NonNegative(votes)
    ensures Sum(votes) >= 0
    decreases |votes|
  {
    if votes != [] {
      SumOfNonNegative(votes[..|votes| - 1]);
    }
  }

  /** With non-negative counts every share lies between 0 and 100 percent. */
  lemma PercentageBounds(votes: seq<int>, i: int)
    requires NonNegative(votes) && 0 <= i < |votes|
    ensures 0.0 <= Percentage(votes, i) <= 100.0
  {
    CountAtMostSum(votes, i);
    var t := Sum(votes);
    if t > 0 {
      var v := votes[i] as real;
      assert v / t as real <= 1.0;
    }
  }

  /** The poll card's two state cells. */
  datatype PollState = PollState(selectedOption: Option<int>, hasVoted: bool)

  const PollStart := PollState(None, false)

  /** `handleVote`: the first vote is recorded, any later one is ignored. */
  function Vote(s: PollState, option: int): (r: PollState)
    ensures r.hasVoted
    ensures s.hasVoted ==> r == s
    ensures !s.hasVoted ==> r.selectedOption == Some(option)
  {
    if !s.hasVoted then PollState(Some(option), true) else s
  }

  /** A sequence of taps, applied in order. */
  function Taps(s: PollState, options: seq<int>): PollState
    decreases |options|
  {
    if options == [] then s else Taps(Vote(s, options[0]), options[1..])
  }

  lemma {:induction false} VotedStaysPut(s: PollState, options: seq<int>)
    requires s.hasVoted
    ensures Taps(s, options) == s
    decreases |options|
  {
    if options != [] {
      VotedStaysPut(Vote(s, options[0]), options[1..]);
    }
  }

  /** However many taps follow, only the first one counts and the poll stays voted. */
  lemma {:induction false} FirstTapWins(options: seq<int>)
    requires options != []
    ensures Taps(PollStart, options) == PollState(Some(options[0]), true)
  {
    VotedStaysPut(Vote(PollStart, options[0]), options[1..]);
  }

  class PollCard {
    const poll: Poll
    var selectedOption: Option<int>
    var hasVoted: bool

    constructor (p: Poll)
      ensures poll == p && State() == PollStart
    {
      poll, selectedOption, hasVoted := p, None, false;
    }

    function State(): PollState
      reads this
    {
      PollState(selectedOption, hasVoted)
    }

    /** The options are disabled once a vote is in. */
    predicate Disabled()
      reads this
    {
      hasVoted
    }

    method HandleVote(optionIndex: int)
      modifies this
      ensures State() == Vote(old(State()), optionIndex)
      ensures Disabled()
    {
      if !hasVoted {
        selectedOption := Some(optionIndex);
        hasVoted := true;
      }
    }
  }

  /** The quiz card's two state cells. */
  datatype QuizState = QuizState(selectedAnswer: Option<int>, showResults: bool)

  const QuizStart := QuizState(None, false)

  /** `handleAnswer`: it has no guard of its own. */
  function Answer(s: QuizState, option: int): (r: QuizState)
    ensures r.selectedAnswer == Some(option) && r.showResults
  {
    QuizState(Some(option), true)
  }

  /** A tap on an option: the options are disabled while the results show. */
  function Press(s: QuizState, option: int): (r: QuizState)
    ensures s.showResults ==> r == s
    ensures !s.showResults ==> r == Answer(s, option)
  {
    if s.showResults then s else Answer(s, option)
  }

  /** How one option is drawn. */
  datatype OptionMarks = OptionMarks(selected: bool, correct: bool, wrong: bool)

  function Marks(s: QuizState, quiz: Quiz, index: int): (m: OptionMarks)
    ensures m.correct ==> !m.wrong
    ensures m.wrong ==> m.selected
  {
    OptionMarks(
      s.selectedAnswer == Some(index),
      s.showResults && index == quiz.correctAnswer,
      s.showResults && s.selectedAnswer == Some(index) && index != quiz.correctAnswer)
  }

  /**
   * After an answer, exactly the correct option is marked correct, exactly the
   * chosen option is selected, and it is marked wrong exactly when it is not
   * the correct one.
   */
  lemma AnswerIsJudged(s: QuizState, quiz: Quiz, chosen: int, index: int)
    ensures var m := Marks(Answer(s, chosen), quiz, index);
      && (m.correct <==> index == quiz.correctAnswer)
      && (m.selected <==> index == chosen)
      && (m.wrong <==> index == chosen && chosen != quiz.correctAnswer)
  {
  }

  /** Before an answer nothing is marked correct or wrong. */
  lemma NothingMarkedBeforeAnswer(quiz: Quiz, index: int)
    ensures var m := Marks(QuizStart, quiz, index); !m.selected && !m.correct && !m.wrong
  {
  }

  /** Once the results show, further presses change nothing, so the first answer stands. */
  lemma {:induction false} FirstAnswerStands(first: int, later: seq<int>)
    ensures PressAll(Press(QuizStart, first), later) == QuizState(Some(first), true)
    decreases |later|
  {
    if later != [] {
      assert Press(Press(QuizStart, first), later[0]) == Press(QuizStart, first);
      FirstAnswerStands(first, later[1..]);
    }
  }

  function PressAll(s: QuizState, options: seq<int>): QuizState
    decreases |options|
  {
    if options == [] then s else PressAll(Press(s, options[0]), options[1..])
  }

  class QuizCard {
    const quiz: Quiz
    var selectedAnswer: Option<int>
    var showResults: bool

    constructor (q: Quiz)
      ensures quiz == q && State() == QuizStart
    {
      quiz, selectedAnswer, showResults := q, None, false;
    }

    function State(): QuizState
      reads this
    {
      QuizState(selectedAnswer, showResults)
    }

    predicate Disabled()
      reads this
    {
      showResults
    }

    method HandleAnswer(optionIndex: int)
      modifies this
      ensures State() == Answer(old(State()), optionIndex)
      ensures Disabled()
    {
      selectedAnswer := Some(optionIndex);
      showResults := true;
    }
  }
}
