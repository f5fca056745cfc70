/** src/nexabot/domain/agent/context.py: the token budget. */
module Context {
  import opened Common
  import opened Conversations
  import Text

  const CHARS_PER_TOKEN := 3
  const MESSAGE_TOKEN_OVERHEAD := 4

  /** Python's `//` floors, so negating before and after rounds up: the estimate is the least
      number of whole tokens that covers the text, plus the overhead. */
  function EstimateTokens(text: string): (tokens: nat)
    ensures CHARS_PER_TOKEN * (tokens - MESSAGE_TOKEN_OVERHEAD) >= |text|
    ensures CHARS_PER_TOKEN * (tokens - MESSAGE_TOKEN_OVERHEAD - 1) < |text|
    ensures tokens >= MESSAGE_TOKEN_OVERHEAD
  {
    // Dafny's division by a positive divisor floors too.
    -(-|text| / CHARS_PER_TOKEN) + MESSAGE_TOKEN_OVERHEAD
  }

  function Cost(ms: seq<Message>): (cost: nat) {
    if ms == [] then 0 else EstimateTokens(ms[0].content) + Cost(ms[1..])
  }

  /** The specification: drop the oldest message until the rest fits. */
  function LongestFit(ms: seq<Message>, budget: int): (fit: seq<Message>)
    ensures |fit| <= |ms| && fit == ms[|ms| - |fit|..]
  {
    if ms == [] || Cost(ms) <= budget then ms else LongestFit(ms[1..], budget)
  }

  /** `LongestFit` fits, and every strictly longer suffix does not. */
  lemma {:induction false} LongestFitIsLongest(ms: seq<Message>, budget: int)
    ensures Cost(LongestFit(ms, budget)) <= budget || LongestFit(ms, budget) == []
    ensures forall i :: 0 <= i < |ms| - |LongestFit(ms, budget)| ==> Cost(ms[i..]) > budget
  {
    if ms == [] || Cost(ms) <= budget {
    } else {
      LongestFitIsLongest(ms[1..], budget);
      forall i | 0 <= i < |ms| - |LongestFit(ms, budget)|
        ensures Cost(ms[i..]) > budget
      {
        if i > 0 {
          assert ms[i..] == ms[1..][i - 1..];
        }
      }
    }
  }

  lemma {:induction false} CostOfSuffix(ms: seq<Message>, i: nat)
    requires i <= |ms|
    ensures Cost(ms[i..]) <= Cost(ms)
  {
    if i > 0 {
      CostOfSuffix(ms[1..], i - 1);
      assert ms[i..] == ms[1..][i - 1..];
    }
  }

  /** The converse characterisation: a suffix that fits and cannot be extended by its
      neighbour is the longest fit, because costs only grow with length. */
  lemma {:induction false} MaximalSuffixIsLongestFit(ms: seq<Message>, budget: int, i: nat)
    requires i <= |ms|
    requires i < |ms| ==> Cost(ms[i..]) <= budget
    requires i > 0 ==> Cost(ms[i - 1..]) > budget
    ensures LongestFit(ms, budget) == ms[i..]
  {
    if i == 0 {
      assert ms[i..] == ms;
    } else {
      CostOfSuffix(ms, i - 1);
      var rest := ms[1..];
      assert rest[i - 1..] == ms[i..];
      assert i > 1 ==> rest[i - 2..] == ms[i - 1..];
      MaximalSuffixIsLongestFit(rest, budget, i - 1);
    }
  }

  /** The newest message is kept exactly when it fits alone, and then it comes last. */
  lemma NewestMessageSurvives(ms: seq<Message>, budget: int)
    requires ms != []
    ensures LongestFit(ms, budget) == [] <==> EstimateTokens(ms[|ms| - 1].content) > budget
    ensures LongestFit(ms, budget) != [] ==>
              LongestFit(ms, budget)[|LongestFit(ms, budget)| - 1] == ms[|ms| - 1]
  {
    var newest := ms[|ms| - 1..];
    assert newest == [ms[|ms| - 1]] && newest[1..] == [];
    assert Cost(newest) == EstimateTokens(ms[|ms| - 1].content);
    LongestFitIsLongest(ms, budget);
    var fit := LongestFit(ms, budget);
    if fit != [] {
      SuffixOfSuffix(ms, |ms| - |fit|, |fit| - 1);
      CostOfSuffix(fit, |fit| - 1);
    }
  }

  /** A larger budget keeps everything a smaller one kept. */
  lemma LargerBudgetExtends(ms: seq<Message>, small: int, large: int)
    requires small <= large
    ensures |LongestFit(ms, small)| <= |LongestFit(ms, large)|
    ensures LongestFit(ms, small) == Last(LongestFit(ms, large), |LongestFit(ms, small)|)
  {
    LongestFitIsLongest(ms, small);
    LongestFitIsLongest(ms, large);
    var a, b := |LongestFit(ms, small)|, |LongestFit(ms, large)|;
    assert a > b ==> Cost(ms[|ms| - a..]) > large;
  }

  function Reversed<T>(s: seq<T>): (r: seq<T>)
    ensures |r| == |s|
    ensures forall i :: 0 <= i < |s| ==> r[i] == s[|s| - 1 - i]
  {
    if s == [] then [] else Reversed(s[1..]) + [s[0]]
  }

  /** The greedy newest-first loop computes the longest suffix that fits. */
  method SelectWithinTokenBudget(messages: seq<Message>, budget: int) returns (selected: seq<Message>)
    ensures selected == LongestFit(messages, budget)
  {
    if budget <= 0 {
      NothingFits(messages, budget);
      return [];
    }
    var newestFirst: seq<Message> := [];
    var remaining := budget;
    var i := |messages|;
    while i > 0
      invariant 0 <= i <= |messages|
      invariant newestFirst == Reversed(messages[i..])
      invariant remaining == budget - Cost(messages[i..]) && remaining >= 0
    {
      var message := messages[i - 1];
      var cost := EstimateTokens(message.content);
      assert messages[i - 1..] == [message] + messages[i..];
      if cost > remaining {
        MaximalSuffixIsLongestFit(messages, budget, i);
        ReversedTwice(messages[i..]);
        return Reversed(newestFirst);
      }
      remaining := remaining - cost;
      newestFirst := newestFirst + [message];
      i := i - 1;
    }
    assert messages[0..] == messages;
    MaximalSuffixIsLongestFit(messages, budget, 0);
    ReversedTwice(messages);
    return Reversed(newestFirst);
  }

  lemma ReversedTwice<T>(s: seq<T>)
    ensures Reversed(Reversed(s)) == s
  {
  }

  lemma {:induction false} NothingFits(ms: seq<Message>, budget: int)
    requires budget <= 0
    ensures LongestFit(ms, budget) == []
  {
    if ms != [] {
      NothingFits(ms[1..], budget);
    }
  }

  ghost predicate AllPosted(ms: seq<Message>) {
    forall m :: m in ms ==> !Text.Blank(m.content)
  }

  /** A legal message costs at least five tokens. */
  lemma {:induction false} CostAtLeastFivePerMessage(ms: seq<Message>)
    requires AllPosted(ms)
    ensures Cost(ms) >= 5 * |ms|
  {
    if ms != [] {
      assert ms[0] in ms && ms[0].content != "";
      CostAtLeastFivePerMessage(ms[1..]);
    }
  }

  /** When `window` is at least a fifth of the budget, budgeting only the newest `window`
      messages gives the longest suffix of the entire history that fits. */
  lemma WindowIsLossless(full: seq<Message>, window: nat, budget: int)
    requires AllPosted(full)
    requires window >= budget / 5
    ensures LongestFit(Last(full, window), budget) == LongestFit(full, budget)
  {
    LongestFitIsLongest(full, budget);
    var fit := LongestFit(full, budget);
    if fit != [] {
      CostAtLeastFivePerMessage(fit);
    }
    assert |fit| <= window;
    FitWithinWindow(full, window, budget);
  }

  /** Budgeting a window gives the newest part of the full answer, and all of it when the window
      is at least a fifth of the budget. */
  lemma FitOfWindowOrAll(full: seq<Message>, window: nat, budget: int)
    requires AllPosted(full)
    ensures LongestFit(Last(full, window), budget) == Last(LongestFit(full, budget), window)
    ensures window >= budget / 5 ==> Last(LongestFit(full, budget), window) == LongestFit(full, budget)
  {
    FitOfWindow(full, window, budget);
    if window >= budget / 5 {
      WindowIsLossless(full, window, budget);
    }
  }

  /** Budgeting a window gives the newest part of the full answer ... */
  lemma FitOfWindow(full: seq<Message>, window: nat, budget: int)
    ensures LongestFit(Last(full, window), budget) == Last(LongestFit(full, budget), window)
  {
    if |LongestFit(full, budget)| <= window {
      ShortFitOfWindow(full, window, budget);
    } else {
      LongFitOfWindow(full, window, budget);
    }
  }

  lemma LastOfSuffix<T>(s: seq<T>, i: nat, n: nat)
    requires i + n <= |s|
    ensures Last(s, n) == Last(s[i..], n)
  {
  }

  lemma LastFits(ms: seq<Message>, n: nat, budget: int)
    requires Cost(ms) <= budget
    ensures LongestFit(Last(ms, n), budget) == Last(ms, n)
  {
    if n < |ms| {
      CostOfSuffix(ms, |ms| - n);
    }
  }

  lemma LongFitOfWindow(full: seq<Message>, window: nat, budget: int)
    requires window < |LongestFit(full, budget)|
    ensures Last(full, window) == Last(LongestFit(full, budget), window)
    ensures LongestFit(Last(full, window), budget) == Last(full, window)
  {
    var fit := LongestFit(full, budget);
    assert Cost(fit) <= budget by {
      LongestFitIsLongest(full, budget);
    }
    LastOfSuffix(full, |full| - |fit|, window);
    LastFits(fit, window, budget);
  }

  lemma SuffixOfSuffix<T>(s: seq<T>, i: nat, j: nat)
    requires i + j <= |s|
    ensures s[i..][j..] == s[i + j..]
  {
  }

  lemma ShortFitOfWindow(full: seq<Message>, window: nat, budget: int)
    requires |LongestFit(full, budget)| <= window
    ensures LongestFit(Last(full, window), budget) == LongestFit(full, budget)
  {
    LongestFitIsLongest(full, budget);
    var length := |LongestFit(full, budget)|;
    var page := Last(full, window);
    var start := |page| - length;
    assert page[start..] == full[|full| - length..];
    assert start > 0 ==> page[start - 1..] == full[|full| - length - 1..];
    MaximalSuffixIsLongestFit(page, budget, start);
  }

  /** ... so it is the full answer exactly when that is no longer than the window. */
  lemma FitWithinWindow(full: seq<Message>, window: nat, budget: int)
    ensures LongestFit(Last(full, window), budget) == LongestFit(full, budget)
      <==> |LongestFit(full, budget)| <= window
  {
    FitOfWindow(full, window, budget);
  }

  function Letters(n: nat): (ms: seq<Message>)
    ensures |ms| == n
    ensures AllPosted(ms)
    ensures Cost(ms) == 5 * n
  {
    if n == 0 then []
    else
      assert Text.StripLeft("a") == "a";
      [Message(n, 0, User, "a", n)] + Letters(n - 1)
  }

  /** The bound is tight: any smaller window loses something of some legal history. */
  lemma SmallerWindowLoses(window: nat, budget: int)
    requires window < budget / 5
    ensures exists full :: AllPosted(full) && LongestFit(Last(full, window), budget) != LongestFit(full, budget)
  {
    var full := Letters(window + 1);
    assert LongestFit(full, budget) == full;
    FitWithinWindow(full, window, budget);
  }
}
