/** The `(created_at, id)` order of stored messages, and the newest-page query over it
    (src/nexabot/infrastructure/database/repositories/conversations.py, `_load_messages`). */
module MessageOrder {
  import opened Common
  import opened Conversations
  import opened Context

  ghost predicate UniqueIds(rows: seq<Message>) {
    forall i, j :: 0 <= i < j < |rows| ==> rows[i].id != rows[j].id
  }

  predicate Before(a: Message, b: Message) {
    a.createdAt < b.createdAt || (a.createdAt == b.createdAt && a.id < b.id)
  }

  /** `ORDER BY created_at, id`, with both columns descending when `desc`. */
  predicate Precedes(desc: bool, a: Message, b: Message) {
    if desc then Before(b, a) else Before(a, b)
  }

  ghost predicate Sorted(desc: bool, s: seq<Message>) {
    forall i, j :: 0 <= i < j < |s| ==> Precedes(desc, s[i], s[j])
  }

  function Insert(desc: bool, x: Message, s: seq<Message>): (r: seq<Message>)
    ensures multiset(r) == multiset(s) + multiset{x}
  {
    if s == [] || Precedes(desc, x, s[0]) then [x] + s
    else
      assert s == [s[0]] + s[1..];
      [s[0]] + Insert(desc, x, s[1..])
  }

  function OrderBy(desc: bool, rows: seq<Message>): (r: seq<Message>)
    ensures multiset(r) == multiset(rows)
    ensures |r| == |rows|
  {
    if rows == [] then []
    else
      assert rows == [rows[0]] + rows[1..];
      var r := Insert(desc, rows[0], OrderBy(desc, rows[1..]));
      assert |multiset(r)| == |multiset(rows)|;
      r
  }

  /** `WHERE conversation_id = conversation`. */
  function Of(rows: seq<Message>, conversation: Id): (r: seq<Message>)
    ensures forall m :: m in r <==> m in rows && m.conversation == conversation
  {
    if rows == [] then [] else
    var last := rows[|rows| - 1];
    Of(rows[..|rows| - 1], conversation) + (if last.conversation == conversation then [last] else [])
  }

  /** A conversation's true history: all of its rows, oldest first. */
  function History(rows: seq<Message>, conversation: Id): seq<Message> {
    OrderBy(false, Of(rows, conversation))
  }

  /** The query `_load_messages` runs: newest rows first, `LIMIT limit`, then reversed. */
  function LoadMessages(rows: seq<Message>, conversation: Id, limit: nat): seq<Message> {
    var newestFirst := OrderBy(true, Of(rows, conversation));
    Reversed(if limit < |newestFirst| then newestFirst[..limit] else newestFirst)
  }

  lemma {:induction false} InsertSorts(desc: bool, x: Message, s: seq<Message>)
    requires Sorted(desc, s)
    requires forall m :: m in s ==> m.id != x.id
    ensures Sorted(desc, Insert(desc, x, s))
  {
    if s == [] || Precedes(desc, x, s[0]) {
    } else {
      InsertSorts(desc, x, s[1..]);
      var tail := Insert(desc, x, s[1..]);
      forall m | m in tail
        ensures Precedes(desc, s[0], m)
      {
        assert m in multiset(tail);
      }
    }
  }

  lemma {:induction false} OrderBySorts(desc: bool, rows: seq<Message>)
    requires UniqueIds(rows)
    ensures Sorted(desc, OrderBy(desc, rows))
  {
    if rows != [] {
      var rest := OrderBy(desc, rows[1..]);
      OrderBySorts(desc, rows[1..]);
      forall m | m in rest
        ensures m.id != rows[0].id
      {
        assert m in multiset(rest);
      }
      InsertSorts(desc, rows[0], rest);
    }
  }

  lemma HeadComesFirst(desc: bool, s: seq<Message>, m: Message)
    requires Sorted(desc, s) && m in s
    ensures m == s[0] || Precedes(desc, s[0], m)
  {
  }

  lemma SortedHeadsAgree(desc: bool, a: seq<Message>, b: seq<Message>)
    requires Sorted(desc, a) && Sorted(desc, b) && multiset(a) == multiset(b) && a != []
    ensures b != [] && a[0] == b[0]
  {
    assert a[0] in multiset(b);
    HeadComesFirst(desc, b, a[0]);
    assert b[0] in multiset(a);
    HeadComesFirst(desc, a, b[0]);
  }

  lemma TailMultiset<T>(s: seq<T>)
    requires s != []
    ensures multiset(s[1..]) == multiset(s) - multiset{s[0]}
  {
    assert s == [s[0]] + s[1..];
  }

  /** A strict order has at most one sorted arrangement of the same rows. */
  lemma {:induction false} SortedIsUnique(desc: bool, a: seq<Message>, b: seq<Message>)
    requires Sorted(desc, a) && Sorted(desc, b) && multiset(a) == multiset(b)
    ensures a == b
  {
    if a == [] {
      assert |multiset(b)| == |multiset(a)|;
    } else {
      SortedHeadsAgree(desc, a, b);
      TailMultiset(a);
      TailMultiset(b);
      SortedIsUnique(desc, a[1..], b[1..]);
      assert a == [a[0]] + a[1..] && b == [b[0]] + b[1..];
    }
  }

  lemma {:induction false} ReversedMultiset<T>(s: seq<T>)
    ensures multiset(Reversed(s)) == multiset(s)
  {
    if s != [] {
      ReversedMultiset(s[1..]);
      assert s == [s[0]] + s[1..];
    }
  }

  lemma {:induction false} OfKeepsUniqueIds(rows: seq<Message>, conversation: Id)
    requires UniqueIds(rows)
    ensures UniqueIds(Of(rows, conversation))
  {
    if rows != [] {
      var front := rows[..|rows| - 1];
      OfKeepsUniqueIds(front, conversation);
      var kept := Of(front, conversation);
      forall i | 0 <= i < |kept|
        ensures kept[i].id != rows[|rows| - 1].id
      {
        assert kept[i] in front;
      }
    }
  }

  lemma ReversedDescendingIsAscending(mine: seq<Message>)
    requires UniqueIds(mine)
    ensures Reversed(OrderBy(true, mine)) == OrderBy(false, mine)
  {
    OrderBySorts(true, mine);
    OrderBySorts(false, mine);
    ReversedMultiset(OrderBy(true, mine));
    SortedIsUnique(false, Reversed(OrderBy(true, mine)), OrderBy(false, mine));
  }

  lemma {:induction false} ReversedPrefixIsSuffix<T>(s: seq<T>, n: nat)
    requires n <= |s|
    ensures Reversed(s[..n]) == Reversed(s)[|s| - n..]
  {
  }

  /** Descending order, limit, and reversal load exactly the newest `limit` messages of the
      history, oldest first. */
  lemma LoadIsNewestPage(rows: seq<Message>, conversation: Id, limit: nat)
    requires UniqueIds(rows)
    ensures LoadMessages(rows, conversation, limit) == Last(History(rows, conversation), limit)
  {
    var mine := Of(rows, conversation);
    OfKeepsUniqueIds(rows, conversation);
    ReversedDescendingIsAscending(mine);
    if limit < |mine| {
      ReversedPrefixIsSuffix(OrderBy(true, mine), limit);
    }
  }

  /** The history does not depend on the order in which the backend stores rows. */
  lemma StorageOrderIsIrrelevant(rows: seq<Message>, stored: seq<Message>, conversation: Id)
    requires UniqueIds(rows) && UniqueIds(stored)
    requires multiset(rows) == multiset(stored)
    ensures History(rows, conversation) == History(stored, conversation)
  {
    OfMultiset(rows, conversation);
    OfMultiset(stored, conversation);
    var a, b := Of(rows, conversation), Of(stored, conversation);
    assert multiset(a) == multiset(b);
    OfKeepsUniqueIds(rows, conversation);
    OfKeepsUniqueIds(stored, conversation);
    OrderBySorts(false, a);
    OrderBySorts(false, b);
    SortedIsUnique(false, OrderBy(false, a), OrderBy(false, b));
  }

  lemma {:induction false} OfMultiset(rows: seq<Message>, conversation: Id)
    ensures forall m :: multiset(Of(rows, conversation))[m]
                     == if m.conversation == conversation then multiset(rows)[m] else 0
  {
    if rows != [] {
      OfMultiset(rows[..|rows| - 1], conversation);
      assert rows == rows[..|rows| - 1] + [rows[|rows| - 1]];
    }
  }

  lemma OfAppend(rows: seq<Message>, m: Message, conversation: Id)
    ensures Of(rows + [m], conversation)
         == Of(rows, conversation) + (if m.conversation == conversation then [m] else [])
  {
    assert (rows + [m])[..|rows|] == rows;
  }

  lemma UniqueIdsOfPrefix(rows: seq<Message>, m: Message)
    requires UniqueIds(rows + [m])
    ensures UniqueIds(rows)
  {
    assert forall i :: 0 <= i < |rows| ==> rows[i] == (rows + [m])[i];
  }

  /** A new row lands at the end of its conversation's history exactly when it comes after
      every earlier row of that conversation; equal instants leave it to the random id. */
  lemma AppendOrder(rows: seq<Message>, m: Message)
    requires UniqueIds(rows + [m])
    ensures History(rows + [m], m.conversation) == History(rows, m.conversation) + [m]
      <==> forall r :: r in Of(rows, m.conversation) ==> Before(r, m)
  {
    UniqueIdsOfPrefix(rows, m);
    OfKeepsUniqueIds(rows, m.conversation);
    OfKeepsUniqueIds(rows + [m], m.conversation);
    OfAppend(rows, m, m.conversation);
    AppendSorted(Of(rows, m.conversation), m);
  }

  lemma AppendSorted(mine: seq<Message>, m: Message)
    requires UniqueIds(mine) && UniqueIds(mine + [m])
    ensures OrderBy(false, mine + [m]) == OrderBy(false, mine) + [m] <==> forall r :: r in mine ==> Before(r, m)
  {
    var sorted, extended := OrderBy(false, mine), OrderBy(false, mine) + [m];
    OrderBySorts(false, mine);
    OrderBySorts(false, mine + [m]);
    assert forall r :: r in mine <==> r in multiset(sorted);
    if forall r :: r in mine ==> Before(r, m) {
      SortedIsUnique(false, OrderBy(false, mine + [m]), extended);
    }
    if Sorted(false, extended) {
      forall i | 0 <= i < |sorted|
        ensures Before(sorted[i], m)
      {
        assert extended[i] == sorted[i] && extended[|sorted|] == m;
      }
    }
  }

  /** The history of a conversation is the order in which its rows were stored exactly when every
      earlier row comes before every later one. */
  lemma HistoryIsStorageOrder(rows: seq<Message>, conversation: Id)
    requires UniqueIds(rows)
    ensures
      var mine := Of(rows, conversation);
      History(rows, conversation) == mine <==> forall i, j :: 0 <= i < j < |mine| ==> Before(mine[i], mine[j])
  {
    var mine := Of(rows, conversation);
    OfKeepsUniqueIds(rows, conversation);
    OrderBySorts(false, mine);
    if Sorted(false, mine) {
      SortedIsUnique(false, OrderBy(false, mine), mine);
    } else {
      assert exists i, j :: 0 <= i < j < |mine| && !Precedes(false, mine[i], mine[j]);
    }
  }

  predicate NonDescending(s: seq<Message>) {
    forall i, j :: 0 <= i < j < |s| ==> s[i].createdAt <= s[j].createdAt
  }

  /** `a` and `b` carry the same instants, place by place. */
  predicate SameInstants(a: seq<Message>, b: seq<Message>) {
    |a| == |b| && forall i :: 0 <= i < |a| ==> a[i].createdAt == b[i].createdAt
  }

  lemma TailIsLater(x: Message, s: seq<Message>)
    requires NonDescending([x] + s)
    ensures NonDescending(s) && forall i :: 0 <= i < |s| ==> x.createdAt <= s[i].createdAt
  {
    assert forall i :: 0 <= i < |s| ==> ([x] + s)[i + 1] == s[i];
    assert ([x] + s)[0] == x;
  }

  lemma ConsKeepsInstants(x: Message, a: seq<Message>, b: seq<Message>)
    requires SameInstants(a, b)
    ensures SameInstants([x] + a, [x] + b)
    ensures NonDescending([x] + b) ==> NonDescending([x] + a)
  {
    assert forall i :: 0 <= i < |a| + 1 ==> ([x] + a)[i].createdAt == ([x] + b)[i].createdAt;
  }

  lemma SwapKeepsInstants(x: Message, y: Message, s: seq<Message>)
    requires x.createdAt == y.createdAt
    ensures SameInstants([y] + ([x] + s), [x] + ([y] + s))
  {
  }

  lemma {:induction false} InsertKeepsInstants(x: Message, s: seq<Message>)
    requires NonDescending([x] + s)
    ensures SameInstants(Insert(false, x, s), [x] + s)
  {
    if s != [] && !Precedes(false, x, s[0]) {
      var rest := s[1..];
      assert s == [s[0]] + rest;
      TailIsLater(x, s);
      TailIsLater(s[0], rest);
      InsertAfterEqual(x, s[0], rest);
      InsertKeepsInstants(x, rest);
      ConsKeepsInstants(s[0], Insert(false, x, rest), [x] + rest);
      SwapKeepsInstants(x, s[0], rest);
    }
  }

  lemma InsertAfterEqual(x: Message, y: Message, s: seq<Message>)
    requires x.createdAt == y.createdAt && NonDescending([y] + s)
    ensures NonDescending([x] + s)
  {
    TailIsLater(y, s);
  }

  lemma {:induction false} OrderByKeepsInstants(rows: seq<Message>)
    requires NonDescending(rows)
    ensures SameInstants(OrderBy(false, rows), rows)
  {
    if rows != [] {
      var x, tail := rows[0], rows[1..];
      assert rows == [x] + tail;
      TailIsLater(x, tail);
      OrderByKeepsInstants(tail);
      ConsKeepsInstants(x, OrderBy(false, tail), tail);
      InsertKeepsInstants(x, OrderBy(false, tail));
    }
  }

  /** A smaller page is the newest part of a larger one. */
  lemma SmallerPageIsSuffix(rows: seq<Message>, conversation: Id, small: nat, large: nat)
    requires UniqueIds(rows) && small <= large
    ensures LoadMessages(rows, conversation, small) == Last(LoadMessages(rows, conversation, large), small)
  {
    LoadIsNewestPage(rows, conversation, small);
    LoadIsNewestPage(rows, conversation, large);
    LastOfLast(History(rows, conversation), large, small);
  }

  /** Rows of other conversations do not move a history. */
  lemma OtherConversationsDoNotMatter(rows: seq<Message>, m: Message, conversation: Id)
    requires m.conversation != conversation
    ensures History(rows + [m], conversation) == History(rows, conversation)
  {
    OfAppend(rows, m, conversation);
    assert Of(rows, conversation) + [] == Of(rows, conversation);
  }
}
