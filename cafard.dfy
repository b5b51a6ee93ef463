/** The cafard quiz of cogs/cafard.py: the module-level dictionaries
    `cafards`, `votes`, `points` and `pending` as the fields of one object,
    the transitions of its views, the `/quiz` list and the `/classement`
    ranking.

    A cafard id is a number handed in by the caller (the `uuid4` of the
    source is a fresh-id oracle). A Python dictionary remembers insertion
    order, which `/quiz` and the ranking's ties depend on: `order` and
    `pointOrder` are the key orders of `cafards` and `points`. A `KeyError`
    in a callback ends it where it is raised; the model keeps the changes
    made before that point and reports `Failed`. */
module Cafard {
  import opened Text

  /** A cafard being created, or published: the question and, once chosen,
      the expected answer (yes or no). */
  datatype Draft = Draft(question: string, answer: Option<bool>)

  datatype VoteOutcome = AlreadyVoted | Correct | Wrong | Failed

  predicate Distinct(s: seq<nat>) {
    forall i, j :: 0 <= i < j < |s| ==> s[i] != s[j]
  }

  /** The cafards `user` has answered correctly. */
  function CorrectSet(cafards: map<nat, Draft>, votes: map<(nat, nat), bool>, user: nat): set<nat> {
    set c | c in cafards.Keys && (c, user) in votes && cafards[c].answer == Some(votes[(c, user)])
  }

  /** With a single cafard, answered right, the correct set is that cafard. */
  lemma {:induction false} CorrectSetOne(d: Draft, votes: map<(nat, nat), bool>, c: nat, user: nat)
    requires (c, user) in votes && d.answer == Some(votes[(c, user)])
    ensures CorrectSet(map[c := d], votes, user) == {c}
    ensures |CorrectSet(map[c := d], votes, user)| == 1
  {
    var s := CorrectSet(map[c := d], votes, user);
    forall e | e in s ensures e == c {
      assert e in map[c := d].Keys;
    }
    assert c in s;
    assert s == {c};
  }

  /** A first vote on `c` adds `c` to the voter's correct set exactly when
      it is right, and touches nobody else's. */
  lemma {:induction false} CorrectSetAddVote(cafards: map<nat, Draft>, votes: map<(nat, nat), bool>,
                                             c: nat, user: nat, value: bool, other: nat)
    requires c in cafards && (c, user) !in votes
    ensures var after := CorrectSet(cafards, votes[(c, user) := value], other);
            if other == user && cafards[c].answer == Some(value) then
              c !in CorrectSet(cafards, votes, other) && after == CorrectSet(cafards, votes, other) + {c}
            else after == CorrectSet(cafards, votes, other)
  {
  }

  /** A new cafard nobody has voted on changes no correct set. */
  lemma {:induction false} CorrectSetAddCafard(cafards: map<nat, Draft>, votes: map<(nat, nat), bool>,
                                               c: nat, d: Draft, user: nat)
    requires forall k :: k in votes ==> k.0 != c
    ensures CorrectSet(cafards[c := d], votes, user) == CorrectSet(cafards, votes, user)
  {
  }

  /** Python's `sorted(items, key=points, reverse=True)`: stable, so equal
      scores keep their order. An inserted item goes after every item with a
      score at least its own. */
  function InsertDesc(x: (nat, nat), s: seq<(nat, nat)>): (r: seq<(nat, nat)>)
    ensures |r| == |s| + 1 && multiset(r) == multiset(s) + multiset{x}
  {
    if s == [] then [x]
    else if s[0].1 >= x.1 then
      assert s == [s[0]] + s[1..];
      [s[0]] + InsertDesc(x, s[1..])
    else [x] + s
  }

  function SortDesc(items: seq<(nat, nat)>): (r: seq<(nat, nat)>)
    ensures |r| == |items| && multiset(r) == multiset(items)
  {
    if items == [] then []
    else
      assert items == items[..|items| - 1] + [items[|items| - 1]];
      InsertDesc(items[|items| - 1], SortDesc(items[..|items| - 1]))
  }

  predicate SortedDesc(s: seq<(nat, nat)>) {
    forall i, j :: 0 <= i < j < |s| ==> s[i].1 >= s[j].1
  }

  lemma {:induction false} InsertDescSorted(x: (nat, nat), s: seq<(nat, nat)>)
    requires SortedDesc(s)
    ensures SortedDesc(InsertDesc(x, s))
    decreases |s|
  {
    if s == [] {
    } else if s[0].1 >= x.1 {
      InsertDescSorted(x, s[1..]);
      InsertDescBound(x, s[1..], s[0].1);
      ConsSorted(s[0], InsertDesc(x, s[1..]));
    } else {
      ConsSorted(x, s);
    }
  }

  /** Inserting keeps every element at or below a common bound. */
  lemma {:induction false} InsertDescBound(x: (nat, nat), s: seq<(nat, nat)>, b: nat)
    requires x.1 <= b && forall k :: 0 <= k < |s| ==> s[k].1 <= b
    ensures forall k :: 0 <= k < |InsertDesc(x, s)| ==> InsertDesc(x, s)[k].1 <= b
    decreases |s|
  {
    if s != [] && s[0].1 >= x.1 {
      InsertDescBound(x, s[1..], b);
      var r := InsertDesc(x, s[1..]);
      assert InsertDesc(x, s) == [s[0]] + r;
    }
  }

  /** An element at least as large as all of a sorted sequence may lead it. */
  lemma {:induction false} ConsSorted(a: (nat, nat), r: seq<(nat, nat)>)
    requires SortedDesc(r) && forall k :: 0 <= k < |r| ==> r[k].1 <= a.1
    ensures SortedDesc([a] + r)
  {
    forall i, j | 0 <= i < j < |[a] + r| ensures ([a] + r)[i].1 >= ([a] + r)[j].1 {
      if i > 0 {
        assert ([a] + r)[i] == r[i - 1] && ([a] + r)[j] == r[j - 1];
      } else {
        assert ([a] + r)[j] == r[j - 1];
      }
    }
  }

  /** The ranking is in non-increasing order of points. */
  lemma {:induction false} SortDescSorted(items: seq<(nat, nat)>)
    ensures SortedDesc(SortDesc(items))
    decreases |items|
  {
    if items != [] {
      SortDescSorted(items[..|items| - 1]);
      InsertDescSorted(items[|items| - 1], SortDesc(items[..|items| - 1]));
    }
  }

  /** The items scoring exactly `v`, in their order in `s`. */
  function Tied(s: seq<(nat, nat)>, v: nat): seq<(nat, nat)> {
    if s == [] then [] else (if s[0].1 == v then [s[0]] else []) + Tied(s[1..], v)
  }

  lemma {:induction false} TiedCons(a: (nat, nat), r: seq<(nat, nat)>, v: nat)
    ensures Tied([a] + r, v) == (if a.1 == v then [a] else []) + Tied(r, v)
  {
    assert ([a] + r)[0] == a && ([a] + r)[1..] == r;
  }

  /** Filtering distributes over concatenation. */
  lemma {:induction false} TiedAppend(a: seq<(nat, nat)>, b: seq<(nat, nat)>, v: nat)
    ensures Tied(a + b, v) == Tied(a, v) + Tied(b, v)
    decreases |a|
  {
    if a == [] {
      assert [] + b == b;
    } else {
      assert a + b == [a[0]] + (a[1..] + b);
      assert a == [a[0]] + a[1..];
      TiedCons(a[0], a[1..] + b, v);
      TiedCons(a[0], a[1..], v);
      TiedAppend(a[1..], b, v);
      SeqAssoc(if a[0].1 == v then [a[0]] else [], Tied(a[1..], v), Tied(b, v));
    }
  }

  lemma {:induction false} SeqAssoc<T>(a: seq<T>, b: seq<T>, c: seq<T>)
    ensures a + (b + c) == (a + b) + c
  {
  }

  /** A sequence scoring below `v` everywhere has no item tied at `v`. */
  lemma {:induction false} TiedNone(s: seq<(nat, nat)>, v: nat)
    requires forall k :: 0 <= k < |s| ==> s[k].1 < v
    ensures Tied(s, v) == []
    decreases |s|
  {
    if s != [] {
      TiedNone(s[1..], v);
    }
  }

  lemma {:induction false} SortedTail(s: seq<(nat, nat)>)
    requires SortedDesc(s) && s != []
    ensures SortedDesc(s[1..])
  {
    forall i, j | 0 <= i < j < |s[1..]| ensures s[1..][i].1 >= s[1..][j].1 {
      assert s[1..][i] == s[i + 1] && s[1..][j] == s[j + 1];
    }
  }

  /** Inserting into a sorted list puts `x` after every item of its own
      score: the items tied with it keep their order and `x` comes last. */
  lemma {:induction false} InsertDescStable(x: (nat, nat), s: seq<(nat, nat)>, v: nat)
    requires SortedDesc(s)
    ensures Tied(InsertDesc(x, s), v) == Tied(s, v) + (if x.1 == v then [x] else [])
    decreases |s|
  {
    var c := if x.1 == v then [x] else [];
    if s == [] {
      TiedCons(x, [], v);
      assert [x] + [] == [x];
    } else if s[0].1 >= x.1 {
      SortedTail(s);
      InsertDescStable(x, s[1..], v);
      InsertPastStable(x, s, v);
    } else {
      assert InsertDesc(x, s) == [x] + s;
      TiedCons(x, s, v);
      if x.1 == v {
        forall k | 0 <= k < |s| ensures s[k].1 < v {
          if k > 0 { assert s[0].1 >= s[k].1; }
        }
        TiedNone(s, v);
      }
    }
  }

  /** The step of InsertDescStable where `x` moves past the head. */
  lemma {:induction false} InsertPastStable(x: (nat, nat), s: seq<(nat, nat)>, v: nat)
    requires s != [] && s[0].1 >= x.1
    requires Tied(InsertDesc(x, s[1..]), v) == Tied(s[1..], v) + (if x.1 == v then [x] else [])
    ensures Tied(InsertDesc(x, s), v) == Tied(s, v) + (if x.1 == v then [x] else [])
  {
    var a := if s[0].1 == v then [s[0]] else [];
    var c := if x.1 == v then [x] else [];
    assert InsertDesc(x, s) == [s[0]] + InsertDesc(x, s[1..]);
    TiedCons(s[0], InsertDesc(x, s[1..]), v);
    assert s == [s[0]] + s[1..];
    TiedCons(s[0], s[1..], v);
    SeqAssoc(a, Tied(s[1..], v), c);
  }

  /** The sort is stable: for every score, the items with that score appear
      in the ranking in the same order as in the input. */
  lemma {:induction false} SortDescStable(items: seq<(nat, nat)>, v: nat)
    ensures Tied(SortDesc(items), v) == Tied(items, v)
    decreases |items|
  {
    if items != [] {
      var init, last := items[..|items| - 1], items[|items| - 1];
      assert items == init + [last];
      SortDescStable(init, v);
      SortDescSorted(init);
      InsertDescStable(last, SortDesc(init), v);
      TiedAppend(init, [last], v);
      TiedCons(last, [], v);
      assert [last] + [] == [last];
    }
  }

  function Top(items: seq<(nat, nat)>, n: nat): (r: seq<(nat, nat)>)
    ensures |r| == if |items| <= n then |items| else n
  {
    var s := SortDesc(items);
    if |s| <= n then s else s[..n]
  }

  /** Every item after the first `n` of a non-increasing list has at most
      the points of each of the first `n`. */
  lemma {:induction false} PrefixDominates(s: seq<(nat, nat)>, n: nat)
    requires SortedDesc(s) && n <= |s|
    ensures forall x: (nat, nat), i :: x in multiset(s[n..]) && 0 <= i < n ==> x.1 <= s[i].1
  {
    forall x: (nat, nat), i | x in multiset(s[n..]) && 0 <= i < n ensures x.1 <= s[i].1 {
      var rest := s[n..];
      assert x in rest;
      var j :| 0 <= j < |rest| && rest[j] == x;
      assert s[n + j] == x;
    }
  }

  lemma {:induction false} PrefixMultiset(s: seq<(nat, nat)>, n: nat)
    requires n <= |s|
    ensures multiset(s) - multiset(s[..n]) == multiset(s[n..])
    ensures multiset(s[..n]) <= multiset(s)
  {
    assert s == s[..n] + s[n..];
  }

  /** The top ten: at most ten entries, non-increasing, drawn from the
      items, and no item left out has more points than one shown. */
  lemma {:induction false} TopTen(items: seq<(nat, nat)>)
    ensures |Top(items, 10)| <= 10
    ensures SortedDesc(Top(items, 10))
    ensures multiset(Top(items, 10)) <= multiset(items)
    ensures forall x: (nat, nat), i :: x in multiset(items) - multiset(Top(items, 10)) && 0 <= i < |Top(items, 10)|
                                       ==> x.1 <= Top(items, 10)[i].1
  {
    var s := SortDesc(items);
    SortDescSorted(items);
    var n := if |s| <= 10 then |s| else 10;
    assert Top(items, 10) == s[..n];
    PrefixMultiset(s, n);
    PrefixDominates(s, n);
  }

  /** Ties are settled by input order: for every score, the items shown with
      it are the first ones with it in the input. */
  lemma {:induction false} TopTies(items: seq<(nat, nat)>, n: nat, v: nat)
    ensures Tied(Top(items, n), v) <= Tied(items, v)
  {
    var s := SortDesc(items);
    SortDescStable(items, v);
    if n < |s| {
      assert s == s[..n] + s[n..];
      TiedAppend(s[..n], s[n..], v);
    }
  }

  class CafardState {
    var cafards: map<nat, Draft>
    /** The keys of `cafards` in insertion order. */
    var order: seq<nat>
    var votes: map<(nat, nat), bool>
    var points: map<nat, nat>
    /** The keys of `points` in insertion order. */
    var pointOrder: seq<nat>
    var pending: map<nat, Draft>

    /** The dictionaries and their key orders agree, and every vote is on a
        published cafard. */
    ghost predicate Valid()
      reads this
    {
      && Distinct(order) && (forall i :: 0 <= i < |order| ==> order[i] in cafards)
      && (forall c :: c in cafards ==> c in order)
      && Distinct(pointOrder) && (forall i :: 0 <= i < |pointOrder| ==> pointOrder[i] in points)
      && (forall u :: u in points ==> u in pointOrder)
      && (forall k :: k in votes ==> k.0 in cafards)
    }

    /** Every user's points are the number of cafards they answered right. */
    ghost predicate Fair()
      reads this
    {
      forall u :: Score(u) == |CorrectSet(cafards, votes, u)|
    }

    constructor ()
      ensures Valid() && Fair()
      ensures cafards == map[] && order == [] && votes == map[] && points == map[] && pointOrder == [] && pending == map[]
    {
      cafards := map[];
      order := [];
      votes := map[];
      points := map[];
      pointOrder := [];
      pending := map[];
    }

    /** `points.get(user, 0)`. */
    function Score(user: nat): nat
      reads this`points
    {
      if user in points then points[user] else 0
    }

    /** `/cafard`: the user's draft is (re)started with the question. */
    method StartDraft(user: nat, question: string)
      modifies this
      ensures pending == old(pending)[user := Draft(question, None)]
      ensures cafards == old(cafards) && order == old(order) && votes == old(votes)
      ensures points == old(points) && pointOrder == old(pointOrder)
    {
      pending := pending[user := Draft(question, None)];
    }

    /** `AnswerSelectView._select`: the draft gets its answer; without a
        draft (`KeyError`) nothing changes. */
    method SelectAnswer(user: nat, value: bool) returns (ok: bool)
      modifies this
      ensures ok <==> user in old(pending)
      ensures ok ==> pending == old(pending)[user := Draft(old(pending)[user].question, Some(value))]
      ensures !ok ==> pending == old(pending)
      ensures cafards == old(cafards) && order == old(order) && votes == old(votes)
      ensures points == old(points) && pointOrder == old(pointOrder)
    {
      if user !in pending {
        return false;
      }
      pending := pending[user := pending[user].(answer := Some(value))];
      ok := true;
    }

    /** `AnswerSelectView.cancel` and `ValidationView.delete`:
        `pending.pop(user, None)`; nothing is published. */
    method Discard(user: nat)
      modifies this
      ensures pending == old(pending) - {user}
      ensures cafards == old(cafards) && order == old(order) && votes == old(votes)
      ensures points == old(points) && pointOrder == old(pointOrder)
    {
      pending := pending - {user};
    }

    /** `ValidationView.validate`: the draft moves to `cafards` under the
        fresh id, after every earlier cafard; without a draft (`KeyError`)
        nothing changes. */
    method Validate(user: nat, freshId: nat) returns (published: Option<nat>)
      requires Valid() && freshId !in cafards
      modifies this
      ensures Valid()
      ensures old(Fair()) ==> Fair()
      ensures published.Some? <==> user in old(pending)
      ensures published.Some? ==>
                published.value == freshId
                && cafards == old(cafards)[freshId := old(pending)[user]]
                && order == old(order) + [freshId]
                && pending == old(pending) - {user}
      ensures published.None? ==> cafards == old(cafards) && order == old(order) && pending == old(pending)
      ensures votes == old(votes) && points == old(points) && pointOrder == old(pointOrder)
    {
      if user !in pending {
        return None;
      }
      var data := pending[user];
      pending := pending - {user};
      forall u ensures CorrectSet(cafards[freshId := data], votes, u) == CorrectSet(cafards, votes, u) {
        CorrectSetAddCafard(cafards, votes, freshId, data, u);
      }
      cafards := cafards[freshId := data];
      order := order + [freshId];
      published := Some(freshId);
    }

    /** `points[user] = points.get(user, 0) + 1`. */
    method AddPoint(user: nat)
      requires Valid()
      modifies this
      ensures Valid()
      ensures points == old(points)[user := old(Score(user)) + 1]
      ensures pointOrder == if user in old(points) then old(pointOrder) else old(pointOrder) + [user]
      ensures forall u :: Score(u) == old(Score(u)) + (if u == user then 1 else 0)
      ensures cafards == old(cafards) && order == old(order) && votes == old(votes) && pending == old(pending)
    {
      if user !in points {
        pointOrder := pointOrder + [user];
      }
      points := points[user := Score(user) + 1];
    }

    /** Stores one vote; only `votes` changes. */
    method StoreVote(c: nat, user: nat, value: bool)
      requires Valid() && c in cafards
      modifies this`votes
      ensures Valid()
      ensures votes == old(votes)[(c, user) := value]
    {
      votes := votes[(c, user) := value];
    }

    /** The effect of a recorded first vote: the vote is stored, the outcome
        compares it with the answer (`Failed` when there is none), and a right
        vote gives the voter one point, entering them in the ranking order
        when they had none. Nothing else changes. */
    twostate predicate VoteRecorded(c: nat, user: nat, value: bool, outcome: VoteOutcome)
      reads this
    {
      && c in cafards
      && votes == old(votes)[(c, user) := value]
      && (outcome == Correct <==> cafards[c].answer == Some(value))
      && (outcome == Failed <==> cafards[c].answer.None?)
      && outcome != AlreadyVoted
      && (outcome == Correct ==> points == old(points)[user := old(Score(user)) + 1])
      && (outcome == Correct ==>
            pointOrder == if user in old(points) then old(pointOrder) else old(pointOrder) + [user])
      && (outcome != Correct ==> points == old(points) && pointOrder == old(pointOrder))
      && cafards == old(cafards) && order == old(order) && pending == old(pending)
    }

    /** Records the vote, then gives one point when it matches the answer.
        A cafard without an answer raises `KeyError` after the vote is
        recorded. */
    method RecordVote(c: nat, user: nat, value: bool) returns (outcome: VoteOutcome)
      requires Valid() && c in cafards
      modifies this
      ensures Valid() && VoteRecorded(c, user, value, outcome)
      ensures forall u :: Score(u) == old(Score(u)) + (if u == user && outcome == Correct then 1 else 0)
    {
      StoreVote(c, user, value);
      var answer := cafards[c].answer;
      if answer.None? {
        return Failed;
      }
      if answer.value == value {
        AddPoint(user);
        outcome := Correct;
      } else {
        outcome := Wrong;
      }
    }

    /** `VoteView._vote`: a second vote by the same user on the same cafard
        is refused and changes nothing; a first one is recorded and scores one
        point for that user only when right. */
    method Vote(c: nat, user: nat, value: bool) returns (outcome: VoteOutcome)
      requires Valid() && c in cafards
      modifies this
      ensures Valid() && (old(Fair()) ==> Fair())
      ensures (c, user) in old(votes) ==> outcome == AlreadyVoted && unchanged(this)
      ensures (c, user) !in old(votes) ==> VoteRecorded(c, user, value, outcome)
    {
      if (c, user) in votes {
        return AlreadyVoted;
      }
      if Fair() {
        FirstVoteKeepsFair(c, user, value);
      }
      outcome := RecordVote(c, user, value);
    }

    /** The counting behind `Fair`: a first vote changes only the voter's
        correct set, and by one cafard exactly when it is right. */
    lemma {:induction false} FirstVoteKeepsFair(c: nat, user: nat, value: bool)
      requires Valid() && Fair() && c in cafards && (c, user) !in votes
      ensures forall u :: |CorrectSet(cafards, votes[(c, user) := value], u)|
                          == Score(u) + (if u == user && cafards[c].answer == Some(value) then 1 else 0)
    {
      forall u ensures |CorrectSet(cafards, votes[(c, user) := value], u)|
                       == Score(u) + (if u == user && cafards[c].answer == Some(value) then 1 else 0) {
        CorrectSetAddVote(cafards, votes, c, user, value, u);
      }
    }

    /** The `/quiz` list: the published cafards the user has not voted on, in
        publication order. */
    function Unvoted(ids: seq<nat>, user: nat): (r: seq<nat>)
      reads this`votes
      ensures |r| <= |ids|
      ensures forall c :: c in r <==> c in ids && (c, user) !in votes
    {
      if ids == [] then []
      else Unvoted(ids[..|ids| - 1], user) + (if (ids[|ids| - 1], user) !in votes then [ids[|ids| - 1]] else [])
    }

    /** `[cid for cid in cafards if (cid, user_id) not in votes]`. */
    method Remaining(user: nat) returns (remaining: seq<nat>)
      ensures remaining == Unvoted(order, user)
    {
      remaining := [];
      var i := 0;
      while i < |order|
        invariant 0 <= i <= |order|
        invariant remaining == Unvoted(order[..i], user)
      {
        assert order[..i + 1][..i] == order[..i];
        if (order[i], user) !in votes {
          remaining := remaining + [order[i]];
        }
        i := i + 1;
      }
      assert order[..i] == order;
    }

    /** `/quiz`: no view when nothing is left, else a view on the remaining
        cafards starting at the first. */
    method Quiz(user: nat) returns (view: QuizView?)
      requires Valid()
      ensures Unvoted(order, user) == [] <==> view == null
      ensures view != null ==> fresh(view) && view.userId == user && view.cafardIds == Unvoted(order, user)
                               && view.index == 0 && view.Valid(this)
    {
      var remaining := Remaining(user);
      if remaining == [] {
        return null;
      }
      view := new QuizView(user, remaining);
      UnvotedPublished(order, user);
    }

    lemma {:induction false} UnvotedPublished(ids: seq<nat>, user: nat)
      requires Valid() && forall i :: 0 <= i < |ids| ==> ids[i] in cafards
      ensures forall i :: 0 <= i < |Unvoted(ids, user)| ==> Unvoted(ids, user)[i] in cafards
    {
      forall i | 0 <= i < |Unvoted(ids, user)| ensures Unvoted(ids, user)[i] in cafards {
        assert Unvoted(ids, user)[i] in Unvoted(ids, user);
      }
    }

    /** `pointOrder` is empty exactly when `points` is. */
    lemma {:induction false} PointsOrdered()
      requires Valid()
      ensures points == map[] <==> pointOrder == []
    {
      if pointOrder != [] {
        assert pointOrder[0] in points;
      }
      if points != map[] {
        var u :| u in points;
        assert u in pointOrder;
      }
    }

    /** `/classement`: without points, the "no points yet" message;
        otherwise the ten best users, one numbered line each. */
    method Classement(names: map<nat, string>) returns (top: seq<(nat, nat)>, message: string)
      requires Valid()
      ensures top == Top(ItemsOf(pointOrder, points), 10)
      ensures top == [] <==> points == map[]
      ensures points == map[] ==> message == NO_POINTS
      ensures points != map[] ==> message == CLASSEMENT_HEADER + JoinLines(RankLines(top, names, 1))
      ensures |top| <= 10 && SortedDesc(top)
      ensures forall i :: 0 <= i < |top| ==> top[i].0 in points && top[i].1 == points[top[i].0]
    {
      PointsOrdered();
      if points == map[] {
        return [], NO_POINTS;
      }
      var items := ItemsOf(pointOrder, points);
      top := Top(items, 10);
      TopTen(items);
      TopEntries(pointOrder, points);
      var lines := RenderRanking(top, names);
      message := CLASSEMENT_HEADER + JoinLines(lines);
    }
  }

  const NO_POINTS: string := "\U{1FAB3} Aucun point pour l\U{2019}instant"
  const CLASSEMENT_HEADER: string := "\U{1F3C6} **Classement des cafards (Top 10)**\n\n"

  /** `points.items()`: each key with its points, in insertion order. */
  function ItemsOf(keys: seq<nat>, pts: map<nat, nat>): (r: seq<(nat, nat)>)
    requires forall i :: 0 <= i < |keys| ==> keys[i] in pts
    ensures |r| == |keys|
    ensures forall i :: 0 <= i < |r| ==> r[i] == (keys[i], pts[keys[i]])
  {
    if keys == [] then [] else [(keys[0], pts[keys[0]])] + ItemsOf(keys[1..], pts)
  }

  /** Every ranked entry is a user with their current points. */
  lemma {:induction false} TopEntries(keys: seq<nat>, pts: map<nat, nat>)
    requires forall i :: 0 <= i < |keys| ==> keys[i] in pts
    ensures var top := Top(ItemsOf(keys, pts), 10);
            forall i :: 0 <= i < |top| ==> top[i].0 in pts && top[i].1 == pts[top[i].0]
  {
    var items := ItemsOf(keys, pts);
    var top := Top(items, 10);
    TopTen(items);
    forall i | 0 <= i < |top| ensures top[i].0 in pts && top[i].1 == pts[top[i].0] {
      assert top[i] in multiset(top);
      assert top[i] in multiset(items);
      var j :| 0 <= j < |items| && items[j] == top[i];
    }
  }

  /** The displayed name, or `Utilisateur <id>` when the lookup fails. */
  function DisplayName(uid: nat, names: map<nat, string>): string {
    if uid in names then names[uid] else "Utilisateur " + NatToDigits(uid)
  }

  /** `<rank>. <name> — <points> 🪳`. */
  function RankLine(rank: nat, item: (nat, nat), names: map<nat, string>): string {
    NatToDigits(rank) + ". " + DisplayName(item.0, names) + " \U{2014} " + NatToDigits(item.1) + " \U{1FAB3}"
  }

  /** The lines of `enumerate(items, start=first)`. */
  function RankLines(items: seq<(nat, nat)>, names: map<nat, string>, first: nat): (r: seq<string>)
    ensures |r| == |items|
  {
    seq(|items|, i requires 0 <= i < |items| => RankLine(first + i, items[i], names))
  }

  /** The numbered lines of the ranking, built one by one. */
  method RenderRanking(top: seq<(nat, nat)>, names: map<nat, string>) returns (lines: seq<string>)
    ensures lines == RankLines(top, names, 1)
  {
    lines := [];
    var i := 0;
    while i < |top|
      invariant 0 <= i <= |top|
      invariant lines == RankLines(top[..i], names, 1)
    {
      assert RankLines(top[..i + 1], names, 1) == RankLines(top[..i], names, 1) + [RankLine(i + 1, top[i], names)];
      lines := lines + [RankLine(i + 1, top[i], names)];
      i := i + 1;
    }
    assert top[..i] == top;
  }

  /** `"\n".join(lines)`. */
  function JoinLines(lines: seq<string>): string {
    if lines == [] then "" else if |lines| == 1 then lines[0] else lines[0] + "\n" + JoinLines(lines[1..])
  }

  /** The `/quiz` view: the list it was opened with and the question it is
      at. */
  class QuizView {
    const userId: nat
    const cafardIds: seq<nat>
    var index: nat

    /** Every listed cafard is published. */
    ghost predicate Valid(game: CafardState)
      reads this, game
    {
      forall i :: 0 <= i < |cafardIds| ==> cafardIds[i] in game.cafards
    }

    constructor (userId: nat, cafardIds: seq<nat>)
      ensures this.userId == userId && this.cafardIds == cafardIds && index == 0
    {
      this.userId := userId;
      this.cafardIds := cafardIds;
      index := 0;
    }

    predicate Finished()
      reads this
    {
      index >= |cafardIds|
    }

    /** `QuizView._answer` as the source writes it: the vote is recorded
        without looking at `votes`, so one cafard can score twice for the
        same user (see `QuizRescores`). The view moves to the next question
        and is finished after the last; a `KeyError` on a cafard without an
        answer comes before the move, so the same question stays. */
    method Answer(game: CafardState, value: bool) returns (outcome: VoteOutcome, finished: bool)
      requires game.Valid() && Valid(game) && !Finished()
      modifies this, game
      ensures game.Valid() && Valid(game)
      ensures index == (if outcome == Failed then old(index) else old(index) + 1)
      ensures finished <==> Finished()
      ensures var c := cafardIds[old(index)];
              game.votes == old(game.votes)[(c, userId) := value]
              && (outcome == Correct <==> game.cafards[c].answer == Some(value))
              && (outcome == Failed <==> game.cafards[c].answer.None?)
              && (outcome == Correct ==> game.points == old(game.points)[userId := old(game.Score(userId)) + 1])
              && (outcome == Correct ==>
                    game.pointOrder == if userId in old(game.points) then old(game.pointOrder)
                                       else old(game.pointOrder) + [userId])
              && (outcome != Correct ==> game.points == old(game.points) && game.pointOrder == old(game.pointOrder))
      ensures game.cafards == old(game.cafards) && game.order == old(game.order) && game.pending == old(game.pending)
    {
      var c := cafardIds[index];
      outcome := game.RecordVote(c, userId, value);
      if outcome == Failed {
        return outcome, false;
      }
      index := index + 1;
      finished := index >= |cafardIds|;
    }

    /** The quiz answer with the guard of `VoteView._vote`: a cafard the user
        has already voted on since the quiz was opened is skipped, so every
        answer keeps points equal to the number of right votes. A `KeyError`
        leaves the index where it is, as in `Answer`. */
    method AnswerOnce(game: CafardState, value: bool) returns (outcome: VoteOutcome, finished: bool)
      requires game.Valid() && game.Fair() && Valid(game) && !Finished()
      modifies this, game
      ensures game.Valid() && game.Fair() && Valid(game)
      ensures index == (if outcome == Failed then old(index) else old(index) + 1)
      ensures finished <==> Finished()
      ensures var c := cafardIds[old(index)];
              ((c, userId) in old(game.votes) ==>
                 outcome == AlreadyVoted && game.votes == old(game.votes)
                 && game.points == old(game.points) && game.pointOrder == old(game.pointOrder))
              && ((c, userId) !in old(game.votes) ==>
                    game.votes == old(game.votes)[(c, userId) := value]
                    && (outcome == Correct <==> game.cafards[c].answer == Some(value))
                    && (outcome == Failed <==> game.cafards[c].answer.None?)
                    && (outcome == Correct ==> game.points == old(game.points)[userId := old(game.Score(userId)) + 1])
                    && (outcome == Correct ==>
                          game.pointOrder == if userId in old(game.points) then old(game.pointOrder)
                                             else old(game.pointOrder) + [userId])
                    && (outcome != Correct ==> game.points == old(game.points) && game.pointOrder == old(game.pointOrder)))
      ensures game.cafards == old(game.cafards) && game.order == old(game.order) && game.pending == old(game.pending)
    {
      var c := cafardIds[index];
      outcome := game.Vote(c, userId, value);
      if outcome == Failed {
        return outcome, false;
      }
      index := index + 1;
      finished := index >= |cafardIds|;
    }
  }

  /** One cafard, one user, two scores: the user votes right on the poll,
      then answers the same cafard right in a quiz opened before the vote;
      the as-written answer gives a second point for the one cafard. */
  method QuizRescores() returns (score: nat, rightVotes: nat)
    ensures score == 2 && rightVotes == 1
  {
    var game := PublishOne();
    var view := OpenQuiz(game);
    score, rightVotes := VoteThenAnswer(game, view);
  }

  /** User 7 opens the quiz while cafard 1 is still unvoted. */
  method OpenQuiz(game: CafardState) returns (view: QuizView)
    requires game.Valid() && game.cafards == map[1 := Draft("Q", Some(true))] && game.order == [1]
    requires game.votes == map[]
    ensures fresh(view) && view.userId == 7 && view.cafardIds == [1] && view.index == 0 && view.Valid(game)
  {
    assert game.Unvoted(game.order, 7) == [1] by {
      assert game.order[..0] == [];
    }
    var v := game.Quiz(7);
    view := v;
  }

  /** The poll vote, then the quiz answer on the same cafard. */
  method VoteThenAnswer(game: CafardState, view: QuizView) returns (score: nat, rightVotes: nat)
    requires game.Valid() && game.Fair() && game.cafards == map[1 := Draft("Q", Some(true))]
    requires game.votes == map[] && game.points == map[]
    requires view.userId == 7 && view.cafardIds == [1] && view.index == 0 && view.Valid(game)
    modifies game, view
    ensures score == 2 && rightVotes == 1
  {
    var first := game.Vote(1, 7, true);
    var second, finished := view.Answer(game, true);
    score := game.Score(7);
    CorrectSetOne(Draft("Q", Some(true)), game.votes, 1, 7);
    rightVotes := |CorrectSet(game.cafards, game.votes, 7)|;
  }

  /** User 7 drafts a cafard, picks "true" and publishes it as cafard 1. */
  method PublishOne() returns (game: CafardState)
    ensures fresh(game) && game.Valid() && game.Fair()
    ensures game.cafards == map[1 := Draft("Q", Some(true))] && game.order == [1]
    ensures game.votes == map[] && game.points == map[]
  {
    game := new CafardState();
    game.StartDraft(7, "Q");
    var ok := game.SelectAnswer(7, true);
    var published := game.Validate(7, 1);
  }
}
