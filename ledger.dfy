/** The record-handling rules the three ledger pages (loans, debts, expenses)
    share: the checks a new entry passes before it is posted, the stable sort
    by date, newest first, the case-insensitive search on the counterparty,
    the page count and page slices, and arrow-key paging. */
module Ledger {
  import opened Wrappers
  import opened Text
  import Tally

  /** The value of a `type="number"` input: blank, or the number typed. */
  datatype AmountText = Blank | Number(value: real)

  const FillAllFields := "Please fill in all fields."
  const AmountNotPositive := "Amount must be a positive number."
  const DateInFuture := "Date cannot be in the future."

  /** No required field is falsy: the amount input is not blank and no text
      field is the empty string. */
  predicate AllFilled(amount: AmountText, fields: seq<string>)
  {
    amount.Number? && forall i :: 0 <= i < |fields| ==> fields[i] != ""
  }

  /** The checks a create handler runs before posting, in the order it runs
      them; `None` means the entry is posted. `date` and `today` are
      `YYYY-MM-DD` strings compared as strings. */
  function CheckEntry(amount: AmountText, date: string, fields: seq<string>, today: string): (r: Option<string>)
    ensures r == Some(FillAllFields) <==> !AllFilled(amount, [date] + fields)
    ensures r == Some(AmountNotPositive) <==> AllFilled(amount, [date] + fields) && amount.value <= 0.0
    ensures r == Some(DateInFuture) <==> AllFilled(amount, [date] + fields) && amount.value > 0.0 && Lt(today, date)
    ensures r == None <==> AllFilled(amount, [date] + fields) && amount.value > 0.0 && Le(date, today)
  {
    if !AllFilled(amount, [date] + fields) then Some(FillAllFields)
    else if amount.value <= 0.0 then Some(AmountNotPositive)
    else if Lt(today, date) then Some(DateInFuture)
    else None
  }

  /** The guard `if (!userId) return;`: a user id is stored and is not empty. */
  predicate SignedIn(userId: Option<string>)
  {
    userId.Some? && userId.value != ""
  }

  /** `s.filter(keep)`: the elements that pass, in their order. */
  function Filter<T(!new)>(s: seq<T>, keep: T -> bool): (r: seq<T>)
    ensures |r| <= |s|
  {
    if s == [] then [] else (if keep(s[0]) then [s[0]] else []) + Filter(s[1..], keep)
  }

  /** The filter keeps exactly the elements that pass, each at most as often
      as it occurs. */
  lemma {:induction false} FilterMembers<T(!new)>(s: seq<T>, keep: T -> bool)
    ensures forall x :: x in Filter(s, keep) <==> x in s && keep(x)
    ensures multiset(Filter(s, keep)) <= multiset(s)
  {
    if s != [] {
      FilterMembers(s[1..], keep);
      assert s == [s[0]] + s[1..];
    }
  }

  /** The filter keeps every element that passes as often as it occurs, and
      drops every other element. */
  lemma {:induction false} FilterCounts<T(!new)>(s: seq<T>, keep: T -> bool)
    ensures forall x :: multiset(Filter(s, keep))[x] == if keep(x) then multiset(s)[x] else 0
  {
    if s != [] {
      FilterCounts(s[1..], keep);
      assert s == [s[0]] + s[1..];
      var head := if keep(s[0]) then [s[0]] else [];
      assert Filter(s, keep) == head + Filter(s[1..], keep);
      assert multiset(Filter(s, keep)) == multiset(head) + multiset(Filter(s[1..], keep));
      assert multiset(s) == multiset{s[0]} + multiset(s[1..]);
    }
  }

  /** The positions `ix` pick out `r` from `s` in order: they rise strictly,
      each holds an element that passes `keep`, `r` holds those elements in
      that order, and every position whose element passes is among them. */
  ghost predicate PicksInOrder<T>(r: seq<T>, s: seq<T>, keep: T -> bool, ix: seq<int>)
  {
    && |ix| == |r|
    && (forall i :: 0 <= i < |ix| ==> 0 <= ix[i] < |s| && keep(s[ix[i]]) && r[i] == s[ix[i]])
    && (forall i, j :: 0 <= i < j < |ix| ==> ix[i] < ix[j])
    && (forall k :: 0 <= k < |s| && keep(s[k]) ==> k in ix)
  }

  function Shifted(ix: seq<int>): seq<int>
  {
    seq(|ix|, i requires 0 <= i < |ix| => ix[i] + 1)
  }

  /** The positions of `s` whose element passes `keep`, in increasing order. */
  function KeptPositions<T>(s: seq<T>, keep: T -> bool): seq<int>
  {
    if s == [] then []
    else (if keep(s[0]) then [0] else []) + Shifted(KeptPositions(s[1..], keep))
  }

  /** The filter keeps the survivors in their original order: its result is
      read off the passing positions of `s`, from first to last. */
  lemma {:induction false} FilterInOrder<T(!new)>(s: seq<T>, keep: T -> bool)
    ensures PicksInOrder(Filter(s, keep), s, keep, KeptPositions(s, keep))
  {
    if s != [] {
      FilterInOrder(s[1..], keep);
      PicksInOrderStep(s, keep, Filter(s[1..], keep), KeptPositions(s[1..], keep));
      assert Filter(s, keep) == (if keep(s[0]) then [s[0]] else []) + Filter(s[1..], keep);
    }
  }

  /** Putting `s[0]` in front of the tail's picks, when it passes, and moving
      the tail's positions up by one picks the filter of `s` in order. */
  lemma PicksInOrderStep<T>(s: seq<T>, keep: T -> bool, rt: seq<T>, rest: seq<int>)
    requires s != [] && PicksInOrder(rt, s[1..], keep, rest)
    ensures PicksInOrder((if keep(s[0]) then [s[0]] else []) + rt, s, keep,
                         (if keep(s[0]) then [0] else []) + Shifted(rest))
  {
    var head: seq<int> := if keep(s[0]) then [0] else [];
    var r := (if keep(s[0]) then [s[0]] else []) + rt;
    StepPicks(s, keep, rt, rest, head, r);
    StepRises(s, keep, rt, rest, head);
    StepCovers(s, keep, rt, rest, head);
  }

  lemma StepPicks<T>(s: seq<T>, keep: T -> bool, rt: seq<T>, rest: seq<int>, head: seq<int>, r: seq<T>)
    requires s != [] && PicksInOrder(rt, s[1..], keep, rest)
    requires head == (if keep(s[0]) then [0] else [])
    requires r == (if keep(s[0]) then [s[0]] else []) + rt
    ensures |head + Shifted(rest)| == |r|
    ensures forall i :: 0 <= i < |head + Shifted(rest)| ==>
      var ix := head + Shifted(rest);
      0 <= ix[i] < |s| && keep(s[ix[i]]) && r[i] == s[ix[i]]
  {
    var ix := head + Shifted(rest);
    forall i | 0 <= i < |ix|
      ensures 0 <= ix[i] < |s| && keep(s[ix[i]]) && r[i] == s[ix[i]]
    {
      if i >= |head| {
        var j := i - |head|;
        assert ix[i] == rest[j] + 1;
        assert r[i] == rt[j];
        assert s[rest[j] + 1] == s[1..][rest[j]];
      }
    }
  }

  lemma StepRises<T>(s: seq<T>, keep: T -> bool, rt: seq<T>, rest: seq<int>, head: seq<int>)
    requires s != [] && PicksInOrder(rt, s[1..], keep, rest)
    requires head == (if keep(s[0]) then [0] else [])
    ensures forall i, j :: 0 <= i < j < |head + Shifted(rest)| ==>
      (head + Shifted(rest))[i] < (head + Shifted(rest))[j]
  {
    var ix := head + Shifted(rest);
    forall i, j | 0 <= i < j < |ix| ensures ix[i] < ix[j] {
      assert ix[j] == rest[j - |head|] + 1;
      if i >= |head| {
        assert ix[i] == rest[i - |head|] + 1;
      } else {
        assert 0 <= rest[j - |head|];
      }
    }
  }

  lemma StepCovers<T>(s: seq<T>, keep: T -> bool, rt: seq<T>, rest: seq<int>, head: seq<int>)
    requires s != [] && PicksInOrder(rt, s[1..], keep, rest)
    requires head == (if keep(s[0]) then [0] else [])
    ensures forall k :: 0 <= k < |s| && keep(s[k]) ==> k in head + Shifted(rest)
  {
    var ix := head + Shifted(rest);
    forall k | 0 <= k < |s| && keep(s[k]) ensures k in ix {
      if k == 0 {
        assert ix[0] == 0;
      } else {
        assert s[1..][k - 1] == s[k];
        var j :| 0 <= j < |rest| && rest[j] == k - 1;
        assert ix[|head| + j] == k;
      }
    }
  }

  lemma {:induction false} FilterKeepsAll<T(!new)>(s: seq<T>, keep: T -> bool)
    requires forall i :: 0 <= i < |s| ==> keep(s[i])
    ensures Filter(s, keep) == s
  {
    if s != [] {
      FilterKeepsAll(s[1..], keep);
      assert s == [s[0]] + s[1..];
    }
  }

  /** The entries dated `d`. */
  function OnDate<T(!new)>(date: T -> string, d: string): T -> bool
  {
    x => date(x) == d
  }

  /** Newest first: no entry is dated after an entry before it. */
  predicate NewestFirst<T(!new)>(s: seq<T>, date: T -> string)
  {
    forall i, j :: 0 <= i < j < |s| ==> Le(date(s[j]), date(s[i]))
  }

  /** Stable insertion of `x` in front of a newest-first list that came
      after it: `x` goes before every entry dated on or before it and after
      every entry dated later. */
  function Insert<T(!new)>(s: seq<T>, x: T, date: T -> string): (r: seq<T>)
    requires NewestFirst(s, date)
    ensures NewestFirst(r, date)
    ensures multiset(r) == multiset(s) + multiset{x}
  {
    if s == [] then
      [x]
    else if Le(date(s[0]), date(x)) then
      InsertInFront(s, x, date);
      [x] + s
    else
      var rest := Insert(s[1..], x, date);
      HeadStaysFirst(s, x, date, rest);
      assert s == [s[0]] + s[1..];
      [s[0]] + rest
  }

  lemma InsertInFront<T(!new)>(s: seq<T>, x: T, date: T -> string)
    requires NewestFirst(s, date) && s != [] && Le(date(s[0]), date(x))
    ensures NewestFirst([x] + s, date)
  {
    var r := [x] + s;
    forall j | 0 < j < |r| ensures Le(date(r[j]), date(x)) {
      if j > 1 {
        LeTransitive(date(s[j - 1]), date(s[0]), date(x));
      }
    }
    forall i, j | 0 <= i < j < |r| ensures Le(date(r[j]), date(r[i])) {
      if i > 0 {
        assert r[i] == s[i - 1] && r[j] == s[j - 1];
      }
    }
  }

  lemma HeadStaysFirst<T(!new)>(s: seq<T>, x: T, date: T -> string, rest: seq<T>)
    requires NewestFirst(s, date) && s != [] && !Le(date(s[0]), date(x))
    requires NewestFirst(rest, date) && multiset(rest) == multiset(s[1..]) + multiset{x}
    ensures NewestFirst([s[0]] + rest, date)
  {
    var r := [s[0]] + rest;
    forall j | 0 < j < |r| ensures Le(date(r[j]), date(s[0])) {
      assert r[j] == rest[j - 1];
      assert r[j] in multiset(rest);
      if r[j] == x {
        LeTotal(date(x), date(s[0]));
      } else {
        assert r[j] in multiset(s[1..]);
        var i :| 0 <= i < |s[1..]| && s[1..][i] == r[j];
        assert s[i + 1] == r[j];
      }
    }
    forall i, j | 0 <= i < j < |r| ensures Le(date(r[j]), date(r[i])) {
      if i > 0 {
        assert r[i] == rest[i - 1] && r[j] == rest[j - 1];
      }
    }
  }

  /** Filtering a list with `x` in front. */
  lemma FilterCons<T(!new)>(x: T, s: seq<T>, keep: T -> bool)
    ensures Filter([x] + s, keep) == (if keep(x) then [x] else []) + Filter(s, keep)
  {
    var r := [x] + s;
    assert r[0] == x && r[1..] == s;
  }

  /** Inserting `x` puts it first among the entries of its own date and
      leaves the entries of every other date as they were. */
  lemma {:induction false} InsertOnDate<T(!new)>(s: seq<T>, x: T, date: T -> string, d: string)
    requires NewestFirst(s, date)
    ensures Filter(Insert(s, x, date), OnDate(date, d)) == (if date(x) == d then [x] else []) + Filter(s, OnDate(date, d))
  {
    var keep := OnDate(date, d);
    if s == [] {
      FilterCons(x, s, keep);
      assert [x] + s == [x];
    } else if Le(date(s[0]), date(x)) {
      FilterCons(x, s, keep);
    } else {
      InsertOnDate(s[1..], x, date, d);
      LeReflexive(date(x));
      assert !(keep(x) && keep(s[0]));
      PassOverHead(s, x, keep, Insert(s[1..], x, date));
    }
  }

  /** The step of `InsertOnDate` where `x` goes past the newer head `s[0]`:
      the two are not both kept, so the head stays in front of what is kept. */
  lemma PassOverHead<T(!new)>(s: seq<T>, x: T, keep: T -> bool, rest: seq<T>)
    requires s != [] && !(keep(x) && keep(s[0]))
    requires Filter(rest, keep) == (if keep(x) then [x] else []) + Filter(s[1..], keep)
    ensures Filter([s[0]] + rest, keep) == (if keep(x) then [x] else []) + Filter(s, keep)
  {
    var tail := Filter(s[1..], keep);
    FilterCons(s[0], rest, keep);
    if keep(x) {
      assert Filter(s, keep) == [] + tail == tail;
      assert Filter([s[0]] + rest, keep) == [] + Filter(rest, keep);
    } else {
      assert Filter(rest, keep) == [] + tail == tail;
    }
  }

  /** `[...s].sort((a, b) => new Date(date(b)) - new Date(date(a)))`: a sort,
      newest first, that is a permutation of `s`. */
  function SortNewestFirst<T(!new)>(s: seq<T>, date: T -> string): (r: seq<T>)
    ensures NewestFirst(r, date)
    ensures multiset(r) == multiset(s)
  {
    if s == [] then []
    else
      assert s == [s[0]] + s[1..];
      Insert(SortNewestFirst(s[1..], date), s[0], date)
  }

  /** The sort is stable: the entries of any one date keep their order. */
  lemma {:induction false} SortIsStable<T(!new)>(s: seq<T>, date: T -> string, d: string)
    ensures Filter(SortNewestFirst(s, date), OnDate(date, d)) == Filter(s, OnDate(date, d))
  {
    if s != [] {
      SortIsStable(s[1..], date, d);
      InsertOnDate(SortNewestFirst(s[1..], date), s[0], date, d);
    }
  }

  /** Inserting `x` adds its amount to the total. */
  lemma {:induction false} InsertAddsAmount<T(!new)>(s: seq<T>, x: T, date: T -> string, amount: T -> real)
    requires NewestFirst(s, date)
    ensures Tally.SumAmounts(Insert(s, x, date), amount) == Tally.SumAmounts(s, amount) + amount(x)
  {
    if s == [] {
      Tally.SumAmountsCons(x, s, amount);
    } else if Le(date(s[0]), date(x)) {
      Tally.SumAmountsCons(x, s, amount);
    } else {
      InsertAddsAmount(s[1..], x, date, amount);
      Tally.SumAmountsCons(s[0], Insert(s[1..], x, date), amount);
      Tally.SumAmountsCons(s[0], s[1..], amount);
      assert s == [s[0]] + s[1..];
    }
  }

  /** Sorting changes no total: the sorted list sums to what the fetched list sums to. */
  lemma {:induction false} SortKeepsTotal<T(!new)>(s: seq<T>, date: T -> string, amount: T -> real)
    ensures Tally.SumAmounts(SortNewestFirst(s, date), amount) == Tally.SumAmounts(s, amount)
  {
    if s != [] {
      SortKeepsTotal(s[1..], date, amount);
      InsertAddsAmount(SortNewestFirst(s[1..], date), s[0], date, amount);
      Tally.SumAmountsCons(s[0], s[1..], amount);
      assert s == [s[0]] + s[1..];
    }
  }

  /** `|r| == |s|` and the membership of a permutation, from its multiset. */
  lemma PermutationFacts<T(!new)>(r: seq<T>, s: seq<T>)
    requires multiset(r) == multiset(s)
    ensures |r| == |s|
    ensures forall x :: x in r <==> x in s
  {
    assert |multiset(r)| == |multiset(s)|;
    forall x ensures x in r <==> x in s {
      assert x in r <==> x in multiset(r);
      assert x in s <==> x in multiset(s);
    }
  }

  /** The search `party(x).toLowerCase().includes(term.toLowerCase())`. */
  predicate Matches(party: string, term: string)
  {
    Contains(Lower(party), Lower(term))
  }

  /** The entries whose counterparty matches `term`. */
  function MatchesTerm<T(!new)>(party: T -> string, term: string): T -> bool
  {
    x => Matches(party(x), term)
  }

  /** The entries whose counterparty matches the search term, in their order. */
  function Search<T(!new)>(s: seq<T>, party: T -> string, term: string): (r: seq<T>)
    ensures forall x :: x in r <==> x in s && Matches(party(x), term)
    ensures forall x :: multiset(r)[x] == if Matches(party(x), term) then multiset(s)[x] else 0
    ensures multiset(r) <= multiset(s)
  {
    FilterMembers(s, MatchesTerm(party, term));
    FilterCounts(s, MatchesTerm(party, term));
    Filter(s, MatchesTerm(party, term))
  }

  /** An empty search keeps every entry, in order. */
  lemma SearchEmptyTerm<T(!new)>(s: seq<T>, party: T -> string)
    ensures Search(s, party, "") == s
  {
    assert Lower("") == "";
    forall i | 0 <= i < |s| ensures Matches(party(s[i]), "") {
      ContainsEmpty(Lower(party(s[i])));
    }
    FilterKeepsAll(s, MatchesTerm(party, ""));
  }

  /** Filtering keeps the survivors in their order, so a newest-first list
      stays newest first. */
  lemma {:induction false} FilterNewestFirst<T(!new)>(s: seq<T>, keep: T -> bool, date: T -> string)
    requires NewestFirst(s, date)
    ensures NewestFirst(Filter(s, keep), date)
  {
    if s != [] {
      FilterNewestFirst(s[1..], keep, date);
      FilterMembers(s[1..], keep);
      var t := Filter(s[1..], keep);
      var r := Filter(s, keep);
      if keep(s[0]) {
        assert r == [s[0]] + t;
        forall i, j | 0 <= i < j < |r| ensures Le(date(r[j]), date(r[i])) {
          assert r[j] == t[j - 1];
          if i == 0 {
            assert t[j - 1] in s[1..];
            var k :| 0 <= k < |s[1..]| && s[1..][k] == t[j - 1];
            assert s[k + 1] == r[j];
          } else {
            assert r[i] == t[i - 1];
          }
        }
      } else {
        assert r == t;
      }
    }
  }

  /** What a ledger page lists before it pages: the fetched entries whose
      counterparty matches the search, newest first. */
  function Listing<T(!new)>(s: seq<T>, date: T -> string, party: T -> string, term: string): (r: seq<T>)
    ensures NewestFirst(r, date)
    ensures forall x :: x in r <==> x in s && Matches(party(x), term)
    ensures forall x :: multiset(r)[x] == if Matches(party(x), term) then multiset(s)[x] else 0
    ensures multiset(r) <= multiset(s)
  {
    var sorted := SortNewestFirst(s, date);
    PermutationFacts(sorted, s);
    FilterNewestFirst(sorted, MatchesTerm(party, term), date);
    Search(sorted, party, term)
  }

  /** With an empty search the listing is every fetched entry, newest first. */
  lemma ListingWithoutSearch<T(!new)>(s: seq<T>, date: T -> string, party: T -> string)
    ensures Listing(s, date, party, "") == SortNewestFirst(s, date)
  {
    SearchEmptyTerm(SortNewestFirst(s, date), party);
  }

  /** With an empty search the page total is the total of every fetched entry. */
  lemma TotalWithoutSearch<T(!new)>(s: seq<T>, date: T -> string, party: T -> string, amount: T -> real)
    ensures Tally.SumAmounts(Listing(s, date, party, ""), amount) == Tally.SumAmounts(s, amount)
  {
    ListingWithoutSearch(s, date, party);
    SortKeepsTotal(s, date, amount);
  }

  /** Whatever the search, the listing's total is the total of the matching
      entries in the order they were fetched: sorting moves no amount. */
  lemma ListingTotal<T(!new)>(s: seq<T>, date: T -> string, party: T -> string, term: string, amount: T -> real)
    ensures Tally.SumAmounts(Listing(s, date, party, term), amount)
         == Tally.SumAmounts(Search(s, party, term), amount)
  {
    FilterSortTotal(s, date, MatchesTerm(party, term), amount);
  }

  lemma {:induction false} FilterSortTotal<T(!new)>(s: seq<T>, date: T -> string, keep: T -> bool, amount: T -> real)
    ensures Tally.SumAmounts(Filter(SortNewestFirst(s, date), keep), amount)
         == Tally.SumAmounts(Filter(s, keep), amount)
  {
    if s != [] {
      FilterSortTotal(s[1..], date, keep, amount);
      FilterInsertTotal(SortNewestFirst(s[1..], date), s[0], date, keep, amount);
      FilterHeadTotal(s, keep, amount);
    }
  }

  /** Filtering a list and summing it adds the head's amount when the head
      passes. */
  lemma FilterHeadTotal<T(!new)>(s: seq<T>, keep: T -> bool, amount: T -> real)
    requires s != []
    ensures Tally.SumAmounts(Filter(s, keep), amount)
         == (if keep(s[0]) then amount(s[0]) else 0.0) + Tally.SumAmounts(Filter(s[1..], keep), amount)
  {
    var t := Filter(s[1..], keep);
    if keep(s[0]) {
      assert Filter(s, keep) == [s[0]] + t;
      Tally.SumAmountsCons(s[0], t, amount);
    } else {
      assert Filter(s, keep) == [] + t == t;
    }
  }

  lemma {:induction false} FilterInsertTotal<T(!new)>(s: seq<T>, x: T, date: T -> string, keep: T -> bool, amount: T -> real)
    requires NewestFirst(s, date)
    ensures Tally.SumAmounts(Filter(Insert(s, x, date), keep), amount)
         == Tally.SumAmounts(Filter(s, keep), amount) + (if keep(x) then amount(x) else 0.0)
  {
    var r := Insert(s, x, date);
    if s == [] {
      assert r == [x];
      FilterHeadTotal(r, keep, amount);
      assert r[1..] == [];
    } else if Le(date(s[0]), date(x)) {
      assert r == [x] + s && r[1..] == s;
      FilterHeadTotal(r, keep, amount);
    } else {
      FilterInsertTotal(s[1..], x, date, keep, amount);
      assert r == [s[0]] + Insert(s[1..], x, date) && r[1..] == Insert(s[1..], x, date);
      FilterHeadTotal(r, keep, amount);
      FilterHeadTotal(s, keep, amount);
    }
  }

  /** `Math.ceil(n / k)`: the fewest pages of `k` entries that hold `n`. */
  function PageCount(n: int, k: int): (r: int)
    requires n >= 0 && k >= 1
    ensures r >= 0 && r * k >= n
    ensures r > 0 ==> (r - 1) * k < n
    ensures r == 0 <==> n == 0
  {
    var q := (n + k - 1) / k;
    var t := (n + k - 1) % k;
    assert n + k - 1 == q * k + t;
    assert (q - 1) * k == q * k - k;
    if q < 0 then
      assert false; 0
    else q
  }

  function Min(a: int, b: int): int
  {
    if a <= b then a else b
  }

  /** `s.slice(lo, lo + k)`: at most `k` entries from index `lo` on. */
  function Window<T>(s: seq<T>, lo: int, k: int): (r: seq<T>)
    requires lo >= 0 && k >= 1
    ensures |r| == if lo >= |s| then 0 else Min(k, |s| - lo)
    ensures forall j :: 0 <= j < |r| ==> lo + j < |s| && r[j] == s[lo + j]
  {
    if lo >= |s| then [] else s[lo..Min(lo + k, |s|)]
  }

  /** `s.slice((p - 1) * k, p * k)`: page `p` of `k` entries. */
  function PageOf<T(!new)>(s: seq<T>, p: int, k: int): (r: seq<T>)
    requires p >= 1 && k >= 1
    ensures |r| <= k
    ensures |r| == if (p - 1) * k >= |s| then 0 else Min(k, |s| - (p - 1) * k)
    ensures forall j :: 0 <= j < |r| ==> (p - 1) * k + j < |s| && r[j] == s[(p - 1) * k + j]
  {
    MulNonNegative(p - 1, k);
    Window(s, (p - 1) * k, k)
  }

  /** Pages 1 to `n`, one after another. */
  function Joined<T(!new)>(s: seq<T>, k: int, n: int): seq<T>
    requires k >= 1 && n >= 0
  {
    if n == 0 then [] else Joined(s, k, n - 1) + PageOf(s, n, k)
  }

  lemma {:induction false} JoinedPrefix<T(!new)>(s: seq<T>, k: int, n: int)
    requires k >= 1 && n >= 0
    ensures Joined(s, k, n) == s[..Min(n * k, |s|)]
  {
    if n > 0 {
      JoinedPrefix(s, k, n - 1);
      var lo := (n - 1) * k;
      assert n * k == lo + k;
      MulNonNegative(n - 1, k);
      assert PageOf(s, n, k) == Window(s, lo, k);
      JoinStep(s, lo, k);
    }
  }

  /** The prefix up to `lo` followed by the window at `lo` is the prefix up
      to `lo + k`. */
  lemma JoinStep<T>(s: seq<T>, lo: int, k: int)
    requires lo >= 0 && k >= 1
    ensures s[..Min(lo, |s|)] + Window(s, lo, k) == s[..Min(lo + k, |s|)]
  {
    if lo < |s| {
      assert s[..Min(lo + k, |s|)] == s[..lo] + s[lo..Min(lo + k, |s|)];
    }
  }

  /** The pages 1 to `PageCount` hold the whole list, in order, each entry once. */
  lemma PagesPartition<T(!new)>(s: seq<T>, k: int)
    requires k >= 1
    ensures Joined(s, k, PageCount(|s|, k)) == s
  {
    JoinedPrefix(s, k, PageCount(|s|, k));
  }

  /** A page in 1..PageCount shows something; a page past it shows nothing. */
  lemma PageEmptiness<T(!new)>(s: seq<T>, p: int, k: int)
    requires p >= 1 && k >= 1
    ensures PageOf(s, p, k) == [] <==> p > PageCount(|s|, k)
  {
    var n := PageCount(|s|, k);
    var lo := (p - 1) * k;
    if p <= n {
      MulNonNegative(n - p, k);
      assert (n - 1) * k - lo == (n - p) * k;
    } else {
      MulNonNegative(p - 1 - n, k);
      assert lo - n * k == (p - 1 - n) * k;
    }
  }

  lemma MulNonNegative(a: int, b: int)
    requires a >= 0 && b >= 0
    ensures a * b >= 0
  {
  }

  datatype Key = ArrowRight | ArrowLeft | OtherKey

  /** The arrow-key handler: right moves on while there is a next page, left
      moves back while there is a previous one. */
  function NextPage(key: Key, page: int, total: int): (r: int)
    ensures 1 <= page <= total ==> 1 <= r <= total
    ensures page >= 1 ==> r >= 1
    ensures r == page + 1 <==> key == ArrowRight && page < total
    ensures r == page - 1 <==> key == ArrowLeft && page > 1
    ensures r == page <==> !(key == ArrowRight && page < total) && !(key == ArrowLeft && page > 1)
  {
    if key == ArrowRight && page < total then page + 1
    else if key == ArrowLeft && page > 1 then page - 1
    else page
  }

  /** The page sizes the selector offers. */
  const PageSizes := [5, 10, 15, 20]
}
