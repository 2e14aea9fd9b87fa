/**
 * `loansByFriend` of src/pages/FriendlyLoans.tsx: the per-friend ledger.
 * Loans whose friend is unknown are dropped; the others are grouped by
 * friend into the loans given and taken, the outstanding totals in each
 * direction (paid loans excluded), the count of active loans and the net
 * balance; the groups come out ordered by friend name.
 *
 * The specification is a set of filters over the loan list (`LoansOf`,
 * `GivenOnly`, `TakenOnly`) and sums over them; the method below builds the
 * same groups the way the page does, by mutating a dictionary in a loop.
 */
module LoanLedger {
  import opened Wrappers
  import opened FriendlyLoans

  /** One entry of `loansByFriend`. */
  datatype FriendGroup = FriendGroup(
    friend: Friend,
    loansGiven: seq<Loan>,
    loansTaken: seq<Loan>,
    totalGiven: real,
    totalTaken: real,
    netBalance: real,
    activeLoans: nat)

  /** A loan the ledger keeps: it names a friend, and that friend is in the list. */
  predicate Kept(loan: Loan, friends: seq<Friend>) {
    FriendKey(loan) != "" && FindFriend(friends, FriendKey(loan)).Some?
  }

  /** The kept loans of friend `k`, in list order. */
  function LoansOf(loans: seq<Loan>, friends: seq<Friend>, k: string): seq<Loan> {
    if loans == [] then []
    else
      var last := loans[|loans| - 1];
      LoansOf(loans[..|loans| - 1], friends, k) + (if Kept(last, friends) && FriendKey(last) == k then [last] else [])
  }

  /** `LoansOf` holds exactly the kept loans of friend `k`. */
  lemma {:induction false} LoansOfMembers(loans: seq<Loan>, friends: seq<Friend>, k: string)
    ensures forall l :: l in LoansOf(loans, friends, k) <==> l in loans && Kept(l, friends) && FriendKey(l) == k
  {
    if loans != [] {
      LoansOfMembers(loans[..|loans| - 1], friends, k);
      assert loans == loans[..|loans| - 1] + [loans[|loans| - 1]];
    }
  }

  /** The loans of type `given`, in order. */
  function GivenOnly(ls: seq<Loan>): seq<Loan> {
    if ls == [] then []
    else GivenOnly(ls[..|ls| - 1]) + (if ls[|ls| - 1].loanType == "given" then [ls[|ls| - 1]] else [])
  }

  /** The loans of any other type: the page's `else` branch files them as taken. */
  function TakenOnly(ls: seq<Loan>): seq<Loan> {
    if ls == [] then []
    else TakenOnly(ls[..|ls| - 1]) + (if ls[|ls| - 1].loanType != "given" then [ls[|ls| - 1]] else [])
  }

  /** The two filters split the list by type. */
  lemma {:induction false} FiltersMembers(ls: seq<Loan>)
    ensures forall l :: l in GivenOnly(ls) <==> l in ls && l.loanType == "given"
    ensures forall l :: l in TakenOnly(ls) <==> l in ls && l.loanType != "given"
  {
    if ls != [] {
      FiltersMembers(ls[..|ls| - 1]);
      assert ls == ls[..|ls| - 1] + [ls[|ls| - 1]];
    }
  }

  /** Every loan goes to exactly one of the two filters: together they hold the list's loans, each as often. */
  lemma {:induction false} FiltersPartition(ls: seq<Loan>)
    ensures |GivenOnly(ls)| + |TakenOnly(ls)| == |ls|
    ensures multiset(GivenOnly(ls)) + multiset(TakenOnly(ls)) == multiset(ls)
  {
    if ls != [] {
      var init, last := ls[..|ls| - 1], ls[|ls| - 1];
      FiltersPartition(init);
      assert ls == init + [last];
      FiltersSnoc(init, last);
    }
  }

  /** What a loan adds to its direction's total: nothing once paid, otherwise what remains (negative if overpaid). */
  function Outstanding(loan: Loan): (r: real)
    ensures loan.status == "paid" ==> r == 0.0
    ensures loan.status != "paid" ==> r == loan.amount - Repaid(loan)
  {
    if loan.status != "paid" then RemainingOnLoan(loan) else 0.0
  }

  function SumOutstanding(ls: seq<Loan>): real {
    if ls == [] then 0.0 else SumOutstanding(ls[..|ls| - 1]) + Outstanding(ls[|ls| - 1])
  }

  function CountActive(ls: seq<Loan>): (r: nat)
    ensures r <= |ls|
  {
    if ls == [] then 0 else CountActive(ls[..|ls| - 1]) + (if IsActive(ls[|ls| - 1]) then 1 else 0)
  }

  /** The friends that get a group, in the order their first kept loan appears (the key order of `grouped`). */
  function GroupKeys(loans: seq<Loan>, friends: seq<Friend>): seq<string> {
    if loans == [] then []
    else
      var keys := GroupKeys(loans[..|loans| - 1], friends);
      var last := loans[|loans| - 1];
      if Kept(last, friends) && FriendKey(last) !in keys then keys + [FriendKey(last)] else keys
  }

  predicate NoDuplicates(keys: seq<string>) {
    forall i, j :: 0 <= i < j < |keys| ==> keys[i] != keys[j]
  }

  /** A friend has a group exactly when some kept loan names it; no friend has two. */
  lemma {:induction false} GroupKeysFacts(loans: seq<Loan>, friends: seq<Friend>)
    ensures NoDuplicates(GroupKeys(loans, friends))
    ensures forall k :: k in GroupKeys(loans, friends) <==> LoansOf(loans, friends, k) != []
  {
    if loans != [] {
      var init := loans[..|loans| - 1];
      GroupKeysFacts(init, friends);
      var last := loans[|loans| - 1];
      forall k ensures k in GroupKeys(loans, friends) <==> LoansOf(loans, friends, k) != [] {
        if Kept(last, friends) && FriendKey(last) == k {
          assert LoansOf(loans, friends, k) == LoansOf(init, friends, k) + [last];
        }
      }
    }
  }

  /** The group of friend `k` after the page's first pass: everything but the net balance. */
  function Accumulated(loans: seq<Loan>, friends: seq<Friend>, k: string, friend: Friend): FriendGroup {
    var ls := LoansOf(loans, friends, k);
    FriendGroup(friend, GivenOnly(ls), TakenOnly(ls),
      SumOutstanding(GivenOnly(ls)), SumOutstanding(TakenOnly(ls)), 0.0, CountActive(ls))
  }

  /** The second pass: `group.netBalance = group.totalGiven - group.totalTaken`. */
  function Settled(g: FriendGroup): (r: FriendGroup)
    ensures r.netBalance == r.totalGiven - r.totalTaken
    ensures r.(netBalance := g.netBalance) == g
  {
    g.(netBalance := g.totalGiven - g.totalTaken)
  }

  /** The group the page shows for friend `k`. */
  function ExpectedGroup(loans: seq<Loan>, friends: seq<Friend>, k: string): FriendGroup
    requires FindFriend(friends, k).Some?
  {
    Settled(Accumulated(loans, friends, k, FindFriend(friends, k).value))
  }

  lemma LoansOfSnoc(loans: seq<Loan>, friends: seq<Friend>, x: Loan, k: string)
    ensures Kept(x, friends) && FriendKey(x) == k ==> LoansOf(loans + [x], friends, k) == LoansOf(loans, friends, k) + [x]
    ensures !(Kept(x, friends) && FriendKey(x) == k) ==> LoansOf(loans + [x], friends, k) == LoansOf(loans, friends, k)
  {
    assert (loans + [x])[..|loans|] == loans;
    assert LoansOf(loans, friends, k) + [] == LoansOf(loans, friends, k);
  }

  lemma GroupKeysSnoc(loans: seq<Loan>, friends: seq<Friend>, x: Loan)
    ensures var keys := GroupKeys(loans, friends);
      GroupKeys(loans + [x], friends) ==
        if Kept(x, friends) && FriendKey(x) !in keys then keys + [FriendKey(x)] else keys
  {
    assert (loans + [x])[..|loans|] == loans;
  }

  lemma FiltersSnoc(ls: seq<Loan>, x: Loan)
    ensures x.loanType == "given" ==> GivenOnly(ls + [x]) == GivenOnly(ls) + [x] && TakenOnly(ls + [x]) == TakenOnly(ls)
    ensures x.loanType != "given" ==> GivenOnly(ls + [x]) == GivenOnly(ls) && TakenOnly(ls + [x]) == TakenOnly(ls) + [x]
    ensures CountActive(ls + [x]) == CountActive(ls) + (if IsActive(x) then 1 else 0)
  {
    assert (ls + [x])[..|ls|] == ls;
    assert GivenOnly(ls) + [] == GivenOnly(ls);
    assert TakenOnly(ls) + [] == TakenOnly(ls);
  }

  lemma SumOutstandingSnoc(ls: seq<Loan>, x: Loan)
    ensures SumOutstanding(ls + [x]) == SumOutstanding(ls) + Outstanding(x)
  {
    assert (ls + [x])[..|ls|] == ls;
  }

  /** A loan that is not kept for friend `k` leaves its group as it was. */
  lemma AccumulatedAppendOther(loans: seq<Loan>, friends: seq<Friend>, x: Loan, k: string, friend: Friend)
    requires !(Kept(x, friends) && FriendKey(x) == k)
    ensures Accumulated(loans + [x], friends, k, friend) == Accumulated(loans, friends, k, friend)
  {
    LoansOfSnoc(loans, friends, x, k);
  }

  /** A kept loan of friend `k` joins the list of its direction and adds what it still owes to that total. */
  lemma AccumulatedAppendOwn(loans: seq<Loan>, friends: seq<Friend>, x: Loan, k: string, friend: Friend)
    requires Kept(x, friends) && FriendKey(x) == k
    ensures Filed(Accumulated(loans, friends, k, friend), x, Accumulated(loans + [x], friends, k, friend))
  {
    LoansOfSnoc(loans, friends, x, k);
    var ls := LoansOf(loans, friends, k);
    FiltersSnoc(ls, x);
    if x.loanType == "given" {
      SumOutstandingSnoc(GivenOnly(ls), x);
    } else {
      SumOutstandingSnoc(TakenOnly(ls), x);
    }
  }

  /** A friend without kept loans would have an empty group. */
  lemma AccumulatedNone(loans: seq<Loan>, friends: seq<Friend>, k: string, friend: Friend)
    requires LoansOf(loans, friends, k) == []
    ensures Accumulated(loans, friends, k, friend) == FriendGroup(friend, [], [], 0.0, 0.0, 0.0, 0)
  {
  }

  // ---------------------------------------------------------------------------
  // Ordering by friend name

  /**
   * Code-unit lexicographic order, standing for `localeCompare(...) <= 0`.
   * The proofs below use only that it is total and transitive.
   */
  predicate NameLe(a: string, b: string)
    decreases |a|
  {
    a == [] || (b != [] && (a[0] < b[0] || (a[0] == b[0] && NameLe(a[1..], b[1..]))))
  }

  lemma {:induction false} NameLeTotal(a: string, b: string)
    ensures NameLe(a, b) || NameLe(b, a)
    decreases |a|
  {
    if a != [] && b != [] && a[0] == b[0] {
      NameLeTotal(a[1..], b[1..]);
    }
  }

  lemma {:induction false} NameLeTransitive(a: string, b: string, c: string)
    requires NameLe(a, b) && NameLe(b, c)
    ensures NameLe(a, c)
    decreases |a|
  {
    if a != [] && b != [] && c != [] && a[0] == b[0] == c[0] {
      NameLeTransitive(a[1..], b[1..], c[1..]);
    }
  }

  predicate SortedByName(s: seq<FriendGroup>) {
    forall i, j :: 0 <= i < j < |s| ==> NameLe(s[i].friend.name, s[j].friend.name)
  }

  /** Put `g` before the first group it does not sort after (so equal names keep their order). */
  function Insert(g: FriendGroup, s: seq<FriendGroup>): (r: seq<FriendGroup>)
    ensures multiset(r) == multiset(s) + multiset{g}
  {
    if s == [] then [g]
    else if NameLe(g.friend.name, s[0].friend.name) then [g] + s
    else
      assert s == [s[0]] + s[1..];
      [s[0]] + Insert(g, s[1..])
  }

  /** `Array.prototype.sort` with the name comparator: a stable insertion sort. */
  function SortByName(s: seq<FriendGroup>): (r: seq<FriendGroup>)
    ensures multiset(r) == multiset(s)
  {
    if s == [] then []
    else
      assert s == [s[0]] + s[1..];
      Insert(s[0], SortByName(s[1..]))
  }

  lemma {:induction false} InsertSorted(g: FriendGroup, s: seq<FriendGroup>)
    requires SortedByName(s)
    ensures SortedByName(Insert(g, s))
  {
    if s == [] {
    } else if NameLe(g.friend.name, s[0].friend.name) {
      forall j | 0 <= j < |s| ensures NameLe(g.friend.name, s[j].friend.name) {
        if j > 0 { NameLeTransitive(g.friend.name, s[0].friend.name, s[j].friend.name); }
      }
    } else {
      NameLeTotal(g.friend.name, s[0].friend.name);
      var rest := Insert(g, s[1..]);
      InsertSorted(g, s[1..]);
      InsertMembers(g, s[1..]);
      forall h | h in rest ensures NameLe(s[0].friend.name, h.friend.name) {
        if h != g {
          var j :| 0 <= j < |s[1..]| && s[1..][j] == h;
          assert s[j + 1] == h;
        }
      }
      SortedCons(s[0], rest);
    }
  }

  /** A group that sorts before every group of a sorted list can be put in front of it. */
  lemma SortedCons(first: FriendGroup, rest: seq<FriendGroup>)
    requires SortedByName(rest)
    requires forall h :: h in rest ==> NameLe(first.friend.name, h.friend.name)
    ensures SortedByName([first] + rest)
  {
    var r := [first] + rest;
    forall i, j | 0 <= i < j < |r| ensures NameLe(r[i].friend.name, r[j].friend.name) {
      if i == 0 {
        assert r[j] == rest[j - 1];
        assert r[j] in rest;
      } else {
        assert r[i] == rest[i - 1] && r[j] == rest[j - 1];
      }
    }
  }

  lemma {:induction false} SortByNameSorted(s: seq<FriendGroup>)
    ensures SortedByName(SortByName(s))
  {
    if s != [] {
      SortByNameSorted(s[1..]);
      InsertSorted(s[0], SortByName(s[1..]));
    }
  }

  /** No friend appears twice. */
  predicate DistinctFriends(s: seq<FriendGroup>) {
    forall i, j :: 0 <= i < j < |s| ==> s[i].friend.id != s[j].friend.id
  }

  /** Putting a friend not yet present in front of a list of distinct friends keeps them distinct. */
  lemma DistinctCons(x: FriendGroup, t: seq<FriendGroup>)
    requires DistinctFriends(t)
    requires forall h :: h in t ==> h.friend.id != x.friend.id
    ensures DistinctFriends([x] + t)
  {
    forall i, j | 0 <= i < j < |[x] + t| ensures ([x] + t)[i].friend.id != ([x] + t)[j].friend.id {
      assert ([x] + t)[j] == t[j - 1];
      if i > 0 { assert ([x] + t)[i] == t[i - 1]; }
    }
  }

  lemma InsertMembers(g: FriendGroup, s: seq<FriendGroup>)
    ensures forall h :: h in Insert(g, s) <==> h == g || h in s
  {
    assert forall h :: h in Insert(g, s) <==> h in multiset(Insert(g, s));
  }

  lemma {:induction false} InsertDistinct(g: FriendGroup, s: seq<FriendGroup>)
    requires DistinctFriends(s)
    requires forall h :: h in s ==> h.friend.id != g.friend.id
    ensures DistinctFriends(Insert(g, s))
  {
    if s == [] {
    } else if NameLe(g.friend.name, s[0].friend.name) {
      DistinctCons(g, s);
    } else {
      var tail := s[1..];
      assert DistinctFriends(tail) by {
        forall i, j | 0 <= i < j < |tail| ensures tail[i].friend.id != tail[j].friend.id {
          assert tail[i] == s[i + 1] && tail[j] == s[j + 1];
        }
      }
      InsertDistinct(g, tail);
      InsertMembers(g, tail);
      forall h | h in Insert(g, tail) ensures h.friend.id != s[0].friend.id {
        if h != g {
          var j :| 0 <= j < |tail| && tail[j] == h;
          assert s[j + 1] == h;
        }
      }
      DistinctCons(s[0], Insert(g, tail));
    }
  }

  /** Sorting keeps friends distinct. */
  lemma {:induction false} SortByNameDistinct(s: seq<FriendGroup>)
    requires DistinctFriends(s)
    ensures DistinctFriends(SortByName(s))
  {
    if s != [] {
      SortByNameDistinct(s[1..]);
      var rest := SortByName(s[1..]);
      forall h | h in rest ensures h.friend.id != s[0].friend.id {
        assert h in multiset(s[1..]);
        var j :| 0 <= j < |s[1..]| && s[1..][j] == h;
        assert s[0].friend.id != s[j + 1].friend.id;
      }
      InsertDistinct(s[0], rest);
    }
  }

  // ---------------------------------------------------------------------------
  // The page's computation

  function Ids(r: seq<FriendGroup>): (ids: seq<string>)
    ensures |ids| == |r| && forall i :: 0 <= i < |r| ==> ids[i] == r[i].friend.id
  {
    seq(|r|, i requires 0 <= i < |r| => r[i].friend.id)
  }

  /**
   * `updated` is `group` with `loan` filed in it: appended to the loans of its
   * direction, what it still owes added to that direction's total, and the
   * active count raised by one if it is active; nothing else changes.
   */
  predicate Filed(group: FriendGroup, loan: Loan, updated: FriendGroup) {
    && updated.friend == group.friend && updated.netBalance == group.netBalance
    && updated.activeLoans == group.activeLoans + (if IsActive(loan) then 1 else 0)
    && (loan.loanType == "given" ==>
          && updated.loansGiven == group.loansGiven + [loan] && updated.totalGiven == group.totalGiven + Outstanding(loan)
          && updated.loansTaken == group.loansTaken && updated.totalTaken == group.totalTaken)
    && (loan.loanType != "given" ==>
          && updated.loansTaken == group.loansTaken + [loan] && updated.totalTaken == group.totalTaken + Outstanding(loan)
          && updated.loansGiven == group.loansGiven && updated.totalGiven == group.totalGiven)
  }

  lemma FiledUnique(group: FriendGroup, loan: Loan, u: FriendGroup, v: FriendGroup)
    requires Filed(group, loan, u) && Filed(group, loan, v)
    ensures u == v
  {
  }

  /**
   * The body of the first pass for a kept loan: file it under its direction
   * (any type but `given` counts as taken), add what remains of it to that
   * direction's total unless it is paid, and count it if it is active.
   */
  method AddLoan(group: FriendGroup, loan: Loan) returns (updated: FriendGroup)
    ensures Filed(group, loan, updated)
  {
    var remainingOnLoan := RemainingOnLoan(loan);
    updated := group;
    if loan.loanType == "given" {
      updated := updated.(loansGiven := updated.loansGiven + [loan]);
      if loan.status != "paid" {
        updated := updated.(totalGiven := updated.totalGiven + remainingOnLoan);
      }
    } else {
      updated := updated.(loansTaken := updated.loansTaken + [loan]);
      if loan.status != "paid" {
        updated := updated.(totalTaken := updated.totalTaken + remainingOnLoan);
      }
    }
    if loan.status == "pending" || loan.status == "partially_paid" {
      updated := updated.(activeLoans := updated.activeLoans + 1);
    }
  }

  /** The state of the first pass after the loans `seen`: `grouped` holds the right group for each key, `keys` in insertion order. */
  ghost predicate GroupsMatch(grouped: map<string, FriendGroup>, keys: seq<string>, seen: seq<Loan>, friends: seq<Friend>) {
    && keys == GroupKeys(seen, friends)
    && (forall k :: k in grouped <==> k in keys)
    && (forall k :: k in grouped ==>
          FindFriend(friends, k).Some? && grouped[k] == Accumulated(seen, friends, k, FindFriend(friends, k).value))
  }

  /** A loan the ledger drops changes nothing. */
  lemma GroupsMatchDropped(grouped: map<string, FriendGroup>, keys: seq<string>, seen: seq<Loan>, friends: seq<Friend>, loan: Loan)
    requires GroupsMatch(grouped, keys, seen, friends) && !Kept(loan, friends)
    ensures GroupsMatch(grouped, keys, seen + [loan], friends)
  {
    GroupKeysSnoc(seen, friends, loan);
    forall k | k in grouped
      ensures grouped[k] == Accumulated(seen + [loan], friends, k, FindFriend(friends, k).value)
    {
      AccumulatedAppendOther(seen, friends, loan, k, FindFriend(friends, k).value);
    }
  }

  /** Filing a kept loan in its friend's group, opening the group if this is the friend's first loan. */
  lemma GroupsMatchFiled(grouped: map<string, FriendGroup>, keys: seq<string>, seen: seq<Loan>, friends: seq<Friend>, loan: Loan, group: FriendGroup)
    requires GroupsMatch(grouped, keys, seen, friends) && Kept(loan, friends)
    requires group == Accumulated(seen + [loan], friends, FriendKey(loan), FindFriend(friends, FriendKey(loan)).value)
    ensures GroupsMatch(grouped[FriendKey(loan) := group],
      if FriendKey(loan) in grouped then keys else keys + [FriendKey(loan)], seen + [loan], friends)
  {
    var key := FriendKey(loan);
    var grouped' := grouped[key := group];
    var keys' := if key in grouped then keys else keys + [key];
    GroupKeysSnoc(seen, friends, loan);
    assert keys' == GroupKeys(seen + [loan], friends);
    assert forall k :: k in grouped' <==> k in keys';
    forall k | k in grouped'
      ensures FindFriend(friends, k).Some? && grouped'[k] == Accumulated(seen + [loan], friends, k, FindFriend(friends, k).value)
    {
      if k != key {
        AccumulatedAppendOther(seen, friends, loan, k, FindFriend(friends, k).value);
      }
    }
    assert GroupsMatch(grouped', keys', seen + [loan], friends);
  }

  lemma UpdateTwice<K, V>(m: map<K, V>, k: K, a: V, b: V)
    ensures m[k := a][k := b] == m[k := b]
  {
  }

  /**
   * One step of the first pass for a loan whose friend is known: open the
   * friend's group on their first loan, then file the loan in it.
   */
  method FileLoan(grouped: map<string, FriendGroup>, keys: seq<string>, ghost seen: seq<Loan>, friends: seq<Friend>, loan: Loan, friend: Friend)
    returns (grouped': map<string, FriendGroup>, keys': seq<string>)
    requires GroupsMatch(grouped, keys, seen, friends)
    requires FriendKey(loan) != "" && FindFriend(friends, FriendKey(loan)) == Some(friend)
    ensures GroupsMatch(grouped', keys', seen + [loan], friends)
  {
    var friendId := FriendKey(loan);
    grouped', keys' := grouped, keys;
    if friendId !in grouped' {
      GroupKeysFacts(seen, friends);
      AccumulatedNone(seen, friends, friendId, friend);
      grouped' := grouped'[friendId := FriendGroup(friend, [], [], 0.0, 0.0, 0.0, 0)];
      keys' := keys' + [friendId];
    }
    var group := AddLoan(grouped'[friendId], loan);
    AccumulatedAppendOwn(seen, friends, loan, friendId, friend);
    FiledUnique(grouped'[friendId], loan, group, Accumulated(seen + [loan], friends, friendId, friend));
    GroupsMatchFiled(grouped, keys, seen, friends, loan, group);
    if friendId !in grouped {
      UpdateTwice(grouped, friendId, grouped'[friendId], group);
    }
    grouped' := grouped'[friendId := group];
  }

  /**
   * The first pass of `loansByFriend`: walk the loans, skip those whose
   * friend is missing or unknown, and file each of the others in its
   * friend's group, creating the group on the friend's first loan.
   * `keys` is the insertion order of `grouped`.
   */
  method GroupByFriend(loans: seq<Loan>, friends: seq<Friend>) returns (grouped: map<string, FriendGroup>, keys: seq<string>)
    ensures keys == GroupKeys(loans, friends)
    ensures forall k :: k in grouped <==> k in keys
    ensures forall k :: k in grouped ==>
      FindFriend(friends, k).Some? && grouped[k] == Accumulated(loans, friends, k, FindFriend(friends, k).value)
  {
    grouped := map[];
    keys := [];
    for i := 0 to |loans|
      invariant GroupsMatch(grouped, keys, loans[..i], friends)
    {
      var loan := loans[i];
      assert loans[..i + 1] == loans[..i] + [loan];
      var friendId := FriendKey(loan);
      if friendId == "" || FindFriend(friends, friendId).None? {
        GroupsMatchDropped(grouped, keys, loans[..i], friends, loan);
      } else {
        grouped, keys := FileLoan(grouped, keys, loans[..i], friends, loan, FindFriend(friends, friendId).value);
      }
    }
    assert loans[..|loans|] == loans;
  }

  /** The second pass: each group's net balance is what is owed to the user minus what the user owes. */
  method SettleGroups(groups: seq<FriendGroup>) returns (settled: seq<FriendGroup>)
    ensures |settled| == |groups|
    ensures forall t :: 0 <= t < |groups| ==> settled[t] == Settled(groups[t])
  {
    settled := groups;
    for j := 0 to |settled|
      invariant |settled| == |groups|
      invariant forall t :: 0 <= t < j ==> settled[t] == Settled(groups[t])
      invariant forall t :: j <= t < |settled| ==> settled[t] == groups[t]
    {
      settled := settled[j := settled[j].(netBalance := settled[j].totalGiven - settled[j].totalTaken)];
    }
  }

  /**
   * `loansByFriend`: empty while either list is loading; otherwise one group
   * per friend that some kept loan names, each group as `ExpectedGroup`
   * describes it, ordered by friend name.
   */
  method LoansByFriend(loans: seq<Loan>, friends: seq<Friend>, isLoadingLoans: bool, isLoadingFriends: bool)
    returns (r: seq<FriendGroup>)
    ensures isLoadingLoans || isLoadingFriends ==> r == []
    ensures !(isLoadingLoans || isLoadingFriends) ==>
      && (forall k :: k in Ids(r) <==> LoansOf(loans, friends, k) != [])
      && (forall g :: g in r ==> FindFriend(friends, g.friend.id).Some? && g == ExpectedGroup(loans, friends, g.friend.id))
      && DistinctFriends(r)
      && SortedByName(r)
  {
    if isLoadingLoans || isLoadingFriends {
      return [];
    }
    var grouped, keys := GroupByFriend(loans, friends);
    // `Object.values(grouped)`, in key insertion order.
    var values := seq(|keys|, j requires 0 <= j < |keys| => grouped[keys[j]]);
    var groups := SettleGroups(values);
    SettledGroupsMatch(loans, friends, grouped, keys, values, groups);
    r := SortByName(groups);
    SortByNameSorted(groups);
    SortByNameDistinct(groups);
    PermutationKeepsMembers(groups, r);
  }

  /** The settled values of the first pass are the expected groups, one per key, in key order. */
  lemma SettledGroupsMatch(loans: seq<Loan>, friends: seq<Friend>, grouped: map<string, FriendGroup>, keys: seq<string>,
                           values: seq<FriendGroup>, groups: seq<FriendGroup>)
    requires keys == GroupKeys(loans, friends)
    requires forall k :: k in grouped <==> k in keys
    requires forall k :: k in grouped ==>
      FindFriend(friends, k).Some? && grouped[k] == Accumulated(loans, friends, k, FindFriend(friends, k).value)
    requires |values| == |keys| && forall j :: 0 <= j < |keys| ==> values[j] == grouped[keys[j]]
    requires |groups| == |values| && forall t :: 0 <= t < |values| ==> groups[t] == Settled(values[t])
    ensures Ids(groups) == keys
    ensures DistinctFriends(groups)
    ensures forall k :: k in Ids(groups) <==> LoansOf(loans, friends, k) != []
    ensures forall g :: g in groups ==> FindFriend(friends, g.friend.id).Some? && g == ExpectedGroup(loans, friends, g.friend.id)
  {
    GroupKeysFacts(loans, friends);
    forall t | 0 <= t < |groups|
      ensures FindFriend(friends, keys[t]).Some? && groups[t] == ExpectedGroup(loans, friends, keys[t])
    {
      assert keys[t] in grouped;
    }
    assert forall t :: 0 <= t < |groups| ==> groups[t].friend.id == keys[t];
    assert Ids(groups) == keys;
    forall g | g in groups ensures FindFriend(friends, g.friend.id).Some? && g == ExpectedGroup(loans, friends, g.friend.id) {
      var t :| 0 <= t < |groups| && groups[t] == g;
    }
  }

  /** A permutation has the same groups and the same friend ids. */
  lemma PermutationKeepsMembers(s: seq<FriendGroup>, t: seq<FriendGroup>)
    requires multiset(s) == multiset(t)
    ensures forall g :: g in s <==> g in t
    ensures forall k :: k in Ids(s) <==> k in Ids(t)
  {
    assert forall g :: g in s <==> g in multiset(s);
    assert forall g :: g in t <==> g in multiset(t);
    forall k | k in Ids(s) ensures k in Ids(t) {
      var i :| 0 <= i < |s| && Ids(s)[i] == k;
      assert s[i] in t;
      var j :| 0 <= j < |t| && t[j] == s[i];
      assert Ids(t)[j] == k;
    }
    forall k | k in Ids(t) ensures k in Ids(s) {
      var j :| 0 <= j < |t| && Ids(t)[j] == k;
      assert t[j] in s;
      var i :| 0 <= i < |s| && s[i] == t[j];
      assert Ids(s)[i] == k;
    }
  }

  // ---------------------------------------------------------------------------
  // Properties of the ledger

  lemma {:induction false} LoansOfAppend(a: seq<Loan>, b: seq<Loan>, friends: seq<Friend>, k: string)
    ensures LoansOf(a + b, friends, k) == LoansOf(a, friends, k) + LoansOf(b, friends, k)
    decreases |b|
  {
    if b == [] {
      assert a + b == a;
    } else {
      var init, y := b[..|b| - 1], b[|b| - 1];
      assert b == init + [y];
      assert a + b == (a + init) + [y];
      LoansOfAppend(a, init, friends, k);
      LoansOfSnoc(a + init, friends, y, k);
      LoansOfSnoc(init, friends, y, k);
    }
  }

  lemma {:induction false} GivenOnlyAppend(a: seq<Loan>, b: seq<Loan>)
    ensures GivenOnly(a + b) == GivenOnly(a) + GivenOnly(b)
    decreases |b|
  {
    if b == [] {
      assert a + b == a;
    } else {
      var init, y := b[..|b| - 1], b[|b| - 1];
      assert b == init + [y];
      assert a + b == (a + init) + [y];
      GivenOnlyAppend(a, init);
      FiltersSnoc(a + init, y);
      FiltersSnoc(init, y);
      if y.loanType == "given" {
        assert GivenOnly(a) + (GivenOnly(init) + [y]) == (GivenOnly(a) + GivenOnly(init)) + [y];
      }
    }
  }

  lemma {:induction false} TakenOnlyAppend(a: seq<Loan>, b: seq<Loan>)
    ensures TakenOnly(a + b) == TakenOnly(a) + TakenOnly(b)
    decreases |b|
  {
    if b == [] {
      assert a + b == a;
    } else {
      var init, y := b[..|b| - 1], b[|b| - 1];
      assert b == init + [y];
      assert a + b == (a + init) + [y];
      TakenOnlyAppend(a, init);
      FiltersSnoc(a + init, y);
      FiltersSnoc(init, y);
      if y.loanType != "given" {
        assert TakenOnly(a) + (TakenOnly(init) + [y]) == (TakenOnly(a) + TakenOnly(init)) + [y];
      }
    }
  }

  lemma {:induction false} CountActiveAppend(a: seq<Loan>, b: seq<Loan>)
    ensures CountActive(a + b) == CountActive(a) + CountActive(b)
    decreases |b|
  {
    if b == [] {
      assert a + b == a;
    } else {
      var init, y := b[..|b| - 1], b[|b| - 1];
      assert b == init + [y];
      assert a + b == (a + init) + [y];
      CountActiveAppend(a, init);
      FiltersSnoc(a + init, y);
      FiltersSnoc(init, y);
    }
  }

  lemma {:induction false} SumOutstandingAppend(a: seq<Loan>, b: seq<Loan>)
    ensures SumOutstanding(a + b) == SumOutstanding(a) + SumOutstanding(b)
    decreases |b|
  {
    if b == [] {
      assert a + b == a;
    } else {
      var init, y := b[..|b| - 1], b[|b| - 1];
      assert b == init + [y];
      assert a + b == (a + init) + [y];
      SumOutstandingAppend(a, init);
      SumOutstandingSnoc(a + init, y);
      SumOutstandingSnoc(init, y);
    }
  }

  /**
   * A loan sits in friend `k`'s list of loans given exactly when it is in the
   * list, its friend is known and is `k`, and its type is `given`; it sits in
   * the list of loans taken under the same conditions with any other type.
   * So a kept loan lands in exactly one list of exactly one group, and a
   * dropped loan in none.
   */
  lemma LoanPlacement(loans: seq<Loan>, friends: seq<Friend>, k: string, x: Loan)
    requires FindFriend(friends, k).Some?
    ensures x in ExpectedGroup(loans, friends, k).loansGiven <==>
      x in loans && Kept(x, friends) && FriendKey(x) == k && x.loanType == "given"
    ensures x in ExpectedGroup(loans, friends, k).loansTaken <==>
      x in loans && Kept(x, friends) && FriendKey(x) == k && x.loanType != "given"
  {
    LoansOfMembers(loans, friends, k);
    FiltersMembers(LoansOf(loans, friends, k));
  }

  /**
   * What one loan, wherever it sits in the list, adds to friend `k`'s group:
   * what remains of it (unless paid) to the total of its direction, and one
   * to the active count if it is active; a loan of another friend or of an
   * unknown friend adds nothing.
   */
  lemma {:induction false} LoanContribution(pre: seq<Loan>, x: Loan, post: seq<Loan>, friends: seq<Friend>, k: string)
    requires FindFriend(friends, k).Some?
    ensures var mine := Kept(x, friends) && FriendKey(x) == k;
      var g, h := ExpectedGroup(pre + [x] + post, friends, k), ExpectedGroup(pre + post, friends, k);
      && g.totalGiven == h.totalGiven + (if mine && x.loanType == "given" then Outstanding(x) else 0.0)
      && g.totalTaken == h.totalTaken + (if mine && x.loanType != "given" then Outstanding(x) else 0.0)
      && g.activeLoans == h.activeLoans + (if mine && IsActive(x) then 1 else 0)
      && g.netBalance == h.netBalance + (if !mine then 0.0 else if x.loanType == "given" then Outstanding(x) else -Outstanding(x))
  {
    var a, b := LoansOf(pre, friends, k), LoansOf(post, friends, k);
    LoansOfAppend(pre + [x], post, friends, k);
    LoansOfAppend(pre, post, friends, k);
    LoansOfSnoc(pre, friends, x, k);
    if Kept(x, friends) && FriendKey(x) == k {
      assert LoansOf(pre + [x] + post, friends, k) == a + [x] + b;
      GivenInsert(a, x, b);
      TakenInsert(a, x, b);
      ActiveInsert(a, x, b);
    } else {
      assert LoansOf(pre + [x] + post, friends, k) == LoansOf(pre + post, friends, k);
    }
  }

  /** Inserting a loan anywhere in a list changes the outstanding given total by that loan's share. */
  lemma GivenInsert(a: seq<Loan>, x: Loan, b: seq<Loan>)
    ensures SumOutstanding(GivenOnly(a + [x] + b)) ==
      SumOutstanding(GivenOnly(a + b)) + (if x.loanType == "given" then Outstanding(x) else 0.0)
  {
    GivenOnlyAppend(a + [x], b);
    GivenOnlyAppend(a, b);
    FiltersSnoc(a, x);
    if x.loanType == "given" {
      SumOutstandingAppend(GivenOnly(a) + [x], GivenOnly(b));
      SumOutstandingSnoc(GivenOnly(a), x);
      SumOutstandingAppend(GivenOnly(a), GivenOnly(b));
    }
  }

  /** Inserting a loan anywhere in a list changes the outstanding taken total by that loan's share. */
  lemma TakenInsert(a: seq<Loan>, x: Loan, b: seq<Loan>)
    ensures SumOutstanding(TakenOnly(a + [x] + b)) ==
      SumOutstanding(TakenOnly(a + b)) + (if x.loanType != "given" then Outstanding(x) else 0.0)
  {
    TakenOnlyAppend(a + [x], b);
    TakenOnlyAppend(a, b);
    FiltersSnoc(a, x);
    if x.loanType != "given" {
      SumOutstandingAppend(TakenOnly(a) + [x], TakenOnly(b));
      SumOutstandingSnoc(TakenOnly(a), x);
      SumOutstandingAppend(TakenOnly(a), TakenOnly(b));
    }
  }

  /** Inserting a loan anywhere in a list raises the active count by one exactly when the loan is active. */
  lemma ActiveInsert(a: seq<Loan>, x: Loan, b: seq<Loan>)
    ensures CountActive(a + [x] + b) == CountActive(a + b) + (if IsActive(x) then 1 else 0)
  {
    CountActiveAppend(a + [x], b);
    CountActiveAppend(a, b);
    FiltersSnoc(a, x);
  }

  lemma {:induction false} CountActiveSplits(ls: seq<Loan>)
    ensures CountActive(ls) == CountActive(GivenOnly(ls)) + CountActive(TakenOnly(ls))
  {
    if ls != [] {
      var init, y := ls[..|ls| - 1], ls[|ls| - 1];
      assert ls == init + [y];
      CountActiveSplits(init);
      FiltersSnoc(init, y);
      if y.loanType == "given" {
        FiltersSnoc(GivenOnly(init), y);
      } else {
        FiltersSnoc(TakenOnly(init), y);
      }
    }
  }

  /** A group's active count is the number of its listed loans, given or taken, that are pending or partially paid. */
  lemma ActiveLoansCounted(loans: seq<Loan>, friends: seq<Friend>, k: string)
    requires FindFriend(friends, k).Some?
    ensures var g := ExpectedGroup(loans, friends, k);
      g.activeLoans == CountActive(g.loansGiven) + CountActive(g.loansTaken)
  {
    CountActiveSplits(LoansOf(loans, friends, k));
  }

  /** A paid loan is listed under its friend but adds nothing to the totals, the net balance or the active count. */
  lemma PaidLoanAddsNothing(pre: seq<Loan>, x: Loan, post: seq<Loan>, friends: seq<Friend>, k: string)
    requires FindFriend(friends, k).Some? && x.status == "paid"
    ensures var g, h := ExpectedGroup(pre + [x] + post, friends, k), ExpectedGroup(pre + post, friends, k);
      g.totalGiven == h.totalGiven && g.totalTaken == h.totalTaken &&
      g.netBalance == h.netBalance && g.activeLoans == h.activeLoans
  {
    LoanContribution(pre, x, post, friends, k);
    assert Outstanding(x) == 0.0 && !IsActive(x);
  }

  /** A loan whose friend is missing or unknown changes no group and no key. */
  lemma {:induction false} DroppedLoanIgnored(pre: seq<Loan>, x: Loan, post: seq<Loan>, friends: seq<Friend>)
    requires !Kept(x, friends)
    ensures GroupKeys(pre + [x] + post, friends) == GroupKeys(pre + post, friends)
    ensures forall k :: LoansOf(pre + [x] + post, friends, k) == LoansOf(pre + post, friends, k)
    decreases |post|
  {
    if post == [] {
      assert pre + [x] + post == pre + [x] && pre + post == pre;
      GroupKeysSnoc(pre, friends, x);
      forall k ensures LoansOf(pre + [x], friends, k) == LoansOf(pre, friends, k) {
        LoansOfSnoc(pre, friends, x, k);
      }
    } else {
      var init, y := post[..|post| - 1], post[|post| - 1];
      assert post == init + [y];
      assert pre + [x] + post == (pre + [x] + init) + [y];
      assert pre + post == (pre + init) + [y];
      DroppedLoanIgnored(pre, x, init, friends);
      GroupKeysSnoc(pre + [x] + init, friends, y);
      GroupKeysSnoc(pre + init, friends, y);
      forall k ensures LoansOf(pre + [x] + post, friends, k) == LoansOf(pre + post, friends, k) {
        LoansOfSnoc(pre + [x] + init, friends, y, k);
        LoansOfSnoc(pre + init, friends, y, k);
      }
    }
  }

  /** A friend with a single kept loan: its outstanding amount is the whole balance, signed by direction. */
  lemma SingleLoanGroup(x: Loan, friends: seq<Friend>)
    requires Kept(x, friends)
    ensures var g := ExpectedGroup([x], friends, FriendKey(x));
      && g.totalGiven == (if x.loanType == "given" then Outstanding(x) else 0.0)
      && g.totalTaken == (if x.loanType != "given" then Outstanding(x) else 0.0)
      && g.netBalance == (if x.loanType == "given" then Outstanding(x) else -Outstanding(x))
      && g.activeLoans == (if IsActive(x) then 1 else 0)
  {
    SingleLoanAccumulated(x, friends, FindFriend(friends, FriendKey(x)).value);
  }

  lemma SingleLoanAccumulated(x: Loan, friends: seq<Friend>, friend: Friend)
    requires Kept(x, friends)
    ensures var active := if IsActive(x) then 1 else 0;
      Accumulated([x], friends, FriendKey(x), friend) ==
        if x.loanType == "given" then FriendGroup(friend, [x], [], Outstanding(x), 0.0, 0.0, active)
        else FriendGroup(friend, [], [x], 0.0, Outstanding(x), 0.0, active)
  {
    var none: seq<Loan> := [];
    assert none + [x] == [x];
    LoansOfSnoc(none, friends, x, FriendKey(x));
    assert LoansOf([x], friends, FriendKey(x)) == [x];
    FiltersSnoc(none, x);
    SumOutstandingSnoc(none, x);
  }

  /**
   * One loan of 100 lent to a known friend, as it is repaid: outstanding 100
   * while pending, 40 after a repayment of 60, nothing once paid; the same
   * loan taken instead and overpaid by 20 counts as -20 against the user's
   * debt, a balance of 20 in the user's favour.
   */
  lemma LedgerExample(loan: Loan, friends: seq<Friend>)
    requires Kept(loan, friends) && loan.amount == 100.0
    ensures var lent := loan.(loanType := "given", status := "pending", repayments := None);
      var partly := lent.(status := "partially_paid", repayments := Some([Repayment(60.0)]));
      var repaid := lent.(status := "paid", repayments := Some([Repayment(60.0), Repayment(40.0)]));
      var overpaid := lent.(loanType := "taken", repayments := Some([Repayment(120.0)]));
      var k := FriendKey(loan);
      && ExpectedGroup([lent], friends, k).netBalance == 100.0
      && ExpectedGroup([lent], friends, k).activeLoans == 1
      && ExpectedGroup([partly], friends, k).netBalance == 40.0
      && ExpectedGroup([repaid], friends, k).netBalance == 0.0
      && ExpectedGroup([repaid], friends, k).activeLoans == 0
      && ExpectedGroup([overpaid], friends, k).totalTaken == -20.0
      && ExpectedGroup([overpaid], friends, k).netBalance == 20.0
  {
    var lent := loan.(loanType := "given", status := "pending", repayments := None);
    var partly := lent.(status := "partially_paid", repayments := Some([Repayment(60.0)]));
    var repaid := lent.(status := "paid", repayments := Some([Repayment(60.0), Repayment(40.0)]));
    var overpaid := lent.(loanType := "taken", repayments := Some([Repayment(120.0)]));
    assert [Repayment(60.0)][..0] == [];
    assert [Repayment(120.0)][..0] == [];
    assert Repaid(partly) == 60.0 && Repaid(overpaid) == 120.0;
    SingleLoanGroup(lent, friends);
    SingleLoanGroup(partly, friends);
    SingleLoanGroup(repaid, friends);
    SingleLoanGroup(overpaid, friends);
  }
}
