/**
 * The figures AnalysisView.swift derives from a list of transactions: the two
 * totals, the per-channel breakdowns shown as charts, the per-category digest
 * and the text sent to the AI advisor, and ChartBlock's rule for labelling a
 * slice.  Everything works on value snapshots of the bills.
 *
 * `Dictionary(grouping:)` yields groups in an unspecified order; the model
 * lists groups in first-occurrence order, which is one of the orders the
 * program may produce.  The channel lists are then sorted by amount with a
 * stable sort, so ties stay in that order.
 */
module Analysis {
  import opened Common
  import opened Models
  import opened Localization
  import AIService

  /** `reduce(0) { $0 + $1.amount }`: the left-to-right sum of the amounts. */
  function Sum(s: seq<BillRecord>): real {
    if s == [] then 0.0 else Sum(s[..|s| - 1]) + s[|s| - 1].amount
  }

  predicate IsExpense(r: BillRecord) {
    r.amount < 0.0
  }

  predicate IsIncome(r: BillRecord) {
    r.amount > 0.0
  }

  function Expenses(s: seq<BillRecord>): seq<BillRecord> {
    Filter(s, IsExpense)
  }

  function Incomes(s: seq<BillRecord>): seq<BillRecord> {
    Filter(s, IsIncome)
  }

  /** `totalExpense`: the magnitude of the sum of the negative amounts. */
  function TotalExpense(s: seq<BillRecord>): (r: real)
    ensures r >= 0.0
  {
    Abs(Sum(Expenses(s)))
  }

  /** `totalIncome`: the sum of the positive amounts. */
  function TotalIncome(s: seq<BillRecord>): (r: real)
    ensures r >= 0.0
  {
    SumNonNegative(Incomes(s));
    Sum(Incomes(s))
  }

  lemma SumSnoc(a: seq<BillRecord>, x: BillRecord)
    ensures Sum(a + [x]) == Sum(a) + x.amount
  {
    assert (a + [x])[..|a|] == a;
  }

  lemma FilterSnoc(a: seq<BillRecord>, x: BillRecord, keep: BillRecord -> bool)
    ensures Filter(a + [x], keep) == Filter(a, keep) + (if keep(x) then [x] else [])
  {
    assert (a + [x])[..|a|] == a;
  }

  lemma {:induction false} SumNonPositive(a: seq<BillRecord>)
    requires forall i :: 0 <= i < |a| ==> a[i].amount < 0.0
    ensures Sum(a) <= 0.0
    decreases |a|
  {
    if a != [] {
      SumNonPositive(a[..|a| - 1]);
    }
  }

  lemma {:induction false} SumNonNegative(a: seq<BillRecord>)
    requires forall i :: 0 <= i < |a| ==> a[i].amount > 0.0
    ensures Sum(a) >= 0.0
    decreases |a|
  {
    if a != [] {
      SumNonNegative(a[..|a| - 1]);
    }
  }

  /** The total expense is the negated sum of the expenses, and the income total is never negative. */
  lemma TotalsBySign(s: seq<BillRecord>)
    ensures TotalExpense(s) == -Sum(Expenses(s))
    ensures TotalIncome(s) >= 0.0
  {
    SumNonPositive(Expenses(s));
    SumNonNegative(Incomes(s));
  }

  /** Every amount lands in exactly one of the income sum, the expense sum, or neither (zero). */
  lemma {:induction false} SumSplitsBySign(s: seq<BillRecord>)
    ensures Sum(s) == Sum(Incomes(s)) + Sum(Expenses(s))
    decreases |s|
  {
    if s != [] {
      var p, x := s[..|s| - 1], s[|s| - 1];
      assert s == p + [x];
      SumSplitsBySign(p);
      FilterSnoc(p, x, IsIncome);
      FilterSnoc(p, x, IsExpense);
      SumSnoc(p, x);
      var ip, ep := Incomes(p), Expenses(p);
      if IsIncome(x) {
        assert !IsExpense(x);
        assert Incomes(s) == ip + [x] && Expenses(s) == ep;
        SumSnoc(ip, x);
      } else if IsExpense(x) {
        assert Incomes(s) == ip && Expenses(s) == ep + [x];
        SumSnoc(ep, x);
      } else {
        assert Incomes(s) == ip && Expenses(s) == ep;
      }
    }
  }

  /** Income minus expense is the net of all amounts. */
  lemma NetBalance(s: seq<BillRecord>)
    ensures TotalIncome(s) - TotalExpense(s) == Sum(s)
  {
    TotalsBySign(s);
    SumSplitsBySign(s);
  }

  /** A zero-amount transaction counts toward neither total. */
  lemma ZeroAmountCountsNowhere(s: seq<BillRecord>, x: BillRecord)
    requires x.amount == 0.0
    ensures TotalIncome(s + [x]) == TotalIncome(s)
    ensures TotalExpense(s + [x]) == TotalExpense(s)
  {
    FilterSnoc(s, x, IsIncome);
    FilterSnoc(s, x, IsExpense);
    assert !IsIncome(x) && !IsExpense(x);
    assert Incomes(s + [x]) == Incomes(s);
    assert Expenses(s + [x]) == Expenses(s);
  }

  // ---------------------------------------------------------------------------
  // Grouping by a key

  function ChannelOf(r: BillRecord): string {
    r.channel
  }

  function CategoryOf(r: BillRecord): string {
    r.category
  }

  /** The distinct keys of `s`, in order of first occurrence: one group per key. */
  function Keys(s: seq<BillRecord>, key: BillRecord -> string): (ks: seq<string>)
    ensures forall i, j :: 0 <= i < j < |ks| ==> ks[i] != ks[j]
    ensures forall k :: k in ks <==> exists i :: 0 <= i < |s| && key(s[i]) == k
  {
    if s == [] then []
    else
      var p := s[..|s| - 1];
      assert forall i :: 0 <= i < |p| ==> p[i] == s[i];
      var ks := Keys(p, key);
      if key(s[|s| - 1]) in ks then ks else ks + [key(s[|s| - 1])]
  }

  /** The sum of the amounts of the records whose key is `k` (one group's `reduce`). */
  function SumWhere(s: seq<BillRecord>, key: BillRecord -> string, k: string): real {
    if s == [] then 0.0
    else SumWhere(s[..|s| - 1], key, k) + (if key(s[|s| - 1]) == k then s[|s| - 1].amount else 0.0)
  }

  /** One chart entry, the `(channel, amount)` tuple. */
  datatype Slice = Slice(channel: string, amount: real)

  /** `grouped.map { (key, value) in (key, sum) }` over the keys `ks`, optionally taking `abs` of each sum. */
  function Groups(s: seq<BillRecord>, key: BillRecord -> string, ks: seq<string>, absolute: bool): (g: seq<Slice>)
    ensures |g| == |ks|
    ensures forall i :: 0 <= i < |g| ==> g[i].channel == ks[i]
    ensures forall i :: 0 <= i < |g| ==>
      g[i].amount == (if absolute then Abs(SumWhere(s, key, ks[i])) else SumWhere(s, key, ks[i]))
  {
    if ks == [] then []
    else
      var total := SumWhere(s, key, ks[0]);
      [Slice(ks[0], if absolute then Abs(total) else total)] + Groups(s, key, ks[1..], absolute)
  }

  function SumOf(g: seq<Slice>): real {
    if g == [] then 0.0 else g[0].amount + SumOf(g[1..])
  }

  lemma {:induction false} SumOfSnoc(g: seq<Slice>, y: Slice)
    ensures SumOf(g + [y]) == SumOf(g) + y.amount
    decreases |g|
  {
    if g != [] {
      assert (g + [y])[1..] == g[1..] + [y];
      SumOfSnoc(g[1..], y);
    }
  }

  lemma {:induction false} SumWhereAbsent(s: seq<BillRecord>, key: BillRecord -> string, k: string)
    requires forall i :: 0 <= i < |s| ==> key(s[i]) != k
    ensures SumWhere(s, key, k) == 0.0
    decreases |s|
  {
    if s != [] {
      SumWhereAbsent(s[..|s| - 1], key, k);
    }
  }

  lemma {:induction false} SumWhereNonPositive(s: seq<BillRecord>, key: BillRecord -> string, k: string)
    requires forall i :: 0 <= i < |s| ==> s[i].amount < 0.0
    ensures SumWhere(s, key, k) <= 0.0
    decreases |s|
  {
    if s != [] {
      SumWhereNonPositive(s[..|s| - 1], key, k);
    }
  }

  /** Appending a record adds its amount to its own group and to no other. */
  lemma {:induction false} GroupsSnoc(p: seq<BillRecord>, x: BillRecord, key: BillRecord -> string, ks: seq<string>)
    requires forall i, j :: 0 <= i < j < |ks| ==> ks[i] != ks[j]
    ensures SumOf(Groups(p + [x], key, ks, false)) == SumOf(Groups(p, key, ks, false)) + (if key(x) in ks then x.amount else 0.0)
    decreases |ks|
  {
    assert (p + [x])[..|p|] == p;
    if ks != [] {
      GroupsSnoc(p, x, key, ks[1..]);
    }
  }

  lemma {:induction false} GroupsSnocKey(s: seq<BillRecord>, key: BillRecord -> string, ks: seq<string>, k: string)
    ensures Groups(s, key, ks + [k], false) == Groups(s, key, ks, false) + [Slice(k, SumWhere(s, key, k))]
    decreases |ks|
  {
    if ks != [] {
      assert (ks + [k])[1..] == ks[1..] + [k];
      GroupsSnocKey(s, key, ks[1..], k);
    }
  }

  /** The group sums add up to the sum of all amounts: grouping loses and duplicates nothing. */
  lemma {:induction false} GroupsSumToTotal(s: seq<BillRecord>, key: BillRecord -> string)
    ensures SumOf(Groups(s, key, Keys(s, key), false)) == Sum(s)
    decreases |s|
  {
    if s != [] {
      var p, x := s[..|s| - 1], s[|s| - 1];
      assert s == p + [x];
      var ks := Keys(p, key);
      GroupsSumToTotal(p, key);
      GroupsSnoc(p, x, key, ks);
      SumSnoc(p, x);
      if key(x) !in ks {
        GroupsSnocKey(s, key, ks, key(x));
        SumOfSnoc(Groups(s, key, ks, false), Slice(key(x), SumWhere(s, key, key(x))));
        SumWhereAbsent(p, key, key(x));
      }
    }
  }

  /** Over expenses only, the absolute group sums are the negated signed ones. */
  lemma {:induction false} AbsoluteGroupsOfExpenses(s: seq<BillRecord>, key: BillRecord -> string, ks: seq<string>)
    requires forall i :: 0 <= i < |s| ==> s[i].amount < 0.0
    ensures SumOf(Groups(s, key, ks, true)) == -SumOf(Groups(s, key, ks, false))
    decreases |ks|
  {
    if ks != [] {
      SumWhereNonPositive(s, key, ks[0]);
      AbsoluteGroupsOfExpenses(s, key, ks[1..]);
    }
  }

  // ---------------------------------------------------------------------------
  // Sorting by amount, largest first

  predicate SortedDesc(g: seq<Slice>) {
    forall i, j :: 0 <= i < j < |g| ==> g[i].amount >= g[j].amount
  }

  predicate DistinctChannels(g: seq<Slice>) {
    forall i, j :: 0 <= i < j < |g| ==> g[i].channel != g[j].channel
  }

  /** Inserts `x` after every entry at least as large. */
  function Insert(x: Slice, g: seq<Slice>): seq<Slice> {
    if g == [] || g[0].amount < x.amount then [x] + g else [g[0]] + Insert(x, g[1..])
  }

  /** `sorted { $0.amount > $1.amount }`, as a stable insertion sort. */
  function SortDesc(g: seq<Slice>): seq<Slice> {
    if g == [] then [] else Insert(g[|g| - 1], SortDesc(g[..|g| - 1]))
  }

  /** Insertion keeps every entry within a bound both `x` and `g` respect. */
  lemma {:induction false} InsertBounded(x: Slice, g: seq<Slice>, b: real)
    requires x.amount <= b
    requires forall i :: 0 <= i < |g| ==> g[i].amount <= b
    ensures forall i :: 0 <= i < |Insert(x, g)| ==> Insert(x, g)[i].amount <= b
    decreases |g|
  {
    if g != [] && g[0].amount >= x.amount {
      InsertBounded(x, g[1..], b);
      assert Insert(x, g) == [g[0]] + Insert(x, g[1..]);
    }
  }

  /** Insertion adds exactly `x` and adds its amount to the sum. */
  lemma {:induction false} InsertAdds(x: Slice, g: seq<Slice>)
    ensures multiset(Insert(x, g)) == multiset(g) + multiset{x}
    ensures SumOf(Insert(x, g)) == x.amount + SumOf(g)
    decreases |g|
  {
    var r := Insert(x, g);
    if g == [] || g[0].amount < x.amount {
      assert r[1..] == g;
    } else {
      InsertAdds(x, g[1..]);
      assert r == [g[0]] + Insert(x, g[1..]);
      assert r[1..] == Insert(x, g[1..]);
      assert g == [g[0]] + g[1..];
    }
  }

  /** Insertion keeps a sorted list sorted. */
  lemma {:induction false} InsertSorted(x: Slice, g: seq<Slice>)
    requires SortedDesc(g)
    ensures SortedDesc(Insert(x, g))
    decreases |g|
  {
    if g != [] && g[0].amount >= x.amount {
      var rest := Insert(x, g[1..]);
      InsertSorted(x, g[1..]);
      InsertBounded(x, g[1..], g[0].amount);
      assert Insert(x, g) == [g[0]] + rest;
    }
  }

  /** Insertion adds exactly `x`, keeps a sorted list sorted, and adds `x`'s amount to the sum. */
  lemma InsertSpec(x: Slice, g: seq<Slice>)
    ensures multiset(Insert(x, g)) == multiset(g) + multiset{x}
    ensures SortedDesc(g) ==> SortedDesc(Insert(x, g))
    ensures SumOf(Insert(x, g)) == x.amount + SumOf(g)
  {
    InsertAdds(x, g);
    if SortedDesc(g) {
      InsertSorted(x, g);
    }
  }

  /** Sorting permutes the entries into non-increasing order and keeps their sum. */
  lemma {:induction false} SortDescSpec(g: seq<Slice>)
    ensures multiset(SortDesc(g)) == multiset(g)
    ensures SortedDesc(SortDesc(g))
    ensures SumOf(SortDesc(g)) == SumOf(g)
    decreases |g|
  {
    if g != [] {
      var p, y := g[..|g| - 1], g[|g| - 1];
      assert g == p + [y];
      SortDescSpec(p);
      InsertSpec(y, SortDesc(p));
      SumOfSnoc(p, y);
    }
  }

  /** A permutation of a list with distinct channels has distinct channels. */
  lemma PermutationKeepsDistinct(g: seq<Slice>, r: seq<Slice>)
    requires multiset(r) == multiset(g)
    requires DistinctChannels(g)
    ensures DistinctChannels(r)
  {
    forall i, j | 0 <= i < j < |r|
      ensures r[i].channel != r[j].channel
    {
      if r[i].channel == r[j].channel {
        assert r[i] in multiset(g) && r[j] in multiset(g);
        var a :| 0 <= a < |g| && g[a] == r[i];
        var b :| 0 <= b < |g| && g[b] == r[j];
        assert a == b;
        assert r[i] == r[j];
        TwoIndicesCount(r, i, j);
        SingleIndexCount(g, a);
        assert false;
      }
    }
  }

  /** Two positions holding the same value count it at least twice. */
  lemma {:induction false} TwoIndicesCount(r: seq<Slice>, i: int, j: int)
    requires 0 <= i < j < |r| && r[i] == r[j]
    ensures multiset(r)[r[i]] >= 2
  {
    assert r == r[..i] + [r[i]] + r[i + 1..j] + [r[j]] + r[j + 1..];
  }

  /** A value of a channel-distinct list occurs there once. */
  lemma {:induction false} SingleIndexCount(g: seq<Slice>, a: int)
    requires 0 <= a < |g| && DistinctChannels(g)
    ensures multiset(g)[g[a]] == 1
    decreases |g|
  {
    var y := g[a];
    if a == |g| - 1 {
      var p := g[..|g| - 1];
      assert g == p + [y];
      assert y !in p;
    } else {
      var p := g[..|g| - 1];
      assert g == p + [g[|g| - 1]];
      assert p[a] == y;
      assert g[|g| - 1].channel != y.channel;
      SingleIndexCount(p, a);
    }
  }

  /** `expensesByChannel`. */
  function ExpensesByChannel(s: seq<BillRecord>): seq<Slice> {
    var e := Expenses(s);
    SortDesc(Groups(e, ChannelOf, Keys(e, ChannelOf), true))
  }

  /** `incomeByChannel`. */
  function IncomeByChannel(s: seq<BillRecord>): seq<Slice> {
    var inc := Incomes(s);
    SortDesc(Groups(inc, ChannelOf, Keys(inc, ChannelOf), false))
  }

  lemma GroupsDistinct(s: seq<BillRecord>, key: BillRecord -> string, ks: seq<string>, absolute: bool)
    requires forall i, j :: 0 <= i < j < |ks| ==> ks[i] != ks[j]
    ensures DistinctChannels(Groups(s, key, ks, absolute))
  {
  }

  /** An entry of a sorted channel list is one of its groups, with that group's sum. */
  lemma SortedEntry(s: seq<BillRecord>, ks: seq<string>, absolute: bool, r: seq<Slice>, i: int)
    requires 0 <= i < |r|
    requires multiset(r) == multiset(Groups(s, ChannelOf, ks, absolute))
    ensures r[i].channel in ks
    ensures r[i].amount == (if absolute then Abs(SumWhere(s, ChannelOf, r[i].channel)) else SumWhere(s, ChannelOf, r[i].channel))
  {
    var g := Groups(s, ChannelOf, ks, absolute);
    assert r[i] in multiset(r);
    var j :| 0 <= j < |g| && g[j] == r[i];
  }

  predicate HasChannel(g: seq<Slice>, c: string) {
    exists i :: 0 <= i < |g| && g[i].channel == c
  }

  /** Some record kept by `keep` uses channel `c`. */
  predicate UsesChannel(s: seq<BillRecord>, keep: BillRecord -> bool, c: string) {
    exists j :: 0 <= j < |s| && keep(s[j]) && s[j].channel == c
  }

  /** A channel has an entry exactly when some filtered record uses it. */
  lemma ChannelEntries(s: seq<BillRecord>, keep: BillRecord -> bool, absolute: bool, c: string)
    ensures var f := Filter(s, keep);
      HasChannel(SortDesc(Groups(f, ChannelOf, Keys(f, ChannelOf), absolute)), c) <==> UsesChannel(s, keep, c)
  {
    var f := Filter(s, keep);
    if HasChannel(SortDesc(Groups(f, ChannelOf, Keys(f, ChannelOf), absolute)), c) {
      EntryIsUsed(s, keep, absolute, c);
    }
    if UsesChannel(s, keep, c) {
      UsedHasEntry(s, keep, absolute, c);
    }
  }

  /** A chart entry's channel is used by some kept record. */
  lemma EntryIsUsed(s: seq<BillRecord>, keep: BillRecord -> bool, absolute: bool, c: string)
    requires var f := Filter(s, keep); HasChannel(SortDesc(Groups(f, ChannelOf, Keys(f, ChannelOf), absolute)), c)
    ensures UsesChannel(s, keep, c)
  {
    var f := Filter(s, keep);
    var ks := Keys(f, ChannelOf);
    var r := SortDesc(Groups(f, ChannelOf, ks, absolute));
    SortDescSpec(Groups(f, ChannelOf, ks, absolute));
    var i :| 0 <= i < |r| && r[i].channel == c;
    SortedEntry(f, ks, absolute, r, i);
    var k :| 0 <= k < |f| && ChannelOf(f[k]) == c;
    assert f[k] in s;
  }

  /** A channel used by some kept record has a chart entry. */
  lemma UsedHasEntry(s: seq<BillRecord>, keep: BillRecord -> bool, absolute: bool, c: string)
    requires UsesChannel(s, keep, c)
    ensures var f := Filter(s, keep); HasChannel(SortDesc(Groups(f, ChannelOf, Keys(f, ChannelOf), absolute)), c)
  {
    var f := Filter(s, keep);
    var ks := Keys(f, ChannelOf);
    var g := Groups(f, ChannelOf, ks, absolute);
    var r := SortDesc(g);
    SortDescSpec(g);
    var j :| 0 <= j < |s| && keep(s[j]) && s[j].channel == c;
    assert s[j] in f;
    var m :| 0 <= m < |f| && f[m] == s[j];
    assert ChannelOf(f[m]) == c;
    assert c in ks;
    var k :| 0 <= k < |ks| && ks[k] == c;
    assert g[k] in multiset(r);
    var i :| 0 <= i < |r| && r[i] == g[k];
    assert r[i].channel == c;
  }

  /**
   * `expensesByChannel` has one entry per channel used by an expense, each the
   * magnitude of that channel's expense sum, largest first, and the entries add
   * up to `totalExpense`.
   */
  lemma ExpensesByChannelSpec(s: seq<BillRecord>)
    ensures var r := ExpensesByChannel(s);
      && SortedDesc(r)
      && DistinctChannels(r)
      && (forall c :: HasChannel(r, c) <==> UsesChannel(s, IsExpense, c))
      && (forall i :: 0 <= i < |r| ==> r[i].amount == Abs(SumWhere(Expenses(s), ChannelOf, r[i].channel)))
      && SumOf(r) == TotalExpense(s)
  {
    var e := Expenses(s);
    var ks := Keys(e, ChannelOf);
    var g := Groups(e, ChannelOf, ks, true);
    var r := ExpensesByChannel(s);
    SortDescSpec(g);
    GroupsDistinct(e, ChannelOf, ks, true);
    PermutationKeepsDistinct(g, r);
    forall c
      ensures HasChannel(r, c) <==> UsesChannel(s, IsExpense, c)
    {
      ChannelEntries(s, IsExpense, true, c);
    }
    forall i | 0 <= i < |r|
      ensures r[i].amount == Abs(SumWhere(e, ChannelOf, r[i].channel))
    {
      SortedEntry(e, ks, true, r, i);
    }
    AbsoluteGroupsOfExpenses(e, ChannelOf, ks);
    GroupsSumToTotal(e, ChannelOf);
    TotalsBySign(s);
  }

  /**
   * `incomeByChannel` has one entry per channel used by an income, each that
   * channel's income sum, largest first, and the entries add up to `totalIncome`.
   */
  lemma IncomeByChannelSpec(s: seq<BillRecord>)
    ensures var r := IncomeByChannel(s);
      && SortedDesc(r)
      && DistinctChannels(r)
      && (forall c :: HasChannel(r, c) <==> UsesChannel(s, IsIncome, c))
      && (forall i :: 0 <= i < |r| ==> r[i].amount == SumWhere(Incomes(s), ChannelOf, r[i].channel))
      && SumOf(r) == TotalIncome(s)
  {
    var inc := Incomes(s);
    var ks := Keys(inc, ChannelOf);
    var g := Groups(inc, ChannelOf, ks, false);
    var r := IncomeByChannel(s);
    SortDescSpec(g);
    GroupsDistinct(inc, ChannelOf, ks, false);
    PermutationKeepsDistinct(g, r);
    forall c
      ensures HasChannel(r, c) <==> UsesChannel(s, IsIncome, c)
    {
      ChannelEntries(s, IsIncome, false, c);
    }
    forall i | 0 <= i < |r|
      ensures r[i].amount == SumWhere(inc, ChannelOf, r[i].channel)
    {
      SortedEntry(inc, ks, false, r, i);
    }
    GroupsSumToTotal(inc, ChannelOf);
  }

  // ---------------------------------------------------------------------------
  // The category digest and the advisor's input

  /** One `"category:amount"` entry per key, the amount rendered as Swift interpolates a Double. */
  function CategoryEntries(e: seq<BillRecord>, ks: seq<string>, render: real -> string): (r: seq<string>)
    ensures |r| == |ks|
    ensures forall i :: 0 <= i < |r| ==> r[i] == ks[i] + ":" + render(Abs(SumWhere(e, CategoryOf, ks[i])))
  {
    if ks == [] then []
    else [ks[0] + ":" + render(Abs(SumWhere(e, CategoryOf, ks[0])))] + CategoryEntries(e, ks[1..], render)
  }

  /** `expensesByCategory`: the joined entries, or the translated "无支出" when they join to nothing. */
  function ExpensesByCategory(s: seq<BillRecord>, lang: Language, render: real -> string): string {
    var e := Expenses(s);
    var summary := Join(CategoryEntries(e, Keys(e, CategoryOf), render), ", ");
    if summary == "" then T(lang, "无支出") else summary
  }

  /** The expense categories are exactly the categories of the negative bills. */
  lemma ExpenseCategories(s: seq<BillRecord>)
    ensures forall c :: c in Keys(Expenses(s), CategoryOf) <==> exists j :: 0 <= j < |s| && s[j].amount < 0.0 && s[j].category == c
  {
    var e := Expenses(s);
    var ks := Keys(e, CategoryOf);
    forall c
      ensures c in ks <==> exists j :: 0 <= j < |s| && s[j].amount < 0.0 && s[j].category == c
    {
      if c in ks {
        var m :| 0 <= m < |e| && CategoryOf(e[m]) == c;
        assert e[m] in s;
      }
      if exists j :: 0 <= j < |s| && s[j].amount < 0.0 && s[j].category == c {
        var j :| 0 <= j < |s| && s[j].amount < 0.0 && s[j].category == c;
        assert s[j] in e;
        var m :| 0 <= m < |e| && e[m] == s[j];
        assert CategoryOf(e[m]) == c;
      }
    }
  }

  /** Without a negative amount there are no expenses. */
  lemma {:induction false} NoExpenses(s: seq<BillRecord>)
    requires forall i :: 0 <= i < |s| ==> s[i].amount >= 0.0
    ensures Expenses(s) == []
    decreases |s|
  {
    if s != [] {
      NoExpenses(s[..|s| - 1]);
      assert !IsExpense(s[|s| - 1]);
    }
  }

  /** With some expense, the digest is the join of a non-empty list of entries. */
  lemma SomeExpenseDigest(s: seq<BillRecord>, lang: Language, render: real -> string, i: int)
    requires 0 <= i < |s| && s[i].amount < 0.0
    ensures |Keys(Expenses(s), CategoryOf)| >= 1
    ensures ExpensesByCategory(s, lang, render) == Join(CategoryEntries(Expenses(s), Keys(Expenses(s), CategoryOf), render), ", ")
  {
    var e := Expenses(s);
    var ks := Keys(e, CategoryOf);
    assert s[i] in e;
    var k :| 0 <= k < |e| && e[k] == s[i];
    assert CategoryOf(e[k]) in ks;
    var entries := CategoryEntries(e, ks, render);
    assert |entries[0]| >= 1;
    JoinNonEmpty(entries, ", ");
  }

  /**
   * Without expenses the digest is the "no expenses" marker; otherwise it is
   * the join of one entry per distinct expense category.
   */
  lemma ExpensesByCategorySpec(s: seq<BillRecord>, lang: Language, render: real -> string)
    ensures (forall i :: 0 <= i < |s| ==> s[i].amount >= 0.0) ==> ExpensesByCategory(s, lang, render) == T(lang, "无支出")
    ensures (exists i :: 0 <= i < |s| && s[i].amount < 0.0) ==>
      var e := Expenses(s);
      var ks := Keys(e, CategoryOf);
      && |ks| >= 1
      && (forall c :: c in ks <==> exists j :: 0 <= j < |s| && s[j].amount < 0.0 && s[j].category == c)
      && ExpensesByCategory(s, lang, render) == Join(CategoryEntries(e, ks, render), ", ")
  {
    if exists i :: 0 <= i < |s| && s[i].amount < 0.0 {
      var i :| 0 <= i < |s| && s[i].amount < 0.0;
      SomeExpenseDigest(s, lang, render, i);
      ExpenseCategories(s);
    } else {
      NoExpenses(s);
    }
  }

  /** The four labelled lines of the advisor's summary, from the rendered figures. */
  function SummaryText(title: string, income: string, expense: string, categories: string): string {
    "时间范围：" + title + "\n总收入：" + income + "\n总支出：" + expense + "\n支出分类明细：" + categories
  }

  /** The four-line summary `startAIAnalysis` sends to the advisor. */
  function Digest(title: string, s: seq<BillRecord>, lang: Language, render: real -> string): string {
    SummaryText(title, render(TotalIncome(s)), render(TotalExpense(s)), ExpensesByCategory(s, lang, render))
  }

  /** Four line-break-free lines joined by line breaks split back into those four lines. */
  lemma FourLines(a: string, b: string, c: string, d: string)
    requires '\n' !in a && '\n' !in b && '\n' !in c && '\n' !in d
    ensures Split(a + ['\n'] + (b + ['\n'] + (c + ['\n'] + d)), {'\n'}) == [a, b, c, d]
  {
    SplitAfterFirst(a, '\n', b + ['\n'] + (c + ['\n'] + d), {'\n'});
    SplitAfterFirst(b, '\n', c + ['\n'] + d, {'\n'});
    SplitAfterFirst(c, '\n', d, {'\n'});
    SplitWithout(d, {'\n'});
  }

  /** Line-break-free figures give a summary that splits back into its four labelled lines. */
  lemma SummaryLines(title: string, income: string, expense: string, categories: string)
    requires '\n' !in title && '\n' !in income && '\n' !in expense && '\n' !in categories
    ensures Split(SummaryText(title, income, expense, categories), {'\n'}) ==
      ["时间范围：" + title, "总收入：" + income, "总支出：" + expense, "支出分类明细：" + categories]
  {
    var a, b, c, d := "时间范围：" + title, "总收入：" + income, "总支出：" + expense, "支出分类明细：" + categories;
    assert SummaryText(title, income, expense, categories) == a + ['\n'] + (b + ['\n'] + (c + ['\n'] + d));
    FourLines(a, b, c, d);
  }

  /** When no field contains a line break, the digest splits back into exactly its four labelled lines. */
  lemma DigestLines(title: string, s: seq<BillRecord>, lang: Language, render: real -> string)
    requires '\n' !in title
    requires '\n' !in render(TotalIncome(s)) && '\n' !in render(TotalExpense(s))
    requires '\n' !in ExpensesByCategory(s, lang, render)
    ensures Split(Digest(title, s, lang, render), {'\n'}) ==
      ["时间范围：" + title, "总收入：" + render(TotalIncome(s)), "总支出：" + render(TotalExpense(s)),
       "支出分类明细：" + ExpensesByCategory(s, lang, render)]
  {
    SummaryLines(title, render(TotalIncome(s)), render(TotalExpense(s)), ExpensesByCategory(s, lang, render));
  }

  /** The advice panel of the analysis screen. */
  class AdvicePanel {
    var aiAdvice: string
    var isAnalyzing: bool

    constructor ()
      ensures aiAdvice == "" && !isAnalyzing
    {
      aiAdvice := "";
      isAnalyzing := false;
    }

    /**
     * `startAIAnalysis`: the digest of the shown bills goes to the advisor in
     * the interface language; the advice replaces the panel's text, or on
     * failure the localized "分析失败" with the error's description does.
     */
    method StartAIAnalysis(title: string, s: seq<BillRecord>, lang: Language, render: real -> string,
                           provider: string, env: AIService.Env, describe: AIService.AIError -> string)
      returns (sent: seq<AIService.Request>)
      modifies this
      ensures var o := AIService.AnalyzeFinancialData(Digest(title, s, lang, render), provider, lang, env);
        && sent == o.sent
        && !isAnalyzing
        && (o.result.Ok? ==> aiAdvice == o.result.value)
        && (o.result.Err? ==> aiAdvice == AIService.FailureNote(lang, "分析失败", describe(o.result.error)))
    {
      var summary := Digest(title, s, lang, render);
      isAnalyzing := true;
      aiAdvice := "";
      var o := AIService.AnalyzeFinancialData(summary, provider, lang, env);
      sent := o.sent;
      match o.result {
        case Ok(advice) =>
          aiAdvice := advice;
        case Err(e) =>
          aiAdvice := AIService.FailureNote(lang, "分析失败", describe(e));
      }
      isAnalyzing := false;
    }
  }

  // ---------------------------------------------------------------------------
  // Chart labels

  /**
   * `item.amount / total > 0.1` in floating point: with a zero total the
   * quotient is +infinity for a positive amount and -infinity or NaN otherwise.
   */
  predicate ShowsLabel(amount: real, total: real) {
    if total == 0.0 then amount > 0.0 else amount / total > 0.1
  }

  /** The number of entries whose slice is labelled against `total`. */
  function CountLabelled(g: seq<Slice>, total: real): nat {
    if g == [] then 0 else (if ShowsLabel(g[0].amount, total) then 1 else 0) + CountLabelled(g[1..], total)
  }

  predicate NonNegative(g: seq<Slice>) {
    forall i :: 0 <= i < |g| ==> g[i].amount >= 0.0
  }

  lemma {:induction false} LabelledShare(g: seq<Slice>, total: real)
    requires total > 0.0 && NonNegative(g)
    ensures SumOf(g) >= (CountLabelled(g, total) as real) * (total / 10.0)
    ensures CountLabelled(g, total) > 0 ==> SumOf(g) > (CountLabelled(g, total) as real) * (total / 10.0)
    decreases |g|
  {
    if g != [] {
      LabelledShare(g[1..], total);
      if ShowsLabel(g[0].amount, total) {
        assert g[0].amount / total > 0.1;
        assert g[0].amount > total / 10.0;
      }
    }
  }

  lemma {:induction false} NoneLabelledAtZero(g: seq<Slice>)
    requires NonNegative(g) && SumOf(g) == 0.0
    ensures CountLabelled(g, 0.0) == 0
    decreases |g|
  {
    if g != [] {
      assert SumOf(g[1..]) >= 0.0 by {
        SumOfNonNegative(g[1..]);
      }
      NoneLabelledAtZero(g[1..]);
    }
  }

  lemma {:induction false} SumOfNonNegative(g: seq<Slice>)
    requires NonNegative(g)
    ensures SumOf(g) >= 0.0
    decreases |g|
  {
    if g != [] {
      SumOfNonNegative(g[1..]);
    }
  }

  lemma PositiveFactor(a: real, t: real)
    requires t > 0.0 && a * t > 0.0
    ensures a > 0.0
  {
  }

  /** A chart of non-negative slices labels fewer than ten of them: each labelled one holds over a tenth. */
  lemma FewerThanTenLabels(g: seq<Slice>)
    requires NonNegative(g)
    ensures CountLabelled(g, SumOf(g)) < 10
  {
    var t := SumOf(g);
    SumOfNonNegative(g);
    if t == 0.0 {
      NoneLabelledAtZero(g);
    } else {
      var n := CountLabelled(g, t);
      LabelledShare(g, t);
      if n > 0 {
        assert t - (n as real) * (t / 10.0) == (10.0 - n as real) * t / 10.0;
        PositiveFactor(10.0 - n as real, t);
      }
    }
  }

  /** The expense chart consists of non-negative slices. */
  lemma ExpenseChartNonNegative(s: seq<BillRecord>)
    ensures NonNegative(ExpensesByChannel(s))
  {
    var e := Expenses(s);
    var g := Groups(e, ChannelOf, Keys(e, ChannelOf), true);
    var r := ExpensesByChannel(s);
    SortDescSpec(g);
    forall i | 0 <= i < |r|
      ensures r[i].amount >= 0.0
    {
      assert r[i] in multiset(g);
      var j :| 0 <= j < |g| && g[j] == r[i];
    }
  }

  /** The income chart consists of non-negative slices. */
  lemma IncomeChartNonNegative(s: seq<BillRecord>)
    ensures NonNegative(IncomeByChannel(s))
  {
    var inc := Incomes(s);
    var ks := Keys(inc, ChannelOf);
    var g := Groups(inc, ChannelOf, ks, false);
    var r := IncomeByChannel(s);
    SortDescSpec(g);
    forall i | 0 <= i < |r|
      ensures r[i].amount >= 0.0
    {
      assert r[i] in multiset(g);
      var j :| 0 <= j < |g| && g[j] == r[i];
      SumWhereNonNegative(inc, ChannelOf, ks[j]);
    }
  }

  lemma {:induction false} SumWhereNonNegative(s: seq<BillRecord>, key: BillRecord -> string, k: string)
    requires forall i :: 0 <= i < |s| ==> s[i].amount > 0.0
    ensures SumWhere(s, key, k) >= 0.0
    decreases |s|
  {
    if s != [] {
      SumWhereNonNegative(s[..|s| - 1], key, k);
    }
  }
}
