/** The sales series of backend/app.py: rows whose date failed to parse are
    dropped, quantities are summed per timestamp in ascending timestamp order
    (pandas `groupby` sorts its keys) with Python's `+`, the last seven groups
    are kept, and each kept sum goes through `float()`. */
module SalesSeries {
  import opened Wrappers
  import opened Text
  import opened PyValues

  /** A parsed `datetime`: calendar date plus the second within the day. */
  datatype Timestamp = Timestamp(year: int, month: nat, day: nat, second: nat)

  predicate Before(a: Timestamp, b: Timestamp) {
    a.year < b.year
    || (a.year == b.year && a.month < b.month)
    || (a.year == b.year && a.month == b.month && a.day < b.day)
    || (a.year == b.year && a.month == b.month && a.day == b.day && a.second < b.second)
  }

  /** One group of the series: a timestamp and the sum of its quantities. */
  datatype Group = Group(at: Timestamp, total: Total)

  predicate StrictlyAscending(g: seq<Group>) {
    forall i, j :: 0 <= i < j < |g| ==> Before(g[i].at, g[j].at)
  }

  function Keys(g: seq<Group>): set<Timestamp> {
    set i | 0 <= i < |g| :: g[i].at
  }

  /** The sum stored for `t`, or NoValue when `t` has no group. */
  function Lookup(g: seq<Group>, t: Timestamp): Total {
    if g == [] then NoValue else if g[0].at == t then g[0].total else Lookup(g[1..], t)
  }

  /** The timestamps occurring among the kept rows. */
  function Dates(rows: seq<(Timestamp, Cell)>): set<Timestamp> {
    set i | 0 <= i < |rows| :: rows[i].0
  }

  /** The quantities of the rows stamped `t`, summed in row order. */
  function SumOn(rows: seq<(Timestamp, Cell)>, t: Timestamp): Total {
    if rows == [] then NoValue
    else
      var a := SumOn(rows[..|rows| - 1], t);
      if rows[|rows| - 1].0 == t then Add(a, rows[|rows| - 1].1) else a
  }

  /** Adds cell `c` to the group of `t`, creating it in order when absent. */
  function AddTo(g: seq<Group>, t: Timestamp, c: Cell): seq<Group> {
    if g == [] then [Group(t, Add(NoValue, c))]
    else if g[0].at == t then [Group(t, Add(g[0].total, c))] + g[1..]
    else if Before(t, g[0].at) then [Group(t, Add(NoValue, c))] + g
    else [g[0]] + AddTo(g[1..], t, c)
  }

  /** `groupby(date)[qty].sum()`: one group per distinct timestamp, in
      ascending order. */
  function GroupSum(rows: seq<(Timestamp, Cell)>): (r: seq<Group>)
    ensures StrictlyAscending(r)
    ensures Keys(r) == Dates(rows)
  {
    if rows == [] then []
    else
      var init := rows[..|rows| - 1];
      var last := rows[|rows| - 1];
      var g := GroupSum(init);
      AddToSpec(g, last.0, last.1);
      DatesSnoc(rows);
      AddTo(g, last.0, last.1)
  }

  lemma DatesSnoc(rows: seq<(Timestamp, Cell)>)
    requires rows != []
    ensures Dates(rows) == Dates(rows[..|rows| - 1]) + {rows[|rows| - 1].0}
  {
    var init := rows[..|rows| - 1];
    forall u | u in Dates(rows) ensures u in Dates(init) + {rows[|rows| - 1].0} {
      var i :| 0 <= i < |rows| && rows[i].0 == u;
      if i < |rows| - 1 { assert init[i].0 == u; }
    }
    forall u | u in Dates(init) ensures u in Dates(rows) {
      var i :| 0 <= i < |init| && init[i].0 == u;
      assert rows[i].0 == u;
    }
  }

  lemma BeforeTransitive(a: Timestamp, b: Timestamp, c: Timestamp)
    requires Before(a, b) && Before(b, c)
    ensures Before(a, c)
  {
  }

  lemma {:induction false} LookupAbsent(g: seq<Group>, t: Timestamp)
    requires t !in Keys(g)
    ensures Lookup(g, t) == NoValue
  {
    if g != [] {
      assert g[0].at in Keys(g);
      assert Keys(g[1..]) <= Keys(g) by {
        forall u | u in Keys(g[1..]) ensures u in Keys(g) {
          var i :| 0 <= i < |g[1..]| && g[1..][i].at == u;
          assert g[i + 1].at == u;
        }
      }
      LookupAbsent(g[1..], t);
    }
  }

  lemma KeysCons(x: Group, g: seq<Group>)
    ensures Keys([x] + g) == {x.at} + Keys(g)
  {
    var s := [x] + g;
    forall u | u in Keys(s) ensures u in {x.at} + Keys(g) {
      var i :| 0 <= i < |s| && s[i].at == u;
      if i > 0 { assert g[i - 1].at == u; }
    }
    forall u | u in {x.at} + Keys(g) ensures u in Keys(s) {
      if u == x.at { assert s[0].at == u; }
      else { var i :| 0 <= i < |g| && g[i].at == u; assert s[i + 1].at == u; }
    }
  }

  /** Adding a quantity to a date's group keeps the groups ascending, adds the
      date, adds the quantity to that date and changes no other date. */
  lemma AddToSpec(g: seq<Group>, t: Timestamp, q: Cell)
    requires StrictlyAscending(g)
    ensures StrictlyAscending(AddTo(g, t, q))
    ensures Keys(AddTo(g, t, q)) == Keys(g) + {t}
    ensures Lookup(AddTo(g, t, q), t) == Add(Lookup(g, t), q)
    ensures forall u :: u != t ==> Lookup(AddTo(g, t, q), u) == Lookup(g, u)
  {
    AddToKeys(g, t, q);
    AddToOrder(g, t, q);
    AddToLookup(g, t, q);
  }

  lemma {:induction false} AddToKeys(g: seq<Group>, t: Timestamp, q: Cell)
    ensures Keys(AddTo(g, t, q)) == Keys(g) + {t}
  {
    var r := AddTo(g, t, q);
    if g == [] {
      KeysCons(Group(t, Add(NoValue, q)), []);
    } else if g[0].at == t {
      KeysCons(g[0], g[1..]);
      KeysCons(Group(t, Add(g[0].total, q)), g[1..]);
      assert g == [g[0]] + g[1..];
    } else if Before(t, g[0].at) {
      KeysCons(Group(t, Add(NoValue, q)), g);
    } else {
      AddToKeys(g[1..], t, q);
      KeysCons(g[0], g[1..]);
      KeysCons(g[0], AddTo(g[1..], t, q));
      assert g == [g[0]] + g[1..];
    }
  }

  lemma {:induction false} AddToOrder(g: seq<Group>, t: Timestamp, q: Cell)
    requires StrictlyAscending(g)
    ensures StrictlyAscending(AddTo(g, t, q))
  {
    var r := AddTo(g, t, q);
    if g != [] && g[0].at != t {
      if Before(t, g[0].at) {
        forall i, j | 0 <= i < j < |r| ensures Before(r[i].at, r[j].at) {
          if i == 0 && j > 1 { BeforeTransitive(t, g[0].at, g[j - 1].at); }
        }
      } else {
        var rest := g[1..];
        AddToOrder(rest, t, q);
        AddToKeys(rest, t, q);
        var r' := AddTo(rest, t, q);
        forall u | u in Keys(r') ensures Before(g[0].at, u) {
          if u != t {
            var m :| 0 <= m < |rest| && rest[m].at == u;
            assert g[m + 1] == rest[m];
          }
        }
        ConsAscending(g[0], r');
      }
    }
  }

  lemma {:induction false} AddToLookup(g: seq<Group>, t: Timestamp, q: Cell)
    requires StrictlyAscending(g)
    ensures Lookup(AddTo(g, t, q), t) == Add(Lookup(g, t), q)
    ensures forall u :: u != t ==> Lookup(AddTo(g, t, q), u) == Lookup(g, u)
  {
    var r := AddTo(g, t, q);
    if g == [] {
    } else if g[0].at == t {
      assert r[1..] == g[1..];
    } else if Before(t, g[0].at) {
      assert r[1..] == g;
      assert t !in Keys(g) by {
        forall i | 0 <= i < |g| ensures g[i].at != t {
          if i > 0 { BeforeTransitive(t, g[0].at, g[i].at); }
        }
      }
      LookupAbsent(g, t);
    } else {
      assert StrictlyAscending(g[1..]);
      AddToLookup(g[1..], t, q);
      assert r[1..] == AddTo(g[1..], t, q);
    }
  }

  /** A group before every date of an ascending list extends it ascending. */
  lemma ConsAscending(x: Group, g: seq<Group>)
    requires StrictlyAscending(g)
    requires forall u :: u in Keys(g) ==> Before(x.at, u)
    ensures StrictlyAscending([x] + g)
  {
    forall i, j | 0 <= i < j < |[x] + g| ensures Before(([x] + g)[i].at, ([x] + g)[j].at) {
      if i == 0 {
        assert g[j - 1].at in Keys(g);
      }
    }
  }

  /** Each group holds the sum of the quantities of its timestamp's rows. */
  lemma {:induction false} GroupSumSpec(rows: seq<(Timestamp, Cell)>)
    ensures forall t :: Lookup(GroupSum(rows), t) == SumOn(rows, t)
  {
    if rows != [] {
      var init := rows[..|rows| - 1];
      var last := rows[|rows| - 1];
      GroupSumSpec(init);
      AddToSpec(GroupSum(init), last.0, last.1);
    }
  }

  // ---------------------------------------------------------------------------
  // What a day's sum is, stated without the running total

  /** Some row stamped `t` holds a number. */
  ghost predicate NumberOn(rows: seq<(Timestamp, Cell)>, t: Timestamp) {
    exists i :: 0 <= i < |rows| && rows[i].0 == t && rows[i].1.Num?
  }

  /** Some row stamped `t` holds a text. */
  ghost predicate TextOn(rows: seq<(Timestamp, Cell)>, t: Timestamp) {
    exists i :: 0 <= i < |rows| && rows[i].0 == t && rows[i].1.Str?
  }

  /** The arithmetic sum of the numbers stamped `t`. */
  function NumbersOn(rows: seq<(Timestamp, Cell)>, t: Timestamp): int {
    if rows == [] then 0
    else
      var last := rows[|rows| - 1];
      NumbersOn(rows[..|rows| - 1], t) + (if last.0 == t && last.1.Num? then last.1.n else 0)
  }

  /** The texts stamped `t`, joined in row order. */
  function TextsOn(rows: seq<(Timestamp, Cell)>, t: Timestamp): string {
    if rows == [] then ""
    else
      var last := rows[|rows| - 1];
      TextsOn(rows[..|rows| - 1], t) + (if last.0 == t && last.1.Str? then last.1.s else "")
  }

  /** A day's sum raises when the day mixes numbers and texts; otherwise it is
      the sum of its numbers, the concatenation of its texts, or no value. */
  lemma {:induction false} SumOnCases(rows: seq<(Timestamp, Cell)>, t: Timestamp)
    ensures SumOn(rows, t) ==
      if NumberOn(rows, t) && TextOn(rows, t) then SumFailed
      else if NumberOn(rows, t) then IntTotal(NumbersOn(rows, t))
      else if TextOn(rows, t) then TextTotal(TextsOn(rows, t))
      else NoValue
    ensures !NumberOn(rows, t) ==> NumbersOn(rows, t) == 0
    ensures !TextOn(rows, t) ==> TextsOn(rows, t) == ""
  {
    if rows != [] {
      var init := rows[..|rows| - 1];
      var last := rows[|rows| - 1];
      SumOnCases(init, t);
      assert NumberOn(rows, t) <==> NumberOn(init, t) || (last.0 == t && last.1.Num?) by {
        if NumberOn(rows, t) {
          var i :| 0 <= i < |rows| && rows[i].0 == t && rows[i].1.Num?;
          if i < |init| { assert init[i] == rows[i]; }
        }
        if NumberOn(init, t) {
          var i :| 0 <= i < |init| && init[i].0 == t && init[i].1.Num?;
          assert rows[i] == init[i];
        }
      }
      assert TextOn(rows, t) <==> TextOn(init, t) || (last.0 == t && last.1.Str?) by {
        if TextOn(rows, t) {
          var i :| 0 <= i < |rows| && rows[i].0 == t && rows[i].1.Str?;
          if i < |init| { assert init[i] == rows[i]; }
        }
        if TextOn(init, t) {
          var i :| 0 <= i < |init| && init[i].0 == t && init[i].1.Str?;
          assert rows[i] == init[i];
        }
      }
      if last.0 == t {
        match last.1 {
          case Num(_) =>
          case Str(_) =>
          case Blank =>
        }
      }
    }
  }

  /** Two text quantities of one day are concatenated: "3" and "2" give "32". */
  lemma TextQuantitiesConcatenate(t: Timestamp)
    ensures SumOn([(t, Str("3")), (t, Str("2"))], t) == TextTotal("32")
  {
    var first := [(t, Str("3"))];
    var rows := first + [(t, Str("2"))];
    assert rows[..1] == first && first[..0] == [];
    assert SumOn(first, t) == TextTotal("3");
    assert SumOn(rows, t) == Add(TextTotal("3"), Str("2"));
    assert "3" + "2" == "32";
  }

  /** float() then reads the joined text "32" as 32. */
  lemma ConcatenatedTextReads()
    ensures ToFloat(TextTotal("32")) == Some(32)
  {
    assert NatToString(32) == "32" by {
      assert NatToString(3) == "3";
    }
    ParseFloatIntText(32);
  }

  /** `tail(7)`: the last seven groups, or all when there are fewer. */
  function LastSeven(g: seq<Group>): (r: seq<Group>)
    ensures |r| == if |g| < 7 then |g| else 7
    ensures r == g[|g| - |r|..]
  {
    if |g| <= 7 then g else g[|g| - 7..]
  }

  /** On ascending groups, every dropped timestamp precedes every kept one:
      the series holds the seven most recent dates. */
  lemma {:induction false} LastSevenAreLatest(g: seq<Group>, i: nat, j: nat)
    requires StrictlyAscending(g)
    requires i < |g| - |LastSeven(g)| && j < |LastSeven(g)|
    ensures Before(g[i].at, LastSeven(g)[j].at)
  {
    assert LastSeven(g)[j] == g[|g| - |LastSeven(g)| + j];
  }

  /** Zero-padded two-digit field, as `%d` and `%m` in `strftime`. */
  function Pad2(n: nat): (r: string)
    ensures |r| >= 2 && AllDigits(r)
    ensures ParseNat(r) == n
  {
    ParseNatToString(n);
    if n < 10 then
      var r := "0" + NatToString(n);
      assert r[..1] == "0";
      PadParse(NatToString(n));
      r
    else NatToString(n)
  }

  lemma {:induction false} PadParse(s: string)
    requires AllDigits(s)
    ensures ParseNat("0" + s) == ParseNat(s)
  {
    if s != [] {
      var z := "0" + s;
      assert z[..|z| - 1] == "0" + s[..|s| - 1];
      PadParse(s[..|s| - 1]);
    }
  }

  /** The `"%d/%m"` label of a timestamp. */
  function Label(t: Timestamp): string {
    Pad2(t.day) + "/" + Pad2(t.month)
  }

  /** The two arrays of the chart: `vendas_labels` and `vendas_valores`. */
  datatype Series = Series(labels: seq<string>, values: seq<int>)

  /** Some day's sum raises the TypeError: pandas' `sum` fails before `tail`
      drops anything. */
  ghost predicate SumRaises(rows: seq<(Timestamp, Cell)>) {
    exists i :: 0 <= i < |rows| && SumOn(rows, rows[i].0) == SumFailed
  }

  /** The chart series: the `"%d/%m"` labels and the float() values of the
      last seven groups; None when the grouped sum or a float() raises. */
  function MakeSeries(rows: seq<(Timestamp, Cell)>): (s: Option<Series>)
    ensures var g := LastSeven(GroupSum(rows));
      s.None? <==> SumRaises(rows) || exists k :: 0 <= k < |g| && ToFloat(SumOn(rows, g[k].at)).None?
    ensures var g := LastSeven(GroupSum(rows));
      s.Some? ==> |s.value.labels| == |s.value.values| == |g| <= 7
                  && forall k :: 0 <= k < |g| ==>
                       s.value.labels[k] == Label(g[k].at)
                       && Some(s.value.values[k]) == ToFloat(SumOn(rows, g[k].at))
  {
    var all := GroupSum(rows);
    var g := LastSeven(all);
    SeriesTotals(rows);
    FailedGroups(rows);
    if AnyFailed(all) || !AllConvert(g) then None
    else
      Some(Series(seq(|g|, k requires 0 <= k < |g| => Label(g[k].at)),
                  seq(|g|, k requires 0 <= k < |g| => ToFloat(g[k].total).value)))
  }

  /** Some group's sum raised. */
  predicate AnyFailed(g: seq<Group>) {
    exists k | 0 <= k < |g| :: g[k].total == SumFailed
  }

  /** float() reads every group's sum. */
  predicate AllConvert(g: seq<Group>) {
    forall k | 0 <= k < |g| :: ToFloat(g[k].total).Some?
  }

  /** Each of the last seven groups holds the sum of its date's quantities. */
  lemma SeriesTotals(rows: seq<(Timestamp, Cell)>)
    ensures var g := LastSeven(GroupSum(rows));
      forall k :: 0 <= k < |g| ==> g[k].total == SumOn(rows, g[k].at)
  {
    var all := GroupSum(rows);
    GroupTotals(rows);
    assert LastSeven(all) == all[|all| - |LastSeven(all)|..];
    SuffixHoldsSums(rows, all, |all| - |LastSeven(all)|);
  }

  /** Every group of `g` holds the sum of its own date. */
  ghost predicate HoldsSums(rows: seq<(Timestamp, Cell)>, g: seq<Group>) {
    forall k :: 0 <= k < |g| ==> g[k].total == SumOn(rows, g[k].at)
  }

  lemma GroupTotals(rows: seq<(Timestamp, Cell)>)
    ensures HoldsSums(rows, GroupSum(rows))
  {
    var all := GroupSum(rows);
    forall m | 0 <= m < |all| ensures all[m].total == SumOn(rows, all[m].at) {
      GroupTotal(rows, m);
    }
  }

  lemma SuffixHoldsSums(rows: seq<(Timestamp, Cell)>, g: seq<Group>, a: nat)
    requires HoldsSums(rows, g) && a <= |g|
    ensures HoldsSums(rows, g[a..])
  {
    forall k | 0 <= k < |g[a..]| ensures g[a..][k].total == SumOn(rows, g[a..][k].at) {
      assert g[a..][k] == g[a + k];
    }
  }
  /** Each group holds the sum of its own date. */
  lemma GroupTotal(rows: seq<(Timestamp, Cell)>, m: nat)
    requires m < |GroupSum(rows)|
    ensures GroupSum(rows)[m].total == SumOn(rows, GroupSum(rows)[m].at)
  {
    GroupSumSpec(rows);
    LookupAt(GroupSum(rows), m);
  }

  /** Some group's sum failed exactly when some day's sum raises. */
  lemma FailedGroups(rows: seq<(Timestamp, Cell)>)
    ensures AnyFailed(GroupSum(rows)) <==> SumRaises(rows)
  {
    var all := GroupSum(rows);
    if k :| 0 <= k < |all| && all[k].total == SumFailed {
      FailedGroupRaises(rows, k);
    }
    if i :| 0 <= i < |rows| && SumOn(rows, rows[i].0) == SumFailed {
      RaisesInGroup(rows, i);
    }
  }

  lemma FailedGroupRaises(rows: seq<(Timestamp, Cell)>, k: nat)
    requires k < |GroupSum(rows)| && GroupSum(rows)[k].total == SumFailed
    ensures SumRaises(rows)
  {
    var all := GroupSum(rows);
    assert all[k].at in Keys(all);
    var i :| 0 <= i < |rows| && rows[i].0 == all[k].at;
    GroupSumSpec(rows);
    LookupAt(all, k);
    assert SumOn(rows, rows[i].0) == SumFailed;
  }

  lemma RaisesInGroup(rows: seq<(Timestamp, Cell)>, i: nat)
    requires i < |rows| && SumOn(rows, rows[i].0) == SumFailed
    ensures AnyFailed(GroupSum(rows))
  {
    var all := GroupSum(rows);
    assert rows[i].0 in Dates(rows);
    var k :| 0 <= k < |all| && all[k].at == rows[i].0;
    GroupSumSpec(rows);
    LookupAt(all, k);
    assert all[k].total == SumFailed;
  }

  lemma {:induction false} LookupAt(g: seq<Group>, m: nat)
    requires StrictlyAscending(g) && m < |g|
    ensures Lookup(g, g[m].at) == g[m].total
  {
    if m > 0 {
      assert Before(g[0].at, g[m].at);
      assert g[m] == g[1..][m - 1];
      LookupAt(g[1..], m - 1);
    }
  }
}
