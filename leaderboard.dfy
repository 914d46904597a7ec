/**
 * The decision game's leaderboard (`FinancialLeaderboard`): four bots with
 * distinct names and random cash, one entry for the player, all ranked by
 * cash from most to least, with icons for the top three places.
 */
module Leaderboard {
  import opened Common
  import opened FinancialGame

  const FakeNames: seq<string> := ["Aarav", "Diya", "Kabir", "Meera", "Rohan", "Isha", "Vihaan", "Anaya", "Arjun", "Sara"]

  /** The number of bots on the board. */
  const BotCount: nat := 4

  datatype Entry = Entry(id: string, name: string, cash: int, isYou: bool)

  predicate Distinct<T(==)>(s: seq<T>) {
    forall i, j :: 0 <= i < j < |s| ==> s[i] != s[j]
  }

  lemma FakeNamesDistinct()
    ensures Distinct(FakeNames)
  {
  }

  /** In a sequence without repeats each value occurs at most once. */
  lemma {:induction false} DistinctCountsOne<T>(s: seq<T>, x: T)
    requires Distinct(s)
    ensures multiset(s)[x] <= 1
    decreases |s|
  {
    if s != [] {
      var t := s[..|s| - 1];
      assert s == t + [s[|s| - 1]];
      assert Distinct(t);
      DistinctCountsOne(t, x);
      if x == s[|s| - 1] {
        assert x !in t;
      }
    }
  }

  /** A rearrangement of a sequence without repeats has none either. */
  lemma PermutationKeepsDistinct<T>(a: seq<T>, b: seq<T>)
    requires multiset(a) == multiset(b) && Distinct(b)
    ensures Distinct(a)
  {
    forall i, j | 0 <= i < j < |a| ensures a[i] != a[j] {
      if a[i] == a[j] {
        assert a == a[..i] + [a[i]] + a[i + 1..j] + [a[j]] + a[j + 1..];
        assert multiset(a)[a[i]] >= 2;
        DistinctCountsOne(b, a[i]);
      }
    }
  }

  /**
   * The bots: the first four names of a shuffle of the fake names, each
   * with `Math.floor(r * 5000)` cash.
   */
  function Bots(shuffled: seq<string>, draws: seq<Draw>): (bots: seq<Entry>)
    requires |shuffled| >= BotCount && |draws| == BotCount
    ensures |bots| == BotCount
  {
    seq(BotCount, i requires 0 <= i < BotCount => Entry("bot-" + Decimal(i), shuffled[i], PickIndex(draws[i], 5000), false))
  }

  /**
   * Bots drawn from a rearrangement of distinct names: each is named after
   * one of those names, no two bots share a name, their cash lies between
   * 0 and 4999, and none is marked as the player.
   */
  lemma {:induction false} BotsFromDistinctNames(names: seq<string>, shuffled: seq<string>, draws: seq<Draw>)
    requires multiset(shuffled) == multiset(names) && Distinct(names)
    requires |names| >= BotCount && |draws| == BotCount
    ensures |shuffled| >= BotCount
    ensures var bots := Bots(shuffled, draws);
      forall i :: 0 <= i < BotCount ==>
        bots[i].id == "bot-" + Decimal(i) && bots[i].name in names
        && 0 <= bots[i].cash <= 4999 && !bots[i].isYou
    ensures var bots := Bots(shuffled, draws);
      forall i, j :: 0 <= i < j < BotCount ==> bots[i].name != bots[j].name
  {
    assert |shuffled| == |multiset(names)| == |names|;
    PermutationKeepsDistinct(shuffled, names);
    var bots := Bots(shuffled, draws);
    forall i | 0 <= i < BotCount ensures bots[i].name in names {
      assert shuffled[i] in multiset(shuffled);
    }
  }

  /** The board's bots, from any shuffle of the fake names. */
  lemma BotsWellFormed(shuffled: seq<string>, draws: seq<Draw>)
    requires multiset(shuffled) == multiset(FakeNames) && |draws| == BotCount
    ensures |shuffled| >= BotCount
    ensures var bots := Bots(shuffled, draws);
      forall i :: 0 <= i < BotCount ==> bots[i].name in FakeNames && 0 <= bots[i].cash <= 4999 && !bots[i].isYou
    ensures var bots := Bots(shuffled, draws);
      forall i, j :: 0 <= i < j < BotCount ==> bots[i].name != bots[j].name
  {
    FakeNamesDistinct();
    BotsFromDistinctNames(FakeNames, shuffled, draws);
  }

  /** The player's entry: their cash, never below 0, and 0 without a player. */
  function YouEntry(player: Option<Player>): (e: Entry)
    ensures e.isYou && e.id == "you" && e.name == "You" && e.cash >= 0
    ensures player.Some? && player.value.cash >= 0 ==> e.cash == player.value.cash
    ensures player.Some? && player.value.cash < 0 ==> e.cash == 0
    ensures player.None? ==> e.cash == 0
  {
    Entry("you", "You", Max(0, if player.Some? then player.value.cash else 0), true)
  }

  /** Most cash first. */
  predicate SortedByCash(s: seq<Entry>) {
    forall i, j :: 0 <= i < j < |s| ==> s[i].cash >= s[j].cash
  }

  /** Puts e into a ranked list after every entry with at least as much cash. */
  function Insert(e: Entry, s: seq<Entry>): seq<Entry> {
    if s == [] then [e]
    else if e.cash > s[0].cash then [e] + s
    else [s[0]] + Insert(e, s[1..])
  }

  /** Inserting adds exactly that entry. */
  lemma {:induction false} InsertAdds(e: Entry, s: seq<Entry>)
    ensures multiset(Insert(e, s)) == multiset(s) + multiset{e} && |Insert(e, s)| == |s| + 1
    ensures forall k :: 0 <= k < |Insert(e, s)| ==> Insert(e, s)[k] == e || Insert(e, s)[k] in s
  {
    if s != [] && e.cash <= s[0].cash {
      InsertAdds(e, s[1..]);
      assert s == [s[0]] + s[1..];
    }
  }

  /** Inserting into a ranked list keeps it ranked. */
  lemma {:induction false} InsertRanks(e: Entry, s: seq<Entry>)
    requires SortedByCash(s)
    ensures SortedByCash(Insert(e, s))
  {
    if s == [] {
    } else if e.cash > s[0].cash {
      var r := [e] + s;
      forall i, j | 0 <= i < j < |r| ensures r[i].cash >= r[j].cash {
        if i > 0 {
          assert r[i] == s[i - 1] && r[j] == s[j - 1];
        } else {
          assert r[j] == s[j - 1];
        }
      }
    } else {
      var rest := Insert(e, s[1..]);
      InsertRanks(e, s[1..]);
      InsertAdds(e, s[1..]);
      var r := [s[0]] + rest;
      forall i, j | 0 <= i < j < |r| ensures r[i].cash >= r[j].cash {
        if i > 0 {
          assert r[i] == rest[i - 1] && r[j] == rest[j - 1];
        } else {
          assert r[j] == rest[j - 1];
          assert r[j] == e || r[j] in s[1..];
        }
      }
    }
  }

  /**
   * The comparator `(a, b) => b.cash - a.cash` as a stable sort: each
   * entry is placed after the earlier ones with at least as much cash.
   */
  function SortByCash(s: seq<Entry>): seq<Entry> {
    if s == [] then [] else Insert(s[|s| - 1], SortByCash(s[..|s| - 1]))
  }

  /** Sorting ranks the entries and neither loses nor adds any. */
  lemma {:induction false} SortByCashRanks(s: seq<Entry>)
    ensures SortedByCash(SortByCash(s)) && multiset(SortByCash(s)) == multiset(s) && |SortByCash(s)| == |s|
  {
    if s != [] {
      SortByCashRanks(s[..|s| - 1]);
      InsertRanks(s[|s| - 1], SortByCash(s[..|s| - 1]));
      InsertAdds(s[|s| - 1], SortByCash(s[..|s| - 1]));
      assert s == s[..|s| - 1] + [s[|s| - 1]];
    }
  }

  /** The board: the bots and the player's entry, ranked. */
  function Entries(bots: seq<Entry>, player: Option<Player>): seq<Entry> {
    SortByCash(bots + [YouEntry(player)])
  }

  /**
   * The board holds exactly the four bots and one entry for the player,
   * ranked from most to least cash, with the player's entry the only one
   * marked as theirs.
   */
  lemma EntriesAreRankedBotsAndYou(shuffled: seq<string>, draws: seq<Draw>, player: Option<Player>)
    requires |shuffled| >= BotCount && |draws| == BotCount
    ensures var bots := Bots(shuffled, draws); var e := Entries(bots, player);
      |e| == BotCount + 1 && SortedByCash(e)
      && multiset(e) == multiset(bots) + multiset{YouEntry(player)}
      && YouEntry(player) in e
      && forall k :: 0 <= k < |e| && e[k].isYou ==> e[k] == YouEntry(player)
  {
    var bots := Bots(shuffled, draws);
    var e := Entries(bots, player);
    SortByCashRanks(bots + [YouEntry(player)]);
    assert multiset(bots + [YouEntry(player)]) == multiset(bots) + multiset{YouEntry(player)};
    assert YouEntry(player) in multiset(e);
    forall k | 0 <= k < |e| && e[k].isYou ensures e[k] == YouEntry(player) {
      assert e[k] in multiset(bots + [YouEntry(player)]);
      assert e[k] in bots + [YouEntry(player)];
    }
  }

  datatype RankIcon = Trophy | Medal | Award

  /** `getRankIcon`: icons for the first three places only. */
  function GetRankIcon(rank: int): (icon: Option<RankIcon>)
    ensures icon.Some? <==> 1 <= rank <= 3
    ensures rank == 1 ==> icon == Some(Trophy)
    ensures rank == 2 ==> icon == Some(Medal)
    ensures rank == 3 ==> icon == Some(Award)
  {
    if rank == 1 then Some(Trophy)
    else if rank == 2 then Some(Medal)
    else if rank == 3 then Some(Award)
    else None
  }
}
