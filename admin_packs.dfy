/**
 * ballsdex/packages/admin/packs.py: an admin gives a player some packs of a kind, or takes
 * unopened ones away. The pack-instance table is a list of rows; rows are created with
 * fresh ids and deleted in table order.
 */
module AdminPacks {
  import opened Models

  /** The most packs one grant may add. */
  const MaxPacks: int := 1000000

  /** A pack instance: its id, its owner's discord id, the kind of pack and whether it was opened. */
  datatype PackRow = PackRow(id: int, player: int, pack: int, wasOpened: bool)

  /** A row that `packs_remove` may delete: an unopened pack of that kind owned by the player. */
  predicate Unopened(r: PackRow, player: int, pack: int)
  {
    r.player == player && r.pack == pack && !r.wasOpened
  }

  /** How many unopened packs of the kind the player owns. */
  function CountUnopened(rows: seq<PackRow>, player: int, pack: int): (n: nat)
    ensures n <= |rows|
    ensures n == 0 <==> forall k :: 0 <= k < |rows| ==> !Unopened(rows[k], player, pack)
  {
    if rows == [] then 0
    else (if Unopened(rows[0], player, pack) then 1 else 0) + CountUnopened(rows[1..], player, pack)
  }

  /** `amount` new unopened packs for the player, numbered from `firstId`. */
  function NewPacks(firstId: int, player: int, pack: int, amount: nat): (r: seq<PackRow>)
    ensures |r| == amount
    ensures forall k :: 0 <= k < amount ==> r[k] == PackRow(firstId + k, player, pack, false)
  {
    seq(amount, k => PackRow(firstId + k, player, pack, false))
  }

  /** The rows without the first `n` unopened packs of the kind the player owns. */
  function DropUnopened(rows: seq<PackRow>, player: int, pack: int, n: nat): (r: seq<PackRow>)
    ensures |r| <= |rows|
  {
    if rows == [] then []
    else if n > 0 && Unopened(rows[0], player, pack) then DropUnopened(rows[1..], player, pack, n - 1)
    else [rows[0]] + DropUnopened(rows[1..], player, pack, n)
  }

  /** The rows that are not unopened packs of that kind for that player. */
  function Others(rows: seq<PackRow>, player: int, pack: int): (r: seq<PackRow>)
    ensures forall x :: x in r <==> x in rows && !Unopened(x, player, pack)
  {
    if rows == [] then []
    else (if Unopened(rows[0], player, pack) then [] else [rows[0]]) + Others(rows[1..], player, pack)
  }

  lemma CountAppend(rows: seq<PackRow>, more: seq<PackRow>, player: int, pack: int)
    ensures CountUnopened(rows + more, player, pack) == CountUnopened(rows, player, pack) + CountUnopened(more, player, pack)
  {
    if rows != [] {
      assert (rows + more)[1..] == rows[1..] + more;
      CountAppend(rows[1..], more, player, pack);
    } else {
      assert rows + more == more;
    }
  }

  /** Every new pack is an unopened pack of that kind for that player. */
  lemma {:induction false} CountNewPacks(firstId: int, player: int, pack: int, amount: nat)
    ensures CountUnopened(NewPacks(firstId, player, pack, amount), player, pack) == amount
    decreases amount
  {
    if amount > 0 {
      var r := NewPacks(firstId, player, pack, amount);
      assert r[1..] == NewPacks(firstId + 1, player, pack, amount - 1);
      CountNewPacks(firstId + 1, player, pack, amount - 1);
    }
  }

  /**
   * Dropping `n` of the unopened packs, when there are that many, leaves exactly `n` fewer
   * of them and every other row as it was, in the same order.
   */
  lemma {:induction false} DropUnopenedRemoves(rows: seq<PackRow>, player: int, pack: int, n: nat)
    requires n <= CountUnopened(rows, player, pack)
    ensures CountUnopened(DropUnopened(rows, player, pack, n), player, pack) == CountUnopened(rows, player, pack) - n
    ensures Others(DropUnopened(rows, player, pack, n), player, pack) == Others(rows, player, pack)
    ensures |DropUnopened(rows, player, pack, n)| == |rows| - n
  {
    if rows != [] {
      if n > 0 && Unopened(rows[0], player, pack) {
        DropUnopenedRemoves(rows[1..], player, pack, n - 1);
      } else {
        DropUnopenedRemoves(rows[1..], player, pack, n);
        var tail := DropUnopened(rows[1..], player, pack, n);
        var d := DropUnopened(rows, player, pack, n);
        assert d == [rows[0]] + tail;
        assert d[0] == rows[0] && d[1..] == tail;
        assert CountUnopened(d, player, pack) ==
          (if Unopened(rows[0], player, pack) then 1 else 0) + CountUnopened(tail, player, pack);
        assert Others(d, player, pack) ==
          (if Unopened(rows[0], player, pack) then [] else [rows[0]]) + Others(tail, player, pack);
      }
    }
  }

  datatype PacksReply = NotPositive | OverGrantLimit | BelowOne | NotEnoughPacks | PacksUpdated

  /** The pack-instance table. */
  class PackTable {
    var rows: seq<PackRow>
    var nextId: int

    /** Ids in use are below `nextId`. */
    ghost predicate Valid()
      reads this
    {
      forall k :: 0 <= k < |rows| ==> rows[k].id < nextId
    }

    constructor ()
      ensures rows == [] && Valid()
    {
      rows := [];
      nextId := 1;
    }

    /** `PackInstance.create`: a new unopened pack for the player. */
    method Create(player: int, pack: int)
      modifies this
      requires Valid()
      ensures Valid()
      ensures rows == old(rows) + [PackRow(old(nextId), player, pack, false)] && nextId == old(nextId) + 1
    {
      rows := rows + [PackRow(nextId, player, pack, false)];
      nextId := nextId + 1;
    }

    /**
     * `packs_add`: a positive amount up to the limit creates that many unopened packs for
     * the player; any other amount changes nothing.
     */
    method PacksAdd(player: int, pack: int, amount: int) returns (reply: PacksReply)
      modifies this
      requires Valid()
      ensures Valid()
      ensures reply == NotPositive <==> amount <= 0
      ensures reply == OverGrantLimit <==> 0 < amount && MaxPacks < amount
      ensures reply == PacksUpdated <==> 0 < amount <= MaxPacks
      ensures reply in {NotPositive, OverGrantLimit, PacksUpdated}
      ensures reply != PacksUpdated ==> rows == old(rows)
      ensures reply == PacksUpdated ==>
        && rows == old(rows) + NewPacks(old(nextId), player, pack, amount)
        && CountUnopened(rows, player, pack) == old(CountUnopened(rows, player, pack)) + amount
    {
      if amount <= 0 {
        return NotPositive;
      }
      if amount > MaxPacks {
        return OverGrantLimit;
      }
      ghost var before := rows;
      for i := 0 to amount
        invariant Valid() && nextId == old(nextId) + i
        invariant rows == before + NewPacks(old(nextId), player, pack, i)
      {
        Create(player, pack);
        assert NewPacks(old(nextId), player, pack, i) + [PackRow(old(nextId) + i, player, pack, false)]
          == NewPacks(old(nextId), player, pack, i + 1);
      }
      CountAppend(before, NewPacks(old(nextId), player, pack, amount), player, pack);
      CountNewPacks(old(nextId), player, pack, amount);
      reply := PacksUpdated;
    }

    /**
     * `packs_remove`: at least one, and no more than the player's unopened packs of that
     * kind; then the first `amount` of those are deleted.
     */
    method PacksRemove(player: int, pack: int, amount: int) returns (reply: PacksReply)
      modifies this`rows
      requires Valid()
      ensures Valid()
      ensures reply == BelowOne <==> amount < 1
      ensures reply == NotEnoughPacks <==> 1 <= amount && old(CountUnopened(rows, player, pack)) < amount
      ensures reply == PacksUpdated <==> 1 <= amount <= old(CountUnopened(rows, player, pack))
      ensures reply in {BelowOne, NotEnoughPacks, PacksUpdated}
      ensures reply != PacksUpdated ==> rows == old(rows)
      ensures reply == PacksUpdated ==>
        && rows == DropUnopened(old(rows), player, pack, amount)
        && CountUnopened(rows, player, pack) == old(CountUnopened(rows, player, pack)) - amount
        && Others(rows, player, pack) == Others(old(rows), player, pack)
    {
      var packs := CountUnopened(rows, player, pack);
      if amount < 1 {
        return BelowOne;
      }
      if amount > packs {
        return NotEnoughPacks;
      }
      var kept := [];
      var removed := 0;
      for i := 0 to |rows|
        invariant 0 <= removed <= amount
        invariant kept + DropUnopened(rows[i..], player, pack, amount - removed) == DropUnopened(rows, player, pack, amount)
        invariant forall k :: 0 <= k < |kept| ==> kept[k] in rows
      {
        assert rows[i..][1..] == rows[i + 1..];
        if removed < amount && Unopened(rows[i], player, pack) {
          removed := removed + 1;
        } else {
          kept := kept + [rows[i]];
        }
      }
      DropUnopenedRemoves(rows, player, pack, amount);
      rows := kept;
      reply := PacksUpdated;
    }
  }
}
