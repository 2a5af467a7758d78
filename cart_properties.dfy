/**
 * What the cart view's quantity buttons and total promise, stated over the
 * functions of CartView: the stock cap, removal at quantity one, order of
 * the other lines, the validity invariant, how the total moves, and that a
 * "+" followed by a "-" (and the reverse) gives the cart back.
 */
module CartProperties {

  import opened Wrappers
  import opened CartView

  /** The lines whose id is not `id`, in their order. */
  function Others(s: seq<Item>, id: string): (r: seq<Item>)
    ensures |r| <= |s|
    ensures forall i :: 0 <= i < |r| ==> r[i].id != id
  {
    if s == [] then [] else (if s[0].id != id then [s[0]] else []) + Others(s[1..], id)
  }

  /** `id` names no line of `s`. */
  predicate Absent(s: seq<Item>, id: string) {
    forall i :: 0 <= i < |s| ==> s[i].id != id
  }

  // ---------------------------------------------------------------- increase

  /** "+" leaves the lines exactly as they were iff no line with that id has room below its stock. */
  lemma IncreaseUnchangedIff(s: seq<Item>, id: string)
    ensures IncreaseItems(s, id) == s <==> forall i :: 0 <= i < |s| && s[i].id == id ==> s[i].quantity >= s[i].stock
  {
    var r := IncreaseItems(s, id);
    if forall i :: 0 <= i < |s| && s[i].id == id ==> s[i].quantity >= s[i].stock {
      assert forall i :: 0 <= i < |s| ==> r[i] == s[i];
    }
  }

  /** With unique ids, "+" on the line at `k` changes at most that line, by one unit. */
  lemma IncreaseAt(s: seq<Item>, id: string, k: int)
    requires UniqueIds(s) && 0 <= k < |s| && s[k].id == id
    ensures IncreaseItems(s, id) ==
      if s[k].quantity < s[k].stock then s[k := s[k].(quantity := s[k].quantity + 1)] else s
  {
    var r := IncreaseItems(s, id);
    var t := if s[k].quantity < s[k].stock then s[k := s[k].(quantity := s[k].quantity + 1)] else s;
    assert forall i :: 0 <= i < |s| ==> r[i] == t[i];
  }

  /** "+" keeps every line within its stock and the ids unique. */
  lemma IncreasePreservesValid(s: seq<Item>, id: string)
    requires ValidItems(s)
    ensures ValidItems(IncreaseItems(s, id))
  {
  }

  /** "+" leaves the lines with other ids, in order. */
  lemma {:induction false} IncreaseKeepsOthers(s: seq<Item>, id: string)
    ensures Others(IncreaseItems(s, id), id) == Others(s, id)
  {
    if s != [] {
      var r := IncreaseItems(s, id);
      assert r[1..] == IncreaseItems(s[1..], id);
      IncreaseKeepsOthers(s[1..], id);
    }
  }

  // ---------------------------------------------------------------- decrease

  /** "-" leaves the lines with other ids, in their original relative order. */
  lemma {:induction false} DecreaseKeepsOthers(s: seq<Item>, id: string)
    ensures Others(Decremented(s, id), id) == Others(s, id)
  {
    if s != [] {
      DecreaseKeepsOthers(s[1..], id);
      OthersAppend(DecrementedLine(s[0], id), Decremented(s[1..], id), id);
    }
  }

  lemma {:induction false} OthersAppend(a: seq<Item>, b: seq<Item>, id: string)
    ensures Others(a + b, id) == Others(a, id) + Others(b, id)
  {
    if a == [] {
      assert a + b == b;
    } else {
      assert (a + b)[0] == a[0] && (a + b)[1..] == a[1..] + b;
      OthersAppend(a[1..], b, id);
    }
  }

  /** "-" for an id no line carries changes nothing. */
  lemma {:induction false} DecreaseAbsent(s: seq<Item>, id: string)
    requires Absent(s, id)
    ensures Decremented(s, id) == s
  {
    if s != [] {
      DecreaseAbsent(s[1..], id);
      assert s == [s[0]] + s[1..];
    }
  }

  /** "-" leaves the lines exactly as they were iff no line has that id. */
  lemma {:induction false} DecreaseUnchangedIff(s: seq<Item>, id: string)
    ensures Decremented(s, id) == s <==> Absent(s, id)
  {
    if Absent(s, id) {
      DecreaseAbsent(s, id);
    } else if s != [] {
      if s[0].id == id {
        if s[0].quantity <= 1 {
          assert |Decremented(s, id)| < |s|;
        } else {
          assert Decremented(s, id)[0].quantity != s[0].quantity;
        }
      } else {
        DecreaseUnchangedIff(s[1..], id);
        assert !Absent(s[1..], id) by {
          var i :| 0 <= i < |s| && s[i].id == id;
          assert s[1..][i - 1].id == id;
        }
      }
    }
  }

  /**
   * With unique ids, "-" on the line at `k` lowers it by one unit in place
   * when it holds more than one, and otherwise removes it, leaving one line
   * fewer and the rest in order.
   */
  lemma {:induction false} DecreaseAt(s: seq<Item>, id: string, k: int)
    requires UniqueIds(s) && 0 <= k < |s| && s[k].id == id
    ensures Decremented(s, id) ==
      if s[k].quantity > 1 then s[k := s[k].(quantity := s[k].quantity - 1)] else s[..k] + s[k + 1..]
    ensures s[k].quantity <= 1 ==> |Decremented(s, id)| == |s| - 1
  {
    if k == 0 {
      assert Absent(s[1..], id) by {
        forall i | 0 <= i < |s[1..]| ensures s[1..][i].id != id {
          assert s[1..][i] == s[i + 1];
        }
      }
      DecreaseAbsent(s[1..], id);
      if s[0].quantity > 1 {
        assert s[0 := s[0].(quantity := s[0].quantity - 1)] == [s[0].(quantity := s[0].quantity - 1)] + s[1..];
      }
    } else {
      assert UniqueIds(s[1..]) by {
        forall i, j | 0 <= i < j < |s[1..]| ensures s[1..][i].id != s[1..][j].id {
          assert s[1..][i] == s[i + 1] && s[1..][j] == s[j + 1];
        }
      }
      assert s[1..][k - 1] == s[k];
      DecreaseAt(s[1..], id, k - 1);
      assert s[0].id != id;
      if s[k].quantity > 1 {
        assert s[k := s[k].(quantity := s[k].quantity - 1)] == [s[0]] + s[1..][k - 1 := s[k].(quantity := s[k].quantity - 1)];
      } else {
        assert s[..k] + s[k + 1..] == [s[0]] + (s[1..][..k - 1] + s[1..][k..]);
      }
    }
  }

  /** Dropping one line keeps a valid item sequence valid. */
  lemma RemovePreservesValid(s: seq<Item>, k: int)
    requires ValidItems(s) && 0 <= k < |s|
    ensures ValidItems(s[..k] + s[k + 1..])
  {
    var r := s[..k] + s[k + 1..];
    assert forall i :: 0 <= i < |r| ==> r[i] == s[if i < k then i else i + 1];
  }

  /** Changing one line's quantity to another valid one keeps a valid item sequence valid. */
  lemma UpdatePreservesValid(s: seq<Item>, k: int, x: Item)
    requires ValidItems(s) && 0 <= k < |s| && SameButQuantity(x, s[k]) && ValidItem(x)
    ensures ValidItems(s[k := x])
  {
  }

  /** "-" keeps every line within its stock and above zero, and the ids unique. */
  lemma DecreasePreservesValid(s: seq<Item>, id: string)
    requires ValidItems(s)
    ensures ValidItems(Decremented(s, id))
  {
    if Absent(s, id) {
      DecreaseAbsent(s, id);
    } else {
      var k :| 0 <= k < |s| && s[k].id == id;
      DecreaseAt(s, id, k);
      if s[k].quantity > 1 {
        UpdatePreservesValid(s, k, s[k].(quantity := s[k].quantity - 1));
      } else {
        RemovePreservesValid(s, k);
      }
    }
  }

  // ------------------------------------------------------------------- total

  /** The total is additive over concatenation. */
  lemma {:induction false} SumAppend(a: seq<Item>, b: seq<Item>)
    ensures Sum(a + b) == Sum(a) + Sum(b)
  {
    if a == [] {
      assert a + b == b;
    } else {
      assert (a + b)[0] == a[0] && (a + b)[1..] == a[1..] + b;
      SumAppend(a[1..], b);
    }
  }

  /** Replacing one line moves the total by the difference of the two lines' amounts. */
  lemma SumUpdate(s: seq<Item>, k: int, x: Item)
    requires 0 <= k < |s|
    ensures Sum(s[k := x]) == Sum(s) - LineAmount(s[k]) + LineAmount(x)
  {
    assert s == s[..k] + [s[k]] + s[k + 1..];
    assert s[k := x] == s[..k] + [x] + s[k + 1..];
    SumAppend(s[..k] + [s[k]], s[k + 1..]);
    SumAppend(s[..k], [s[k]]);
    SumAppend(s[..k] + [x], s[k + 1..]);
    SumAppend(s[..k], [x]);
  }

  /** With unique ids, "+" on a line raises the total by that line's price, or not at all at the stock cap. */
  lemma TotalAfterIncrease(s: seq<Item>, id: string, k: int)
    requires UniqueIds(s) && 0 <= k < |s| && s[k].id == id
    ensures Sum(IncreaseItems(s, id)) == Sum(s) + (if s[k].quantity < s[k].stock then s[k].price else 0)
  {
    var t := IncreaseItems(s, id);
    IncreaseAt(s, id, k);
    if s[k].quantity < s[k].stock {
      var x := s[k].(quantity := s[k].quantity + 1);
      assert t == s[k := x];
      AmountOfOneMore(s[k]);
      SumUpdate(s, k, x);
      assert Sum(t) == Sum(s) + s[k].price;
    } else {
      assert t == s;
    }
  }

  /** One more unit adds the line's price to its amount. */
  lemma AmountOfOneMore(item: Item)
    ensures LineAmount(item.(quantity := item.quantity + 1)) == LineAmount(item) + item.price
  {
    assert item.price * (item.quantity + 1) == item.price * item.quantity + item.price;
  }

  /** With unique ids and a valid line, "-" on it lowers the total by exactly its price. */
  lemma TotalAfterDecrease(s: seq<Item>, id: string, k: int)
    requires UniqueIds(s) && 0 <= k < |s| && s[k].id == id && s[k].quantity >= 1
    ensures Sum(Decremented(s, id)) == Sum(s) - s[k].price
  {
    DecreaseAt(s, id, k);
    if s[k].quantity > 1 {
      var x := s[k].(quantity := s[k].quantity - 1);
      assert LineAmount(x) == LineAmount(s[k]) - s[k].price;
      SumUpdate(s, k, x);
    } else {
      assert s == s[..k] + [s[k]] + s[k + 1..];
      SumAppend(s[..k] + [s[k]], s[k + 1..]);
      SumAppend(s[..k], [s[k]]);
      SumAppend(s[..k], s[k + 1..]);
    }
  }

  // ------------------------------------------------------------ round trips

  /** "-" undoes "+" on a valid cart whose line had room below its stock; the status ends `Fetched`. */
  lemma DecreaseUndoesIncrease(cart: Cart, id: string, k: int)
    requires cart.items.Some? && ValidItems(cart.items.value)
    requires 0 <= k < |cart.items.value| && cart.items.value[k].id == id
    requires cart.items.value[k].quantity < cart.items.value[k].stock
    ensures Decrease(Increase(cart, id), id) == cart.(status := Fetched)
  {
    var s := cart.items.value;
    IncreaseAt(s, id, k);
    var t := IncreaseItems(s, id);
    assert UniqueIds(t);
    DecreaseAt(t, id, k);
    assert t[k := t[k].(quantity := t[k].quantity - 1)] == s;
  }

  /** "+" undoes "-" on a valid cart whose line held more than one unit; the status ends `Fetched`. */
  lemma IncreaseUndoesDecrease(cart: Cart, id: string, k: int)
    requires cart.items.Some? && ValidItems(cart.items.value)
    requires 0 <= k < |cart.items.value| && cart.items.value[k].id == id
    requires cart.items.value[k].quantity > 1
    ensures Increase(Decrease(cart, id), id) == cart.(status := Fetched)
  {
    var s := cart.items.value;
    DecreaseAt(s, id, k);
    var t := Decremented(s, id);
    assert UniqueIds(t);
    IncreaseAt(t, id, k);
    assert t[k := t[k].(quantity := t[k].quantity + 1)] == s;
  }

  // --------------------------------------------------------------- scenarios

  /** A line already at its stock: "+" keeps quantity 1 and the total stays 10. */
  lemma StockCappedScenario()
    ensures var item := Item("a", "A", 10, 1, 1);
            var after := Increase(Cart(Fetched, Some([item])), "a");
            after.items == Some([item]) && TotalAmount(after) == 10
  {
    var item := Item("a", "A", 10, 1, 1);
    IncreaseUnchangedIff([item], "a");
    assert Sum([item]) == 10;
  }

  /** "-" on a line holding one unit removes it and keeps the other line as it was. */
  lemma RemoveAtOneScenario()
    ensures var a := Item("a", "A", 5, 1, 3);
            var b := Item("b", "B", 7, 2, 3);
            Decrease(Cart(Fetched, Some([a, b])), "a").items == Some([b])
  {
    var a := Item("a", "A", 5, 1, 3);
    var b := Item("b", "B", 7, 2, 3);
    DecreaseAt([a, b], "a", 0);
    assert [a, b][..0] + [a, b][1..] == [b];
  }
}
