/**
 * The bidder's bid-entry panel: the amount field, the minimum bid, the
 * quick-increment buttons and the confirmation overlay. `currentPrice` is
 * the prop the room passes in; it can change after mount, while the amount
 * keeps the value it was initialised with until the bidder changes it.
 */
module BidPanel {
  import opened Js

  /** The quick-increment buttons. */
  const PanelIncrements: seq<int> := [100, 500, 1000]

  /** What the amount starts at above the current price. */
  const InitialMargin: int := 100

  /** `currentPrice + 1`. */
  function MinBid(currentPrice: Number): (r: Number)
    ensures r.Int? <==> currentPrice.Int?
    ensures r.Int? ==> r.i == currentPrice.i + 1
  {
    Plus(currentPrice, 1)
  }

  /** The guard of "Place Bid Now": `!(bidAmount < minBid)`, so NaN on either side lets the amount through. */
  predicate Proceeds(bidAmount: Number, currentPrice: Number) {
    !Less(bidAmount, MinBid(currentPrice))
  }

  /**
   * Between numbers the guard lets through exactly the amounts above the
   * current price; when either side is NaN it lets everything through.
   */
  lemma ProceedsMeansAbovePrice(bidAmount: Number, currentPrice: Number)
    ensures bidAmount.Int? && currentPrice.Int? ==>
              (Proceeds(bidAmount, currentPrice) <==> bidAmount.i > currentPrice.i)
    ensures bidAmount.NaN? || currentPrice.NaN? ==> Proceeds(bidAmount, currentPrice)
  {
  }

  class Panel {
    var currentPrice: Number
    var bidAmount: Number
    var showConfirm: bool
    var isSuccess: bool
    /** The amounts handed to `onPlaceBid`, in order. */
    var placed: seq<Number>

    /** Mounting: the amount starts at the price plus 100, computed once. */
    constructor (currentPrice: Number)
      ensures this.currentPrice == currentPrice
      ensures bidAmount == Plus(currentPrice, InitialMargin)
      ensures !showConfirm && !isSuccess && placed == []
    {
      this.currentPrice := currentPrice;
      bidAmount := Plus(currentPrice, InitialMargin);
      showConfirm := false;
      isSuccess := false;
      placed := [];
    }

    /** A new price from the room: the minimum follows it, the amount does not. */
    method ReceivePrice(price: Number)
      modifies this`currentPrice
      ensures currentPrice == price
    {
      currentPrice := price;
    }

    /** Typing: the field's text read with `Number`. */
    method Edit(text: string)
      modifies this`bidAmount
      ensures bidAmount == ToNumber(text)
    {
      bidAmount := ToNumber(text);
    }

    /** A quick-increment button: the price plus `inc`, whatever the amount was (not cumulative). */
    method Increment(inc: int)
      requires inc in PanelIncrements
      modifies this`bidAmount
      ensures bidAmount == Plus(currentPrice, inc)
    {
      bidAmount := Plus(currentPrice, inc);
    }

    /** "Place Bid Now": the overlay opens only when the guard lets the amount through; nothing is placed yet. */
    method HandlePlaceBid()
      modifies this`showConfirm
      ensures showConfirm == (old(showConfirm) || Proceeds(bidAmount, currentPrice))
    {
      if Less(bidAmount, MinBid(currentPrice)) {
        return;
      }
      showConfirm := true;
    }

    /**
     * "Confirm" (shown only on the overlay): `onPlaceBid` gets the amount once,
     * without checking the minimum again, the overlay closes and the success
     * banner shows.
     */
    method Confirm()
      requires showConfirm
      modifies this`placed, this`showConfirm, this`isSuccess
      ensures placed == old(placed) + [bidAmount]
      ensures !showConfirm && isSuccess
    {
      placed, showConfirm, isSuccess := placed + [bidAmount], false, true;
    }

    /** "Cancel": the overlay closes and nothing is placed. */
    method Cancel()
      modifies this`showConfirm
      ensures !showConfirm
    {
      showConfirm := false;
    }

    /** The success banner's 3-second timer. */
    method SuccessTimerFires()
      modifies this`isSuccess
      ensures !isSuccess
    {
      isSuccess := false;
    }
  }

  /**
   * An amount the guard let through before the price moved is still placed
   * as it is: after a higher price arrives, Confirm hands over an amount that
   * no longer exceeds it.
   */
  method StaleConfirmation(start: int, price: int) returns (amount: Number)
    requires price >= start + 100
    ensures amount == Int(start + 100)
    ensures Proceeds(amount, Int(start)) && !Proceeds(amount, Int(price))
  {
    var p := new Panel(Int(start));
    p.HandlePlaceBid();
    assert p.showConfirm;
    p.ReceivePrice(Int(price));
    p.Confirm();
    amount := p.placed[0];
  }
}
