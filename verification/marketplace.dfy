/** The buyer-match carousel of the Marketplace page: "Connect" moves to
    the next buyer and "Pass" to the previous one, wrapping around. */
module Marketplace {
  datatype Buyer = Buyer(id: nat, name: string, crop: string, quantity: string,
                         price: string, distance: string, rating: real, verified: bool)

  const Buyers: seq<Buyer> := [
    Buyer(1, "Fresh Mart Wholesale", "Tomato", "500 kg", "\U{20B9}42/kg", "15 km", 4.6, true),
    Buyer(2, "Coimbatore Traders", "Cotton", "2 tons", "\U{20B9}6,400/quintal", "25 km", 4.8, true),
    Buyer(3, "Organic Foods Ltd", "Groundnut", "1 ton", "\U{20B9}5,900/quintal", "30 km", 4.4, false)
  ]

  /** `nextBuyer`: `(prev + 1) % buyers.length`. */
  function NextBuyer(i: nat): (r: nat)
    ensures r < |Buyers|
    ensures i + 1 < |Buyers| ==> r == i + 1
    ensures i == |Buyers| - 1 ==> r == 0
  {
    (i + 1) % |Buyers|
  }

  /** `prevBuyer`: `(prev - 1 + buyers.length) % buyers.length`; the
      dividend is never negative, so JavaScript's `%` and the Euclidean one
      agree here. */
  function PrevBuyer(i: nat): (r: nat)
    ensures r < |Buyers|
    ensures 0 < i < |Buyers| ==> r == i - 1
    ensures i == 0 ==> r == |Buyers| - 1
  {
    (i - 1 + |Buyers|) % |Buyers|
  }

  datatype Button = Pass | Connect

  /** The two buttons under the card. */
  function Press(i: nat, b: Button): (r: nat)
    ensures r < |Buyers|
  {
    match b
    case Pass => PrevBuyer(i)
    case Connect => NextBuyer(i)
  }

  /** "Pass" undoes "Connect" and the other way round. */
  lemma PassUndoesConnect(i: nat)
    requires i < |Buyers|
    ensures Press(Press(i, Connect), Pass) == i
    ensures Press(Press(i, Pass), Connect) == i
  {
  }

  /** Pressing "Connect" `k` times. */
  function ConnectTimes(i: nat, k: nat): (r: nat)
    ensures k > 0 ==> r < |Buyers|
  {
    if k == 0 then i else NextBuyer(ConnectTimes(i, k - 1))
  }

  /** `k` presses of "Connect" advance the card by `k` places modulo the
      number of buyers. */
  lemma {:induction false} ConnectTimesAdvances(i: nat, k: nat)
    requires i < |Buyers|
    ensures ConnectTimes(i, k) == (i + k) % |Buyers|
  {
    if k > 0 {
      ConnectTimesAdvances(i, k - 1);
      var m := (i + k - 1) % |Buyers|;
      assert ConnectTimes(i, k) == (m + 1) % |Buyers|;
      assert (i + k - 1) == ((i + k - 1) / |Buyers|) * |Buyers| + m;
    }
  }

  /** Going once round the carousel comes back to the same buyer. */
  lemma FullCircle(i: nat)
    requires i < |Buyers|
    ensures ConnectTimes(i, |Buyers|) == i
  {
    ConnectTimesAdvances(i, |Buyers|);
  }

  /** The card shown first. */
  const FirstBuyer: nat := 0

  /** The card shown after a run of button presses from the first one. */
  function Carousel(presses: seq<Button>): (r: nat)
    ensures r < |Buyers|
  {
    if |presses| == 0 then FirstBuyer
    else Press(Carousel(presses[..|presses| - 1]), presses[|presses| - 1])
  }

  /** After `k` presses of "Connect" the carousel shows buyer `k mod 3`. */
  lemma {:induction false} ConnectOnly(presses: seq<Button>)
    requires forall i :: 0 <= i < |presses| ==> presses[i] == Connect
    ensures Carousel(presses) == |presses| % |Buyers|
  {
    ConnectsAreConnectTimes(presses);
    ConnectTimesAdvances(FirstBuyer, |presses|);
  }

  lemma {:induction false} ConnectsAreConnectTimes(presses: seq<Button>)
    requires forall i :: 0 <= i < |presses| ==> presses[i] == Connect
    ensures Carousel(presses) == ConnectTimes(FirstBuyer, |presses|)
  {
    if |presses| > 0 {
      ConnectsAreConnectTimes(presses[..|presses| - 1]);
    }
  }
}
