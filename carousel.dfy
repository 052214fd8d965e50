/** The product carousel on the home page (src/components/product-carousel.tsx):
    the index of the product on show, the arrows, the dots and tiles, the
    autoplay tick, and the shortened names under the tiles. */
module ProductCarousel {

  datatype Icon = Thermometer | Wind | Zap

  const ProductKeys: seq<string> := ["daikinFit", "vrv", "thermostat", "aurora", "rebel"]
  const ProductIcons: seq<Icon> := [Thermometer, Wind, Zap, Wind, Thermometer]

  /** The two tables line up, so every index of one is an index of the other. */
  lemma TablesAlign()
    ensures |ProductKeys| == |ProductIcons| == 5
  {
  }

  /** `(i + 1) % productKeys.length`. */
  function Next(i: nat): (r: nat)
    requires i < |ProductKeys|
    ensures r < |ProductKeys|
    ensures r == if i == |ProductKeys| - 1 then 0 else i + 1
  {
    (i + 1) % |ProductKeys|
  }

  /** `i === 0 ? productKeys.length - 1 : i - 1`. */
  function Previous(i: nat): (r: nat)
    requires i < |ProductKeys|
    ensures r < |ProductKeys|
  {
    if i == 0 then |ProductKeys| - 1 else i - 1
  }

  /** Next and previous undo each other. */
  lemma NextPreviousInverse(i: nat)
    requires i < |ProductKeys|
    ensures Previous(Next(i)) == i && Next(Previous(i)) == i
  {
  }

  /** The index after `k` steps forward. */
  function NextN(i: nat, k: nat): (r: nat)
    requires i < |ProductKeys|
    ensures r < |ProductKeys|
  {
    if k == 0 then i else Next(NextN(i, k - 1))
  }

  lemma {:induction false} NextNModulo(i: nat, k: nat)
    requires i < |ProductKeys|
    ensures NextN(i, k) == (i + k) % |ProductKeys|
  {
    if k > 0 {
      NextNModulo(i, k - 1);
      ModSuccessor(i + k - 1);
    }
  }

  /** One step forward on the remainder is one more on the count. */
  lemma ModSuccessor(m: nat)
    ensures (m % 5 + 1) % 5 == (m + 1) % 5
  {
    var q := m / 5;
    assert m == 5 * q + m % 5;
    if m % 5 == 4 {
      assert m + 1 == 5 * (q + 1);
    } else {
      assert m + 1 == 5 * q + (m % 5 + 1);
    }
  }

  /** As many steps forward as there are products come back to the start. */
  lemma FullCycle(i: nat)
    requires i < |ProductKeys|
    ensures NextN(i, |ProductKeys|) == i
  {
    NextNModulo(i, |ProductKeys|);
  }

  /** `name.length > 15 ? name.substring(0, 15) + "..." : name`. */
  function Truncate(name: string): (r: string)
    ensures |name| <= 15 ==> r == name
    ensures |name| > 15 ==> |r| == 18 && r[..15] == name[..15] && r[15..] == "..."
  {
    if |name| > 15 then name[..15] + "..." else name
  }

  /** Shortening a shortened name changes nothing. */
  lemma TruncateIdempotent(name: string)
    ensures Truncate(Truncate(name)) == Truncate(name)
  {
  }

  /** The carousel's state: the `currentIndex` React state variable. */
  class Carousel {
    var currentIndex: nat

    ghost predicate Valid()
      reads this
    {
      currentIndex < |ProductKeys|
    }

    /** `useState(0)`. */
    constructor ()
      ensures Valid() && currentIndex == 0
    {
      currentIndex := 0;
    }

    /** The key and icon of the product on show. */
    function Current(): (r: (string, Icon))
      requires Valid()
      reads this
      ensures r.0 == ProductKeys[currentIndex] && r.1 == ProductIcons[currentIndex]
    {
      (ProductKeys[currentIndex], ProductIcons[currentIndex])
    }

    /** The right arrow. */
    method GoToNext()
      requires Valid()
      modifies this
      ensures Valid() && currentIndex == Next(old(currentIndex))
    {
      currentIndex := (currentIndex + 1) % |ProductKeys|;
    }

    /** The left arrow. */
    method GoToPrevious()
      requires Valid()
      modifies this
      ensures Valid() && currentIndex == Previous(old(currentIndex))
    {
      currentIndex := if currentIndex == 0 then |ProductKeys| - 1 else currentIndex - 1;
    }

    /** The autoplay interval's callback: the same step as the right arrow. */
    method Tick()
      requires Valid()
      modifies this
      ensures Valid() && currentIndex == Next(old(currentIndex))
    {
      currentIndex := (currentIndex + 1) % |ProductKeys|;
    }

    /** A dot or a grid tile: they are drawn one per product, so `index` is in range. */
    method Select(index: nat)
      requires Valid() && index < |ProductKeys|
      modifies this
      ensures Valid() && currentIndex == index
    {
      currentIndex := index;
    }
  }
}
