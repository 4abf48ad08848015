/**
 * The grid arithmetic of the Wardley map renderer: how the drawable area is
 * cut into four evolution bands, and where a node lands inside them.
 *
 * Coordinates are relative to the drawing origin, which the renderer
 * translates to (2*margin, height - 2*margin): x grows to the right, and y
 * is negative above the bottom axis.
 */
module Layout {
  import opened GoInt

  /**
   * The band parameters of a map. Field names follow the source, including
   * its spelling of "Lenght".
   */
  datatype Grid = Grid(
    XQuarterLenght: int,
    YLenght: int,
    Genesis: int,
    Custom: int,
    Product: int,
    Commodity: int,
    Visible: int)

  /** The drawable width (or height): the full size less two margins on each side. */
  function Drawable(size: int, margin: int): int {
    size - margin * 4
  }

  /** The grid computed from the flag values, as `grid` assigns it. */
  function GridOf(margin: int, width: int, height: int): (g: Grid)
    ensures g.Genesis == 0 && g.Visible == 0
    ensures g.XQuarterLenght == g.Custom
    ensures g.YLenght == Drawable(height, margin)
  {
    var d := Drawable(width, margin);
    Grid(
      XQuarterLenght := GoDiv(d, 4),
      YLenght := height - margin * 4,
      Genesis := 0,
      Custom := GoDiv(d, 4),
      Product := GoDiv(d * 2, 4),
      Commodity := GoDiv(d * 3, 4),
      Visible := 0)
  }

  /**
   * When the margins leave a non-negative drawable width, the four band
   * origins come in the order genesis, custom, product, commodity, a band
   * one quarter wide starting at any origin ends no later than the next
   * origin, and the last band ends within the drawable width.
   */
  lemma BandsPartitionWidth(margin: int, width: int, height: int)
    requires Drawable(width, margin) >= 0
    ensures var g := GridOf(margin, width, height);
      && 0 <= g.XQuarterLenght
      && g.Genesis + g.XQuarterLenght <= g.Custom
      && g.Custom + g.XQuarterLenght <= g.Product
      && g.Product + g.XQuarterLenght <= g.Commodity
      && g.Commodity + g.XQuarterLenght <= Drawable(width, margin)
  {
    var d := Drawable(width, margin);
    var q := d / 4;
    assert d == 4 * q + d % 4;
    assert (d * 2) / 4 == 2 * q + (2 * (d % 4)) / 4;
    assert (d * 3) / 4 == 3 * q + (3 * (d % 4)) / 4;
  }

  /** The four stages that have a band. */
  predicate KnownStage(evolution: string) {
    evolution == "genesis" || evolution == "custom" || evolution == "product" || evolution == "commodity"
  }

  /** The left edge of a stage's band. */
  function StageOrigin(g: Grid, evolution: string): int
    requires KnownStage(evolution)
  {
    match evolution
    case "genesis" => g.Genesis
    case "custom" => g.Custom
    case "product" => g.Product
    case _ => g.Commodity
  }

  /**
   * The x coordinate `NodeXY` gives a node whose previous x is `x`. Every
   * stage divides the quarter width by `maxCustom + 1`, not by its own
   * maximum; a node of no known stage keeps its previous x.
   */
  function NodeX(g: Grid, evolution: string, maxCustom: int, evolutionX: int, x: int): (r: int)
    requires maxCustom + 1 != 0
    ensures KnownStage(evolution) ==>
      r == StageOrigin(g, evolution) + GoDiv(g.XQuarterLenght, maxCustom + 1) * evolutionX
    ensures !KnownStage(evolution) ==> r == x
  {
    match evolution
    case "genesis" => g.Genesis + GoDiv(g.XQuarterLenght, maxCustom + 1) * evolutionX
    case "custom" => g.Custom + GoDiv(g.XQuarterLenght, maxCustom + 1) * evolutionX
    case "product" => g.Product + GoDiv(g.XQuarterLenght, maxCustom + 1) * evolutionX
    case "commodity" => g.Commodity + GoDiv(g.XQuarterLenght, maxCustom + 1) * evolutionX
    case _ => x
  }

  /**
   * The y coordinate `NodeXY` gives a node; the numerator is negative. For
   * a non-negative height and maximum, one visibility step is the height
   * divided by `maxY + 1`, rounded down, and a node sits
   * `maxY + 1 - visibility` steps above the bottom axis. Visibility
   * `maxY + 1` is on the axis; when the height is below `maxY + 1` the step
   * is 0 and every node is on the axis, otherwise no other visibility is.
   */
  function NodeY(g: Grid, maxY: int, visibility: int): (y: int)
    requires maxY + 1 != 0
    ensures g.YLenght >= 0 && maxY >= 0 ==> y == -(g.YLenght / (maxY + 1) * (maxY + 1 - visibility))
    ensures visibility == maxY + 1 ==> y == 0
    ensures 0 <= g.YLenght < maxY + 1 ==> y == 0
    ensures 0 <= maxY && maxY + 1 <= g.YLenght ==> (y == 0 <==> visibility == maxY + 1)
  {
    var y := GoDiv(-g.YLenght, maxY + 1) * (maxY + 1 - visibility);
    VisibilitySteps(g.YLenght, maxY + 1, visibility, y);
    y
  }

  /** The closed form of `NodeY` for height `h` and divisor `d`, and when it is 0. */
  lemma VisibilitySteps(h: int, d: int, visibility: int, y: int)
    requires d != 0 && y == GoDiv(-h, d) * (d - visibility)
    ensures h >= 0 && d > 0 ==> y == -(h / d * (d - visibility))
    ensures visibility == d ==> y == 0
    ensures 0 <= h < d ==> y == 0
    ensures 0 < d <= h ==> (y == 0 <==> visibility == d)
  {
    var k, q := d - visibility, GoDiv(h, d);
    GoDivNegate(h, d);
    NegatedFactor(q, k);
    assert y == -(q * k);
    if h >= 0 && d > 0 {
      assert q == h / d;
      if h < d {
        assert q == 0;
      } else if visibility != d {
        assert q >= 1;
        ProductOfNonZeros(q, k);
      }
    }
  }

  /** A product is zero only when a factor is. */
  lemma ProductOfNonZeros(p: int, k: int)
    requires p != 0 && k != 0
    ensures p * k != 0
  {
    if p > 0 && k > 0 {
      ProductsOfNaturals(p, 1, k);
    } else if p > 0 {
      ProductsOfNaturals(p, 1, -k);
      NegatedFactor(p, k);
    } else if k > 0 {
      ProductsOfNaturals(-p, 1, k);
      NegatedFactor(p, k);
    } else {
      ProductsOfNaturals(-p, 1, -k);
      NegatedFactor(p, -k);
      NegatedFactor(-p, -k);
    }
  }

  /** Placing a node twice is placing it once. */
  lemma NodeXIdempotent(g: Grid, evolution: string, maxCustom: int, evolutionX: int, x: int)
    requires maxCustom + 1 != 0
    ensures var x1 := NodeX(g, evolution, maxCustom, evolutionX, x);
      NodeX(g, evolution, maxCustom, evolutionX, x1) == x1
  {
  }

  /** At most `parts` shares of `total / parts` stay within a non-negative total. */
  lemma ShareWithin(total: int, parts: int, k: int)
    requires total >= 0 && 0 <= k <= parts && parts > 0
    ensures 0 <= GoDiv(total, parts) * k <= total
  {
    var q := GoDiv(total, parts);
    assert 0 <= q;
    ProductsOfNaturals(q, k, parts);
    assert q * parts <= total;
  }

  /** Products of naturals are natural and grow with either factor. */
  lemma ProductsOfNaturals(q: nat, k: nat, n: nat)
    requires k <= n
    ensures 0 <= q * k <= q * n
  {
    assert q * n == q * k + q * (n - k);
  }

  /**
   * A node whose offset lies between 0 and the custom maximum lands inside
   * its stage's band, whatever its stage, provided the quarter width is not
   * negative.
   */
  lemma {:induction false} NodeXInBand(g: Grid, evolution: string, maxCustom: int, evolutionX: int, x: int)
    requires KnownStage(evolution)
    requires 0 <= evolutionX <= maxCustom
    requires g.XQuarterLenght >= 0
    ensures StageOrigin(g, evolution) <= NodeX(g, evolution, maxCustom, evolutionX, x)
         <= StageOrigin(g, evolution) + g.XQuarterLenght
  {
    ShareWithin(g.XQuarterLenght, maxCustom + 1, evolutionX);
  }

  /**
   * Normalisation by the custom maximum: with offsets 0 and 1 and a custom
   * maximum of 1, two custom nodes sit at the band origin and half a band
   * further right.
   */
  lemma CustomNormalisation(g: Grid, x: int)
    requires g.XQuarterLenght >= 0
    ensures NodeX(g, "custom", 1, 0, x) == g.Custom
    ensures NodeX(g, "custom", 1, 1, x) == g.Custom + g.XQuarterLenght / 2
  {
  }

  /**
   * A genesis node is not confined to its band: with no custom node the
   * divisor is 1, so a genesis offset of 5 places it five quarter widths
   * right of the genesis origin, past the commodity origin.
   */
  lemma GenesisLeavesItsBand()
    ensures var g := GridOf(40, 1280, 768);
      g.XQuarterLenght == 280 && NodeX(g, "genesis", 0, 5, 0) == 1400 > g.Commodity + g.XQuarterLenght
  {
  }

  /**
   * For visibilities between 0 and the maximum and a non-negative drawable
   * height, y lies between the bottom axis and one drawable height above it.
   */
  lemma NodeYWithinHeight(g: Grid, maxY: int, visibility: int)
    requires g.YLenght >= 0
    requires 0 <= visibility <= maxY
    ensures -g.YLenght <= NodeY(g, maxY, visibility) <= 0
  {
    var d := maxY + 1;
    GoDivNegate(g.YLenght, d);
    ShareWithin(g.YLenght, d, d - visibility);
    NegatedFactor(GoDiv(g.YLenght, d), d - visibility);
  }

  /**
   * Higher visibility never moves a node up: y grows toward the bottom
   * axis, so the node with the larger visibility is at least as low.
   */
  lemma NodeYMonotone(g: Grid, maxY: int, v1: int, v2: int)
    requires g.YLenght >= 0 && maxY >= 0
    requires v1 <= v2
    ensures NodeY(g, maxY, v1) <= NodeY(g, maxY, v2)
  {
    var d := maxY + 1;
    var p := g.YLenght / d;
    assert p * (d - v1) == p * (d - v2) + p * (v2 - v1);
    ProductsOfNaturals(p, 0, v2 - v1);
  }

  /**
   * A node at the maximum visibility is one step above the bottom axis,
   * not on it, and visibility 0 is at the top: with a 608-pixel drawable
   * height and maximum 3 they sit at -152 and -608.
   */
  lemma MaxVisibilityIsOneStepAboveAxis()
    ensures var g := GridOf(40, 1280, 768);
      g.YLenght == 608 && NodeY(g, 3, 3) == -152 && NodeY(g, 3, 0) == -608
  {
  }
}
