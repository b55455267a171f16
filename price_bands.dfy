/** `get_increment` of utils.py: the width of a price bucket as a step
    function of the price, undefined from 500,000 on. Nothing in the program
    calls it; it is modelled with its table and nothing around it. */
module PriceBands {
  import opened Wrappers

  /** The bucket width for `price`, or `None` at and above 500,000. */
  function Increment(price: int): (r: Option<int>)
    ensures r.None? <==> price >= 500000
    ensures r.Some? ==> 100 <= r.value <= 20000
  {
    if price < 65000 then Some(100)
    else if price < 80000 then Some(200)
    else if price < 100000 then Some(400)
    else if price < 130000 then Some(500)
    else if price < 150000 then Some(1000)
    else if price < 180000 then Some(2000)
    else if price < 300000 then Some(5000)
    else if price < 400000 then Some(10000)
    else if price < 500000 then Some(20000)
    else None
  }

  /** One row of the table: prices strictly below `below` (and not below the
      previous row's bound) get buckets of `width`. */
  datatype Band = Band(below: int, width: int)

  const Bands: seq<Band> := [
    Band(65000, 100), Band(80000, 200), Band(100000, 400), Band(130000, 500),
    Band(150000, 1000), Band(180000, 2000), Band(300000, 5000),
    Band(400000, 10000), Band(500000, 20000)]

  /** Reading a table of bands: the width of the first band whose bound
      lies strictly above the price. */
  function Lookup(bands: seq<Band>, price: int): Option<int>
  {
    if bands == [] then None
    else if price < bands[0].below then Some(bands[0].width)
    else Lookup(bands[1..], price)
  }

  /** Bounds strictly increase and widths are positive and never shrink. */
  predicate Ascending(bands: seq<Band>)
  {
    && (forall i :: 0 <= i < |bands| ==> bands[i].width > 0)
    && (forall i, j :: 0 <= i < j < |bands| ==> bands[i].below < bands[j].below && bands[i].width <= bands[j].width)
  }

  /** The if/elif chain and the table agree on every price. */
  lemma IncrementIsTable(price: int)
    ensures Increment(price) == Lookup(Bands, price)
  {
    var b := Bands;
    if price < 65000 {
    } else if price < 80000 {
      assert Lookup(b, price) == Lookup(b[1..], price);
    } else if price < 100000 {
      assert Lookup(b, price) == Lookup(b[1..], price) == Lookup(b[2..], price);
    } else if price < 130000 {
      assert Lookup(b, price) == Lookup(b[1..], price) == Lookup(b[2..], price) == Lookup(b[3..], price);
    } else {
      assert Lookup(b, price) == Lookup(b[1..], price) == Lookup(b[2..], price) == Lookup(b[3..], price) == Lookup(b[4..], price);
      if price >= 150000 {
        assert Lookup(b[4..], price) == Lookup(b[5..], price);
        if price >= 180000 {
          assert Lookup(b[5..], price) == Lookup(b[6..], price);
          if price >= 300000 {
            assert Lookup(b[6..], price) == Lookup(b[7..], price);
            if price >= 400000 {
              assert Lookup(b[7..], price) == Lookup(b[8..], price);
              if price >= 500000 {
                assert Lookup(b[8..], price) == Lookup(b[9..], price);
                assert b[9..] == [];
              }
            }
          }
        }
      }
    }
  }

  /** On an ascending table, the looked-up width never decreases as the
      price grows, and a price below a priced one is priced too. */
  lemma {:induction false} LookupMonotone(bands: seq<Band>, p: int, q: int)
    requires Ascending(bands)
    requires p <= q
    requires Lookup(bands, q).Some?
    ensures Lookup(bands, p).Some?
    ensures 0 < Lookup(bands, p).value <= Lookup(bands, q).value
  {
    if p >= bands[0].below {
      assert Ascending(bands[1..]) by {
        forall i, j | 0 <= i < j < |bands[1..]|
          ensures bands[1..][i].below < bands[1..][j].below && bands[1..][i].width <= bands[1..][j].width
        {
          assert bands[1..][i] == bands[i + 1] && bands[1..][j] == bands[j + 1];
        }
      }
      LookupMonotone(bands[1..], p, q);
    } else if q >= bands[0].below {
      LookupPositiveAbove(bands, q);
    }
  }

  /** A width looked up at or beyond the first bound is at least the first width. */
  lemma {:induction false} LookupPositiveAbove(bands: seq<Band>, q: int)
    requires Ascending(bands)
    requires bands != [] && q >= bands[0].below
    requires Lookup(bands, q).Some?
    ensures Lookup(bands, q).value >= bands[0].width
  {
    var rest := bands[1..];
    if rest != [] && q >= rest[0].below {
      assert Ascending(rest) by {
        forall i, j | 0 <= i < j < |rest|
          ensures rest[i].below < rest[j].below && rest[i].width <= rest[j].width
        {
          assert rest[i] == bands[i + 1] && rest[j] == bands[j + 1];
        }
      }
      LookupPositiveAbove(rest, q);
      assert bands[0].width <= bands[1].width;
    }
  }

  /** Every price in band `i` — at least the previous bound, strictly below
      its own — gets exactly that band's width. */
  lemma {:induction false} LookupInBand(bands: seq<Band>, i: nat, price: int)
    requires Ascending(bands)
    requires i < |bands|
    requires price < bands[i].below
    requires i == 0 || bands[i - 1].below <= price
    ensures Lookup(bands, price) == Some(bands[i].width)
  {
    if i > 0 {
      var rest := bands[1..];
      assert Ascending(rest) by {
        forall k, j | 0 <= k < j < |rest|
          ensures rest[k].below < rest[j].below && rest[k].width <= rest[j].width
        {
          assert rest[k] == bands[k + 1] && rest[j] == bands[j + 1];
        }
      }
      assert bands[0].below <= bands[i - 1].below;
      LookupInBand(rest, i - 1, price);
    }
  }

  /** Each row against the next one only. */
  predicate StepsAscending(bands: seq<Band>)
  {
    forall i :: 0 <= i < |bands| - 1 ==> bands[i].below < bands[i + 1].below && bands[i].width <= bands[i + 1].width
  }

  lemma {:induction false} StepsOrder(bands: seq<Band>, i: nat, j: nat)
    requires StepsAscending(bands)
    requires i < j < |bands|
    ensures bands[i].below < bands[j].below && bands[i].width <= bands[j].width
    decreases j - i
  {
    if i + 1 < j {
      StepsOrder(bands, i + 1, j);
    }
  }

  lemma BandsAscending()
    ensures Ascending(Bands)
  {
    var b := Bands;
    assert StepsAscending(b) by {
      assert b[0].below < b[1].below < b[2].below < b[3].below < b[4].below;
      assert b[4].below < b[5].below < b[6].below < b[7].below < b[8].below;
    }
    forall i, j | 0 <= i < j < |b|
      ensures b[i].below < b[j].below && b[i].width <= b[j].width
    {
      StepsOrder(b, i, j);
    }
  }

  /** `get_increment` returns `None` exactly from 500,000 on; where it is
      defined it is positive and non-decreasing in the price. */
  lemma IncrementMonotone(p: int, q: int)
    requires p <= q
    requires Increment(q).Some?
    ensures Increment(p).Some?
    ensures 0 < Increment(p).value <= Increment(q).value
  {
    IncrementIsTable(p);
    IncrementIsTable(q);
    BandsAscending();
    LookupMonotone(Bands, p, q);
  }

  /** The boundaries are strict: one below a row's bound gives that row's
      width, the bound itself gives the next row's width (or `None` after
      the last row), e.g. 64,999 gives 100 and 65,000 gives 200. */
  lemma IncrementBoundaries(i: nat)
    requires i < |Bands|
    ensures Increment(Bands[i].below - 1) == Some(Bands[i].width)
    ensures Increment(Bands[i].below) == if i + 1 < |Bands| then Some(Bands[i + 1].width) else None
  {
    BandsAscending();
    IncrementIsTable(Bands[i].below - 1);
    IncrementIsTable(Bands[i].below);
    LookupInBand(Bands, i, Bands[i].below - 1);
    if i + 1 < |Bands| {
      LookupInBand(Bands, i + 1, Bands[i].below);
    }
  }
}
