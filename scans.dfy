/**
 * A loop over items that keeps some of them, skips others, and stops at the
 * first item that raises, leaving what it kept so far in place.  The order
 * handlers of both private generations are such loops.
 */
module Scans {
  import opened Wrappers

  /** What the loop kept, in order, and the exception that stopped it, if any. */
  datatype Scanned<B> = Scanned(kept: seq<B>, raised: Option<Exc>)

  /**
   * The loop with `pick` deciding each item: raise, skip (None) or keep a
   * value (Some).
   */
  function Scan<A, B>(pick: A -> Result<Option<B>, Exc>, xs: seq<A>): (r: Scanned<B>)
    ensures |r.kept| <= |xs|
    ensures r.raised.None? <==> forall x <- xs :: pick(x).Ok?
  {
    if xs == [] then Scanned([], None)
    else
      var rest := Scan(pick, xs[1..]);
      assert forall x <- xs[1..] :: x in xs;
      assert forall x <- xs :: x == xs[0] || x in xs[1..];
      match pick(xs[0])
      case Err(e) => Scanned([], Some(e))
      case Ok(None) => rest
      case Ok(Some(b)) => Scanned([b] + rest.kept, rest.raised)
  }

  /** Looping over two stretches in a row: the second runs only if the first did not raise. */
  lemma {:induction false} ScanAppend<A, B>(pick: A -> Result<Option<B>, Exc>, xs: seq<A>, ys: seq<A>)
    ensures Scan(pick, xs + ys) ==
              if Scan(pick, xs).raised.Some? then Scan(pick, xs)
              else Scanned(Scan(pick, xs).kept + Scan(pick, ys).kept, Scan(pick, ys).raised)
  {
    if xs != [] {
      assert (xs + ys)[1..] == xs[1..] + ys;
      ScanAppend(pick, xs[1..], ys);
      match pick(xs[0])
      case Err(_) =>
      case Ok(None) =>
      case Ok(Some(b)) =>
        if Scan(pick, xs).raised.None? {
          assert [b] + (Scan(pick, xs[1..]).kept + Scan(pick, ys).kept)
              == ([b] + Scan(pick, xs[1..]).kept) + Scan(pick, ys).kept;
        }
    } else {
      assert xs + ys == ys;
    }
  }

  /** One more turn of the loop, after a prefix that did not raise. */
  lemma ScanStep<A, B>(pick: A -> Result<Option<B>, Exc>, xs: seq<A>, i: nat)
    requires i < |xs| && Scan(pick, xs[..i]).raised.None?
    ensures Scan(pick, xs[..i + 1]) ==
              match pick(xs[i])
              case Err(e) => Scanned(Scan(pick, xs[..i]).kept, Some(e))
              case Ok(None) => Scan(pick, xs[..i])
              case Ok(Some(b)) => Scanned(Scan(pick, xs[..i]).kept + [b], None)
  {
    assert xs[..i + 1] == xs[..i] + [xs[i]];
    ScanAppend(pick, xs[..i], [xs[i]]);
    assert [xs[i]][1..] == [];
  }

  /** Once a prefix raised, the rest of the items change nothing. */
  lemma ScanStops<A, B>(pick: A -> Result<Option<B>, Exc>, xs: seq<A>, i: nat)
    requires i <= |xs| && Scan(pick, xs[..i]).raised.Some?
    ensures Scan(pick, xs) == Scan(pick, xs[..i])
  {
    assert xs == xs[..i] + xs[i..];
    ScanAppend(pick, xs[..i], xs[i..]);
  }

  /** When every item is kept as itself, the loop keeps them all, in order. */
  lemma {:induction false} ScanKeepsAll<A>(pick: A -> Result<Option<A>, Exc>, xs: seq<A>)
    requires forall x <- xs :: pick(x) == Ok(Some(x))
    ensures Scan(pick, xs) == Scanned(xs, None)
  {
    if xs != [] {
      assert forall x <- xs[1..] :: x in xs;
      ScanKeepsAll(pick, xs[1..]);
      assert xs[0] in xs;
      assert Scan(pick, xs) == Scanned([xs[0]] + xs[1..], None);
      assert [xs[0]] + xs[1..] == xs;
    }
  }

  /**
   * Everything kept comes from an item picked to be kept, a loop that did
   * not raise kept every such item, and a loop that raised did so at an item.
   */
  lemma {:induction false} ScanKeptFrom<A, B>(pick: A -> Result<Option<B>, Exc>, xs: seq<A>)
    ensures forall b <- Scan(pick, xs).kept :: exists x <- xs :: pick(x) == Ok(Some(b))
    ensures Scan(pick, xs).raised.None? ==>
              forall x <- xs :: pick(x).value.Some? ==> pick(x).value.value in Scan(pick, xs).kept
    ensures Scan(pick, xs).raised.Some? ==> exists x <- xs :: pick(x) == Err(Scan(pick, xs).raised.value)
  {
    if xs != [] {
      ScanKeptFrom(pick, xs[1..]);
      assert forall x <- xs[1..] :: x in xs;
      assert forall x <- xs :: x == xs[0] || x in xs[1..];
    }
  }
}
