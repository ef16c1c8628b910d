/**
 * The text summaries the tools build: a header, one block per item appended
 * in a loop, and for transactions only the first 20 items followed by an
 * "... and N more transactions" line. Building one item's block reads fields
 * and formats money; that step is a parameter that yields the block or the
 * exception it raised, and the first exception ends the whole summary.
 */
module Summary {
  import opened Wrappers
  import opened Strings
  import opened PyJson
  import opened PyErrors

  type Render = Json -> Result<string, Exc>

  /** How many transactions a summary lists. */
  const Shown: nat := 20

  /** The blocks of `items`, in order; the first item whose block raises decides the error. */
  function Blocks(items: seq<Json>, render: Render): Result<string, Exc>
    decreases |items|
  {
    if items == [] then Ok([])
    else match Blocks(items[..|items| - 1], render)
      case Err(e) => Err(e)
      case Ok(text) =>
        match render(items[|items| - 1])
          case Err(e) => Err(e)
          case Ok(block) => Ok(text + block)
  }

  /** The blocks exist exactly when every item renders, and then they are the items' blocks in order. */
  lemma {:induction false} BlocksOk(items: seq<Json>, render: Render)
    ensures Blocks(items, render).Ok? <==> forall i :: 0 <= i < |items| ==> render(items[i]).Ok?
    ensures Blocks(items, render).Ok? && items != [] ==>
      Blocks(items, render).value == Blocks(items[..|items| - 1], render).value + render(items[|items| - 1]).value
    decreases |items|
  {
    if items != [] {
      var init := items[..|items| - 1];
      BlocksOk(init, render);
      assert forall i :: 0 <= i < |init| ==> init[i] == items[i];
    }
  }

  /** An error is the error of the first item that does not render. */
  lemma {:induction false} BlocksFirstError(items: seq<Json>, render: Render)
    requires Blocks(items, render).Err?
    ensures exists k :: 0 <= k < |items| && render(items[k]) == Err(Blocks(items, render).error)
                        && forall j :: 0 <= j < k ==> render(items[j]).Ok?
    decreases |items|
  {
    var init := items[..|items| - 1];
    assert forall i :: 0 <= i < |init| ==> init[i] == items[i];
    match Blocks(init, render)
      case Err(e) =>
        BlocksFirstError(init, render);
        var k :| 0 <= k < |init| && render(init[k]) == Err(e) && forall j :: 0 <= j < k ==> render(init[j]).Ok?;
        assert render(items[k]) == Err(e);
      case Ok(_) =>
        BlocksOk(init, render);
        assert render(items[|items| - 1]).Err?;
  }

  /** The closing line of a transaction summary. */
  function Trailer(n: nat): (t: string)
    ensures t != [] <==> n > Shown
  {
    if n > Shown then "... and " + NatToDecimal(n - Shown) + " more transactions\n" else ""
  }

  function Min(a: nat, b: nat): nat {
    if a <= b then a else b
  }

  /** `header` followed by the blocks of `items[:cap]` and, when `trail`, the trailer for `len(items)`. */
  function Listing(header: string, items: seq<Json>, cap: nat, trail: bool, render: Render): Result<string, Exc> {
    match Blocks(items[..Min(cap, |items|)], render)
      case Err(e) => Err(e)
      case Ok(text) => Ok(header + text + (if trail then Trailer(|items|) else ""))
  }

  /** A transaction summary: the first 20 transactions, then the trailer. */
  function TransactionListing(header: string, items: seq<Json>, render: Render): Result<string, Exc> {
    Listing(header, items, Shown, true, render)
  }

  /** An account summary lists every account and has no trailer. */
  function FullListing(header: string, items: seq<Json>, render: Render): Result<string, Exc> {
    Listing(header, items, |items|, false, render)
  }

  /**
   * A transaction summary succeeds exactly when the first 20 transactions
   * render; what follows the 20th is never rendered and only counted, and the
   * trailer appears exactly when there are more than 20.
   */
  lemma TransactionListingShape(header: string, items: seq<Json>, render: Render)
    ensures TransactionListing(header, items, render).Ok? <==>
      forall i :: 0 <= i < |items| && i < Shown ==> render(items[i]).Ok?
    ensures TransactionListing(header, items, render).Ok? ==>
      TransactionListing(header, items, render).value
        == header + Blocks(items[..Min(Shown, |items|)], render).value + Trailer(|items|)
  {
    var shown := items[..Min(Shown, |items|)];
    BlocksOk(shown, render);
    assert forall i :: 0 <= i < |shown| ==> shown[i] == items[i];
  }

  /** Items past the 20th can change only the count in the trailer, never whether or what the blocks are. */
  lemma TransactionListingIgnoresTail(header: string, items: seq<Json>, more: seq<Json>, render: Render)
    requires |items| >= Shown
    ensures TransactionListing(header, items + more, render).Ok? == TransactionListing(header, items, render).Ok?
    ensures TransactionListing(header, items + more, render).Ok? ==>
      TransactionListing(header, items + more, render).value
        == header + Blocks(items[..Shown], render).value + Trailer(|items| + |more|)
  {
    assert (items + more)[..Shown] == items[..Shown];
  }

  /** An account summary holds every account's block, in order. */
  lemma FullListingShape(header: string, items: seq<Json>, render: Render)
    ensures FullListing(header, items, render).Ok? <==> forall i :: 0 <= i < |items| ==> render(items[i]).Ok?
    ensures FullListing(header, items, render).Ok? ==>
      Blocks(items, render).Ok? && FullListing(header, items, render).value == header + Blocks(items, render).value
  {
    assert items[..|items|] == items;
    BlocksOk(items, render);
  }

  /** The listing loop: the block of each of the first `cap` items appended in turn, then the trailer. */
  method BuildListing(header: string, items: seq<Json>, cap: nat, trail: bool, render: Render)
    returns (r: Result<string, Exc>)
    ensures r == Listing(header, items, cap, trail, render)
  {
    var shown := items[..Min(cap, |items|)];
    var summary := header;
    var i := 0;
    while i < |shown|
      invariant 0 <= i <= |shown|
      invariant Blocks(shown[..i], render).Ok?
      invariant summary == header + Blocks(shown[..i], render).value
    {
      assert shown[..i + 1][..i] == shown[..i];
      match render(shown[i]) {
        case Err(e) =>
          assert Blocks(shown[..i + 1], render) == Err(e);
          BlocksErrExtends(shown, i + 1, render);
          return Err(e);
        case Ok(block) =>
          summary := summary + block;
      }
      i := i + 1;
    }
    assert shown[..i] == shown;
    ghost var body := Blocks(shown, render).value;
    assert summary == header + body;
    if trail {
      summary := summary + Trailer(|items|);
    } else {
      assert header + body + "" == summary;
    }
    return Ok(summary);
  }

  /** Once a prefix fails, every longer prefix fails with the same error. */
  lemma {:induction false} BlocksErrExtends(items: seq<Json>, k: nat, render: Render)
    requires k <= |items| && Blocks(items[..k], render).Err?
    ensures Blocks(items, render) == Blocks(items[..k], render)
    decreases |items| - k
  {
    if k < |items| {
      assert items[..k + 1][..k] == items[..k];
      BlocksErrExtends(items, k + 1, render);
    } else {
      assert items[..k] == items;
    }
  }
}
