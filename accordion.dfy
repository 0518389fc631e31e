/** The single-open accordion of menu sections. */
module Accordion {
  import opened Catalog

  /** Clicking topic `id`: collapse it when it is the expanded one, otherwise
      expand it (which implicitly collapses whichever topic was open). */
  function Toggle(expanded: Option<int>, id: int): (r: Option<int>)
    ensures r == Some(id) <==> expanded != Some(id)
    ensures r != Some(id) ==> r == None
  {
    if expanded == Some(id) then None else Some(id)
  }

  /** The state after a stream of clicks, applied in order. */
  function ToggleAll(expanded: Option<int>, clicks: seq<int>): Option<int>
    decreases |clicks|
  {
    if clicks == [] then expanded else ToggleAll(Toggle(expanded, clicks[0]), clicks[1..])
  }

  /** A panel is rendered open when its id is the expanded one. */
  predicate IsExpanded(expanded: Option<int>, t: Topic) {
    expanded == Some(t.id)
  }

  /** Two clicks on the same topic restore the state when it started collapsed
      everywhere or with that topic open; starting from another open topic they
      end with everything collapsed. */
  lemma ToggleTwice(expanded: Option<int>, id: int)
    ensures expanded == None || expanded == Some(id) ==>
      Toggle(Toggle(expanded, id), id) == expanded
    ensures expanded.Some? && expanded.value != id ==>
      Toggle(Toggle(expanded, id), id) == None
  {
  }

  /** Every rendered panel that is open belongs to the same topic id. */
  lemma AtMostOneExpanded(expanded: Option<int>, topics: seq<Topic>, i: int, j: int)
    requires 0 <= i < |topics| && 0 <= j < |topics|
    requires IsExpanded(expanded, topics[i]) && IsExpanded(expanded, topics[j])
    ensures topics[i].id == topics[j].id
  {
  }

  /** After a non-empty stream of clicks, the only topic that can be open is the
      last one clicked. */
  lemma {:induction false} LastClickedOrNone(expanded: Option<int>, clicks: seq<int>)
    requires clicks != []
    ensures ToggleAll(expanded, clicks) == None ||
            ToggleAll(expanded, clicks) == Some(clicks[|clicks| - 1])
    decreases |clicks|
  {
    if |clicks| > 1 {
      LastClickedOrNone(Toggle(expanded, clicks[0]), clicks[1..]);
    }
  }

  /** Clicking the same topic n times from the all-collapsed state leaves it open
      exactly when n is odd. */
  lemma {:induction false} RepeatedClicks(id: int, n: nat)
    ensures ToggleAll(None, seq(n, _ => id)) == if n % 2 == 1 then Some(id) else None
  {
    if n >= 2 {
      var clicks := seq(n, _ => id);
      assert clicks[1..][1..] == seq(n - 2, _ => id);
      RepeatedClicks(id, n - 2);
    } else if n == 1 {
      assert seq(n, _ => id)[1..] == [];
    }
  }
}
