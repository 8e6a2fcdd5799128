/**
 The deduplication of user packets by their nonce: a map from each remembered id to the next one, with the
 oldest and the newest id, is shown to be a window over the hundred ids accepted last.
 */
module UserPacketDeduper {
  const MAX_SIZE: nat := 100
  const UUID_LENGTH: nat := 16

  newtype byte = b: int | 0 <= b < 0x100

  type Id = seq<byte>

  const ZERO: Id := [0, 0, 0, 0, 0, 0, 0, 0, 0, 0, 0, 0, 0, 0, 0, 0]

  // ---------------------------------------------------------------------------------------
  // The window
  // ---------------------------------------------------------------------------------------

  function Last(ids: seq<Id>, n: nat): (r: seq<Id>)
    ensures |ids| <= n ==> r == ids
  {
    if |ids| <= n then ids else ids[|ids| - n..]
  }

  /** A nonce that is an id, and one of the hundred accepted last. */
  predicate Remembered(accepted: seq<Id>, nonce: seq<byte>) {
    |nonce| == UUID_LENGTH && nonce in Last(accepted, MAX_SIZE)
  }

  lemma RememberedIff(accepted: seq<Id>, nonce: seq<byte>)
    ensures Remembered(accepted, nonce) <==> |nonce| == 16 && exists k ::
                0 <= k < |accepted| && k >= |accepted| - 100 && accepted[k] == nonce
  {
    var n, window := |accepted|, Last(accepted, MAX_SIZE);
    assert forall k :: 0 <= k < |window| ==> window[k] == accepted[n - |window| + k];
    if k :| 0 <= k < n && k >= n - 100 && accepted[k] == nonce {
      assert window[k - (n - |window|)] == nonce;
    }
  }

  function Accept(accepted: seq<Id>, nonce: seq<byte>): seq<Id> {
    if |nonce| != UUID_LENGTH || Remembered(accepted, nonce) then accepted else accepted + [nonce]
  }

  /** The ids accepted in a run; the zero id counts as accepted from the start. */
  function Accepted(nonces: seq<seq<byte>>): seq<Id> {
    if nonces == [] then [ZERO] else Accept(Accepted(nonces[..|nonces| - 1]), nonces[|nonces| - 1])
  }

  // ---------------------------------------------------------------------------------------
  // The linked map
  // ---------------------------------------------------------------------------------------

  predicate Distinct(ids: seq<Id>) { forall i, j :: 0 <= i < j < |ids| ==> ids[i] != ids[j] }

  predicate LinksTo(seen: map<Id, Id>, id: Id, next: Id) { id in seen && seen[id] == next }

  /** The map leads from `tail` along `chain` to `head`, and holds nothing else. */
  ghost predicate Linked(seen: map<Id, Id>, head: Id, tail: Id, chain: seq<Id>) {
    && chain != [] && chain[0] == tail && chain[|chain| - 1] == head
    && Distinct(chain)
    && (forall i, j :: 0 <= i < j < |chain| && j == i + 1 ==> LinksTo(seen, chain[i], chain[j]))
    && (forall id :: id in seen ==> id in chain && id != head)
    && |seen| == |chain| - 1
  }

  lemma LinkedKeys(seen: map<Id, Id>, head: Id, tail: Id, chain: seq<Id>, id: Id)
    requires Linked(seen, head, tail, chain)
    ensures id in chain <==> id == head || id in seen
  {
    if id in chain && id != head {
      var i :| 0 <= i < |chain| && chain[i] == id;
      assert LinksTo(seen, chain[i], chain[i + 1]);
    }
  }

  lemma LinkNewest(seen: map<Id, Id>, head: Id, tail: Id, chain: seq<Id>, id: Id)
    requires Linked(seen, head, tail, chain) && id !in chain
    ensures Linked(seen[head := id], id, tail, chain + [id])
  {
    var chain', seen' := chain + [id], seen[head := id];
    forall i, j | 0 <= i < j < |chain'| && j == i + 1
      ensures LinksTo(seen', chain'[i], chain'[j])
    {
      assert j < |chain| ==> LinksTo(seen, chain[i], chain[j]);
    }
  }

  lemma RestLinks(seen: map<Id, Id>, chain: seq<Id>, i: nat, j: nat)
    requires Distinct(chain) && i < j < |chain| - 1 && j == i + 1 && LinksTo(seen, chain[i + 1], chain[j + 1])
    ensures LinksTo(seen - {chain[0]}, chain[1..][i], chain[1..][j])
  {
  }

  lemma OneLinkFewer(seen: map<Id, Id>, id: Id)
    requires id in seen
    ensures |seen - {id}| == |seen| - 1
  {
    assert (seen - {id}).Keys == seen.Keys - {id};
    assert |seen - {id}| == |(seen - {id}).Keys| && |seen| == |seen.Keys|;
  }

  lemma UnlinkOldest(seen: map<Id, Id>, head: Id, tail: Id, chain: seq<Id>)
    requires Linked(seen, head, tail, chain) && |chain| > 1
    ensures tail in seen && Linked(seen - {tail}, head, seen[tail], chain[1..])
  {
    var rest := chain[1..];
    assert LinksTo(seen, chain[0], chain[1]);
    OneLinkFewer(seen, tail);
    forall i, j | 0 <= i < j < |rest| && j == i + 1
      ensures LinksTo(seen - {tail}, rest[i], rest[j])
    {
      assert LinksTo(seen, chain[i + 1], chain[j + 1]);
      RestLinks(seen, chain, i, j);
    }
    forall id | id in seen - {tail}
      ensures id in rest && id != head
    {
      assert id in chain && id != chain[0];
    }
  }

  function Push(chain: seq<Id>, id: Id): seq<Id> {
    if |chain| == MAX_SIZE then (chain + [id])[1..] else chain + [id]
  }

  lemma LastAfter(accepted: seq<Id>, id: Id)
    ensures Last(accepted + [id], MAX_SIZE) == Push(Last(accepted, MAX_SIZE), id)
  {
  }

  /** Where the map leads in `k` links. */
  function Follow(seen: map<Id, Id>, id: Id, k: nat): Id
    decreases k
  {
    if k == 0 || id !in seen then id else Follow(seen, seen[id], k - 1)
  }

  lemma {:induction false} FollowsChain(seen: map<Id, Id>, head: Id, tail: Id, chain: seq<Id>, i: nat, k: nat)
    requires Linked(seen, head, tail, chain) && i < |chain|
    ensures Follow(seen, chain[i], k) == if i + k < |chain| then chain[i + k] else head
    decreases k
  {
    if i + 1 == |chain| {
      assert head !in seen;
    } else if k > 0 {
      assert LinksTo(seen, chain[i], chain[i + 1]);
      FollowsChain(seen, head, tail, chain, i + 1, k - 1);
    }
  }

  /** Links never run in a circle: from any remembered id they lead to the newest one, through other ids only. */
  lemma NoCycle(seen: map<Id, Id>, head: Id, tail: Id, chain: seq<Id>, id: Id, k: nat)
    requires Linked(seen, head, tail, chain) && id in seen && 0 < k
    ensures Follow(seen, id, k) != id
    ensures Follow(seen, id, |chain|) == head
  {
    assert id in chain;
    var i :| 0 <= i < |chain| && chain[i] == id;
    FollowsChain(seen, head, tail, chain, i, k);
    FollowsChain(seen, head, tail, chain, i, |chain|);
  }

  class Deduper {
    var seen: map<Id, Id>
    var head: Id
    var tail: Id
    /** Every id accepted so far, oldest first. */
    ghost var accepted: seq<Id>

    ghost predicate Valid()
      reads this
    {
      Linked(seen, head, tail, Last(accepted, MAX_SIZE))
    }

    constructor ()
      ensures Valid() && accepted == [ZERO]
    {
      seen, head, tail := map[], ZERO, ZERO;
      accepted := [ZERO];
    }

    method IsDuplicate(nonce: seq<byte>) returns (duplicate: bool)
      requires Valid()
      modifies this
      ensures Valid()
      ensures duplicate == Remembered(old(accepted), nonce)
      ensures accepted == Accept(old(accepted), nonce)
      ensures accepted == old(accepted) + if duplicate || |nonce| != 16 then [] else [nonce]
      ensures duplicate <==> |nonce| == 16 && exists k ::
                  0 <= k < |old(accepted)| && k >= |old(accepted)| - 100 && old(accepted)[k] == nonce
    {
      RememberedIff(accepted, nonce);
      if |nonce| != UUID_LENGTH {
        return false;
      }
      ghost var chain := Last(accepted, MAX_SIZE);
      LinkedKeys(seen, head, tail, chain, nonce);
      if head == nonce {
        return true;
      }
      if nonce in seen {
        return true;
      }

      LinkNewest(seen, head, tail, chain, nonce);
      LastAfter(accepted, nonce);
      seen := seen[head := nonce];
      head := nonce;
      accepted := accepted + [nonce];
      if |seen| == MAX_SIZE {
        UnlinkOldest(seen, head, tail, chain + [nonce]);
        var oldest := tail;
        tail := seen[oldest];
        seen := seen - {oldest};
      }
      duplicate := false;
    }
  }

  // ---------------------------------------------------------------------------------------
  // Over a run
  // ---------------------------------------------------------------------------------------

  lemma InWindow(ids: seq<Id>, i: nat)
    requires i < |ids| <= i + MAX_SIZE
    ensures ids[i] in Last(ids, MAX_SIZE)
  {
    var window := Last(ids, MAX_SIZE);
    assert window[i - (|ids| - |window|)] == ids[i];
  }

  /** Before an id is accepted again, at least a hundred others have been accepted. */
  lemma {:induction false} SameIdsFarApart(nonces: seq<seq<byte>>, i: nat, j: nat)
    requires i < j < |Accepted(nonces)| && Accepted(nonces)[i] == Accepted(nonces)[j]
    ensures j - i > MAX_SIZE
  {
    if nonces != [] {
      var before := Accepted(nonces[..|nonces| - 1]);
      if j < |before| {
        SameIdsFarApart(nonces[..|nonces| - 1], i, j);
      } else if |before| <= i + MAX_SIZE {
        InWindow(before, i);
      }
    }
  }

  lemma {:induction false} AcceptedAreIds(nonces: seq<seq<byte>>)
    ensures forall id :: id in Accepted(nonces) ==> |id| == UUID_LENGTH
  {
    if nonces != [] {
      AcceptedAreIds(nonces[..|nonces| - 1]);
    }
  }

  lemma {:induction false} AcceptedGrows(nonces: seq<seq<byte>>, more: seq<seq<byte>>)
    ensures Accepted(nonces) <= Accepted(nonces + more)
  {
    if more == [] {
      assert nonces + more == nonces;
    } else {
      var init := more[..|more| - 1];
      AcceptedGrows(nonces, init);
      assert (nonces + more)[..|nonces + more| - 1] == nonces + init;
    }
  }

  /**
   Whatever comes after it, an accepted id is refused until a hundred ids have been accepted after it, and
   with the hundredth it is forgotten.
   */
  lemma RefusedUntilPushedOut(nonces: seq<seq<byte>>, more: seq<seq<byte>>, i: nat)
    requires i < |Accepted(nonces)|
    ensures var id, all := Accepted(nonces)[i], Accepted(nonces + more);
            && (|all| <= i + MAX_SIZE ==> Remembered(all, id))
            && (|all| == i + MAX_SIZE + 1 ==> !Remembered(all, id))
  {
    var id, all := Accepted(nonces)[i], Accepted(nonces + more);
    AcceptedGrows(nonces, more);
    AcceptedAreIds(nonces);
    if |all| <= i + MAX_SIZE {
      InWindow(all, i);
    } else if |all| == i + MAX_SIZE + 1 && Remembered(all, id) {
      var window := Last(all, MAX_SIZE);
      var k :| 0 <= k < |window| && window[k] == id;
      SameIdsFarApart(nonces + more, i, i + 1 + k);
    }
  }
}
