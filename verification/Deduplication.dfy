// The five-minute deduplication window: a pruned map of ids against the full history of their uses.
module Deduplication {
  import opened Basics
  import opened Wire

  const DEDUPLICATION_WINDOW := 300_000_000_000

  /** The ids in use, each with the instant of its accepted use. */
  type Seen = map<Text, nat>

  function Pruned(seen: Seen, now: nat): Seen
  {
    map id | id in seen && SaturatingSub(now, seen[id]) < DEDUPLICATION_WINDOW :: seen[id]
  }

  /** Whether `id` is in use at `now`, and the map after: a use that is not a repeat is recorded. */
  function SeenWithinWindow(seen: Seen, id: Text, now: nat): (bool, Seen)
  {
    var kept := Pruned(seen, now);
    if id in kept then (true, kept) else (false, kept[id := now])
  }

  datatype Use = Use(id: Text, at: nat)

  /** The map after a history of uses, from an empty one. */
  function SeenAfter(uses: seq<Use>): Seen
  {
    if uses == [] then map[]
    else
      var last := uses[|uses| - 1];
      SeenWithinWindow(SeenAfter(uses[..|uses| - 1]), last.id, last.at).1
  }

  /** The answer the `i`-th use got. */
  predicate Repeat(uses: seq<Use>, i: nat)
    requires i < |uses|
  {
    SeenWithinWindow(SeenAfter(uses[..i]), uses[i].id, uses[i].at).0
  }

  predicate Monotone(uses: seq<Use>)
  {
    forall i, j :: 0 <= i < j < |uses| ==> uses[i].at <= uses[j].at
  }

  /** The accepted use `j` of `id` is under five minutes old at `now`. */
  predicate Fresh(uses: seq<Use>, j: int, id: Text, now: nat)
  {
    0 <= j < |uses| && !Repeat(uses, j) && uses[j].id == id && now - uses[j].at < DEDUPLICATION_WINDOW
  }

  /** Every instant the map holds is that of an accepted use. */
  ghost predicate Recorded(seen: Seen, uses: seq<Use>)
  {
    forall id :: id in seen ==> exists j :: 0 <= j < |uses| && !Repeat(uses, j) && uses[j] == Use(id, seen[id])
  }

  /** The map holds every id with a fresh use, at that use or a later one. */
  ghost predicate Complete(seen: Seen, uses: seq<Use>, now: nat)
  {
    forall j, id :: Fresh(uses, j, id, now) ==> id in seen && uses[j].at <= seen[id] <= now
  }

  lemma RepeatOfPrefix(uses: seq<Use>, n: nat, j: nat)
    requires j < n <= |uses|
    ensures Repeat(uses[..n], j) == Repeat(uses, j)
  {
    assert uses[..n][..j] == uses[..j];
  }

  lemma {:induction false} SeenIsRecorded(uses: seq<Use>)
    ensures Recorded(SeenAfter(uses), uses)
  {
    if uses != [] {
      var n := |uses| - 1;
      SeenIsRecorded(uses[..n]);
      var seen, after := SeenAfter(uses[..n]), SeenAfter(uses);
      forall id | id in after
        ensures exists j :: 0 <= j < |uses| && !Repeat(uses, j) && uses[j] == Use(id, after[id])
      {
        LastOrKept(uses, id);
        hide Repeat, SeenAfter;
        if id in seen && after[id] == seen[id] {
          var j :| 0 <= j < n && !Repeat(uses[..n], j) && uses[..n][j] == Use(id, seen[id]);
          RepeatOfPrefix(uses, n, j);
          assert uses[j] == Use(id, after[id]);
        } else {
          assert uses[n] == Use(id, after[id]) && !Repeat(uses, n);
        }
      }
    }
  }

  /** What the map holds after one more use is what it held, or that use, accepted. */
  lemma LastOrKept(uses: seq<Use>, id: Text)
    requires uses != [] && id in SeenAfter(uses)
    ensures var n, before := |uses| - 1, SeenAfter(uses[..|uses| - 1]);
            || (id in before && SeenAfter(uses)[id] == before[id])
            || (uses[n] == Use(id, SeenAfter(uses)[id]) && !Repeat(uses, n))
  {
  }

  lemma {:induction false} SeenIsComplete(uses: seq<Use>, now: nat)
    requires Monotone(uses) && (uses == [] || uses[|uses| - 1].at <= now)
    ensures Complete(SeenAfter(uses), uses, now)
  {
    if uses != [] {
      var n := |uses| - 1;
      var last, seen, after := uses[n], SeenAfter(uses[..n]), SeenAfter(uses);
      SeenIsComplete(uses[..n], last.at);
      forall j, id | Fresh(uses, j, id, now)
        ensures id in after && uses[j].at <= after[id] <= now
      {
        if j < n {
          RepeatOfPrefix(uses, n, j);
          assert Fresh(uses[..n], j, id, last.at);
          assert id in Pruned(seen, last.at);
        }
      }
    }
  }

  lemma FreshOfPrefix(uses: seq<Use>, n: nat, j: int, id: Text, now: nat)
    requires n <= |uses|
    ensures Fresh(uses[..n], j, id, now) <==> 0 <= j < n && Fresh(uses, j, id, now)
  {
    hide Repeat;
    if 0 <= j < n {
      RepeatOfPrefix(uses, n, j);
    }
  }

  lemma KeptIffFresh(uses: seq<Use>, id: Text, now: nat)
    requires Monotone(uses) && (uses == [] || uses[|uses| - 1].at <= now)
    ensures id in Pruned(SeenAfter(uses), now) <==> exists j :: Fresh(uses, j, id, now)
  {
    SeenIsRecorded(uses);
    SeenIsComplete(uses, now);
    hide Repeat, SeenAfter;
    if id in Pruned(SeenAfter(uses), now) {
      var j :| 0 <= j < |uses| && !Repeat(uses, j) && uses[j] == Use(id, SeenAfter(uses)[id]);
      assert Fresh(uses, j, id, now);
    }
  }

  /** The answer is "duplicate" exactly when an accepted use of the id is under five minutes old. */
  lemma RepeatIffFreshUse(uses: seq<Use>, i: nat)
    requires Monotone(uses) && i < |uses|
    ensures Repeat(uses, i) <==> exists j :: 0 <= j < i && Fresh(uses, j, uses[i].id, uses[i].at)
  {
    var before, use := uses[..i], uses[i];
    KeptIffFresh(before, use.id, use.at);
    assert Repeat(uses, i) <==> use.id in Pruned(SeenAfter(before), use.at);
    hide Repeat, SeenAfter, Fresh, Pruned;
    forall j: int ensures Fresh(before, j, use.id, use.at) <==> 0 <= j < i && Fresh(uses, j, use.id, use.at) {
      FreshOfPrefix(uses, i, j, use.id, use.at);
    }
  }

  /** Two accepted uses of one id are at least five minutes apart; repeats between do not matter. */
  lemma AcceptedUsesApart(uses: seq<Use>, i: nat, j: nat)
    requires Monotone(uses) && i < j < |uses|
    requires uses[i].id == uses[j].id && !Repeat(uses, i) && !Repeat(uses, j)
    ensures uses[j].at - uses[i].at >= DEDUPLICATION_WINDOW
  {
    RepeatIffFreshUse(uses, j);
    assert !Fresh(uses, i, uses[j].id, uses[j].at);
  }

  /** Sends that leave their ids to one process never collapse, whatever instants they are made at. */
  lemma CrateIdsNeverCollapse(uses: seq<Use>, process: nat, numbers: seq<nat>, i: nat)
    requires Monotone(uses) && i < |uses| == |numbers|
    requires forall k :: 0 <= k < |uses| ==> uses[k].id == CrateId(process, numbers[k])
    requires forall j, k :: 0 <= j < k < |numbers| ==> numbers[j] != numbers[k]
    ensures !Repeat(uses, i)
  {
    RepeatIffFreshUse(uses, i);
    if j :| 0 <= j < i && Fresh(uses, j, uses[i].id, uses[i].at) {
      CrateIdInjective(process, numbers[j], numbers[i]);
      assert false;
    }
  }
}
