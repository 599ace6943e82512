/** The star arithmetic of `POST /penalty` and the penalty filter of
    `GET /penalty`. */
module Ledger {
  import opened Schema

  /** One ledger event, as far as the star formula sees it. */
  datatype Entry = PenaltyEntry(numberOfStarsReduced: int) | AwardEntry(numberOfStarsAdded: int)

  /** `user.stars ? … : …`: a stored rating counts only when it is non-null
      and non-zero. */
  predicate IsSet(stars: Option<int>)
  {
    stars.Some? && stars.value != 0
  }

  /** The value used when the rating is not set: `5 - reduced` after a
      penalty, `0 + added` after an award. */
  function Baseline(e: Entry): int
  {
    match e
    case PenaltyEntry(n) => 5 - n
    case AwardEntry(n) => 0 + n
  }

  /** The `newStars` the handler writes back: a set rating is kept by every
      penalty and award; otherwise the event's baseline is stored. */
  function StarsAfter(stars: Option<int>, e: Entry): (r: int)
    ensures IsSet(stars) ==> r == stars.value
    ensures !IsSet(stars) && e.PenaltyEntry? ==> r == 5 - e.numberOfStarsReduced
    ensures !IsSet(stars) && e.AwardEntry? ==> r == e.numberOfStarsAdded
  {
    if IsSet(stars) then stars.value else Baseline(e)
  }

  /** A stored zero behaves exactly like a missing rating. */
  lemma ZeroActsAsUnset(e: Entry)
    ensures StarsAfter(Some(0), e) == StarsAfter(None, e) == Baseline(e)
  {
  }

  /** Nothing clamps the rating: a first penalty of more than five stars
      stores a negative rating. */
  lemma PenaltyCanGoNegative(reduced: int)
    requires reduced > 5
    ensures StarsAfter(None, PenaltyEntry(reduced)) < 0
  {
  }

  /** The rating after a user's events are applied one after another. */
  function Replay(stars: Option<int>, es: seq<Entry>): Option<int>
    decreases |es|
  {
    if es == [] then stars else Replay(Some(StarsAfter(stars, es[0])), es[1..])
  }

  /** Once a rating is set, no later history of events moves it. */
  lemma {:induction false} ReplayKeepsSetRating(stars: Option<int>, es: seq<Entry>)
    requires IsSet(stars)
    ensures Replay(stars, es) == stars
  {
    if es != [] {
      ReplayKeepsSetRating(Some(StarsAfter(stars, es[0])), es[1..]);
    }
  }

  /** For a user without a rating, the first event whose baseline is
      non-zero decides the rating for good. */
  lemma {:induction false} FirstEventDecides(stars: Option<int>, es: seq<Entry>)
    requires !IsSet(stars)
    requires es != [] && Baseline(es[0]) != 0
    ensures Replay(stars, es) == Some(Baseline(es[0]))
  {
    ReplayKeepsSetRating(Some(Baseline(es[0])), es[1..]);
  }

  /** `penalty.findMany({ where: { userId } })`: the penalties of one user,
      in table order. */
  function PenaltiesOf(ps: seq<Penalty>, govId: string): (r: seq<Penalty>)
    ensures |r| <= |ps|
    ensures forall p :: p in r <==> p in ps && p.userId == govId
  {
    if ps == [] then []
    else (if ps[0].userId == govId then [ps[0]] else []) + PenaltiesOf(ps[1..], govId)
  }

  /** Appending a penalty extends the listing of its owner by exactly that
      penalty and leaves every other user's listing as it was. */
  lemma {:induction false} PenaltiesOfAppend(ps: seq<Penalty>, p: Penalty, govId: string)
    ensures PenaltiesOf(ps + [p], govId)
         == PenaltiesOf(ps, govId) + (if p.userId == govId then [p] else [])
  {
    if ps == [] {
      assert ps + [p] == [p];
    } else {
      assert (ps + [p])[1..] == ps[1..] + [p];
      PenaltiesOfAppend(ps[1..], p, govId);
    }
  }
}
