/** optionandunwrap: two ways of receiving an optional gift. The commoner
    handles every case with `match`; the princess `unwrap`s and may panic, so
    a panic is one of her possible reactions. */
module OptionAndUnwrap {
  import opened Wrappers

  datatype CommonerReaction = ThrowsInFire | HowNice(gift: string) | NoGift

  datatype PrincessReaction = Loves(gift: string) | Panics(message: string)

  /** The message `Option::unwrap` panics with on `None`. */
  const UnwrapNoneMessage: string := "called `Option::unwrap()` on a `None` value"

  /** The message the princess panics with on a snake. */
  const SnakePanicMessage: string := "AAAaaaaa!!!!"

  /** The arms in order: a snake first, then any other gift, then no gift. */
  function GiveCommoner(gift: Option<string>): (r: CommonerReaction)
    ensures r == ThrowsInFire <==> gift == Some("snake")
    ensures r.HowNice? <==> gift.Some? && gift.value != "snake"
    ensures r.HowNice? ==> r.gift == gift.value
    ensures r == NoGift <==> gift.None?
  {
    match gift
    case Some(inner) =>
      if inner == "snake" then ThrowsInFire else HowNice(inner)
    case None => NoGift
  }

  /** `unwrap`, then a panic on a snake, else delight. */
  function GivePrincess(gift: Option<string>): (r: PrincessReaction)
    ensures gift.None? ==> r == Panics(UnwrapNoneMessage)
    ensures gift == Some("snake") ==> r == Panics(SnakePanicMessage)
    ensures r.Loves? <==> gift.Some? && gift.value != "snake"
    ensures r.Loves? ==> r.gift == gift.value
  {
    if gift.None? then Panics(UnwrapNoneMessage)
    else
      var inside := gift.value;
      if inside == "snake" then Panics(SnakePanicMessage) else Loves(inside)
  }

  /** The princess is happy with exactly the gifts the commoner finds nice;
      wherever the commoner has a gentler reaction, she panics. */
  lemma PrincessPanicsWhereCommonerDoesNot(gift: Option<string>)
    ensures GivePrincess(gift).Loves? <==> GiveCommoner(gift).HowNice?
    ensures GivePrincess(gift).Loves? ==> GivePrincess(gift).gift == GiveCommoner(gift).gift
    ensures GivePrincess(gift).Panics? <==> (GiveCommoner(gift) == ThrowsInFire || GiveCommoner(gift) == NoGift)
  {
  }

  lemma MainExamples()
    ensures GiveCommoner(Some("chicken")) == HowNice("chicken")
    ensures GiveCommoner(Some("snake")) == ThrowsInFire
    ensures GiveCommoner(None) == NoGift
    ensures GivePrincess(Some("robin")) == Loves("robin")
    ensures GivePrincess(None).Panics?
  {
  }
}
