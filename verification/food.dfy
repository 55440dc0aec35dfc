/** morecombinators: two checks that may reject a food, chained with a nested
    `match` (v1) and with `Option::and_then` (v2). */
module MoreCombinators {
  import opened Wrappers

  datatype Food = CordonBleu | Steak | Sushi

  /** There are no ingredients for sushi. */
  function HaveIngredients(food: Food): (r: Option<Food>)
    ensures r.None? <==> food == Sushi
    ensures r.Some? ==> r.value == food
  {
    match food
    case Sushi => None
    case _ => Some(food)
  }

  /** Everything but cordon bleu can be cooked. */
  function CanCook(food: Food): (r: Option<Food>)
    ensures r.None? <==> food == CordonBleu
    ensures r.Some? ==> r.value == food
  {
    match food
    case CordonBleu => None
    case _ => Some(food)
  }

  function CookableV1(food: Food): (r: Option<Food>)
    ensures r.Some? <==> food != Sushi && food != CordonBleu
    ensures r.Some? ==> r.value == food
  {
    match HaveIngredients(food)
    case None => None
    case Some(food) =>
      match CanCook(food)
      case None => None
      case Some(food) => Some(food)
  }

  function CookableV2(food: Food): (r: Option<Food>)
    ensures r.Some? <==> food != Sushi && food != CordonBleu
    ensures r.Some? ==> r.value == food
  {
    HaveIngredients(food).AndThen(CanCook)
  }

  /** The `and_then` form is the nested `match` written compactly. */
  lemma V1EqualsV2(food: Food)
    ensures CookableV1(food) == CookableV2(food)
  {
  }

  /** A rejection by `have_ingredients` is final: `can_cook` cannot undo it. */
  lemma RejectionShortCircuits(food: Food)
    requires HaveIngredients(food).None?
    ensures CookableV2(food).None? && CookableV1(food).None?
  {
  }

  /** Of the three foods of `main`, only steak gets eaten. */
  lemma OnlySteakIsCookable(food: Food)
    ensures CookableV2(food).Some? <==> food == Steak
  {
  }
}

/** map: the stages of preparing an optional food, each a `Some -> Some`,
    `None -> None` mapping, and `process` chaining all three with `map`. */
module FoodMap {
  import opened Wrappers

  datatype Food = Apple | Carrot | Potato

  datatype Peeled = Peeled(food: Food)
  datatype Chopped = Chopped(food: Food)
  datatype Cooked = Cooked(food: Food)

  function Peel(food: Option<Food>): (r: Option<Peeled>)
    ensures r.Some? <==> food.Some?
    ensures r.Some? ==> r.value.food == food.value
  {
    match food
    case Some(food) => Some(Peeled(food))
    case None => None
  }

  function Chop(peeled: Option<Peeled>): (r: Option<Chopped>)
    ensures r.Some? <==> peeled.Some?
    ensures r.Some? ==> r.value.food == peeled.value.food
  {
    match peeled
    case Some(Peeled(food)) => Some(Chopped(food))
    case None => None
  }

  function Cook(chopped: Option<Chopped>): (r: Option<Cooked>)
    ensures r.Some? <==> chopped.Some?
    ensures r.Some? ==> r.value.food == chopped.value.food
  {
    chopped.Map((c: Chopped) => Cooked(c.food))
  }

  function Process(food: Option<Food>): (r: Option<Cooked>)
    ensures r.Some? <==> food.Some?
    ensures r.Some? ==> r.value.food == food.value
  {
    food.Map((f: Food) => Peeled(f))
        .Map((p: Peeled) => Chopped(p.food))
        .Map((c: Chopped) => Cooked(c.food))
  }

  /** `process` is the three stages composed. */
  lemma ProcessIsComposition(food: Option<Food>)
    ensures Process(food) == Cook(Chop(Peel(food)))
  {
  }

  /** `main`: a present apple comes out cooked, an absent potato stays absent. */
  lemma MainExamples()
    ensures Cook(Chop(Peel(Some(Apple)))) == Some(Cooked(Apple))
    ensures Cook(Chop(Peel(Some(Carrot)))) == Some(Cooked(Carrot))
    ensures Process(None) == None
  {
  }
}
