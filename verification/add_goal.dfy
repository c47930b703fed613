/**
  The form for creating a savings goal: a name, the typed target amount, an optional
  deadline, an icon, and optionally the Amazon product the goal saves for. Saving hands the
  goal to the caller when the form was opened with a callback, and otherwise adds it to the
  goals store.
 */
module AddGoal {
  import opened Wrappers
  import opened Transactions
  import opened Goals
  import opened GoalsStores
  import opened AmountInput
  import opened Amazon

  /** Thirty days, in seconds: how far ahead the deadline picker starts. */
  const DefaultDeadlineOffset: int := 86400 * 30

  /** The icons offered besides the default `"target"`. */
  const GoalIcons: seq<string> := ["star.fill", "car.fill", "house.fill", "graduationcap.fill",
                                   "airplane", "laptop", "gamecontroller.fill", "camera.fill"]

  /** What a goal remembers of the product it saves for. */
  function ProductInfo(p: AmazonProduct): (info: AmazonProductInfo)
    ensures info.title == p.title && info.initialPrice == p.price && info.currentPrice == p.currentPrice
    ensures info.productUrl == p.productUrl && info.lastUpdated == p.lastUpdated
  {
    AmazonProductInfo(p.title, p.price, p.currentPrice, p.productUrl, p.lastUpdated)
  }

  /** A product straight from the search results has not changed price, so neither has the
      goal's record of it. */
  lemma ProductInfoFromSearch(parse: Parser, block: string, now: Date, p: AmazonProduct)
    requires ProductOf(parse, block, now) == Some(p)
    ensures ProductInfo(p).initialPrice == ProductInfo(p).currentPrice
    ensures ProductInfo(p).lastUpdated == now
  {
  }

  class AddGoalForm {
    var name: string
    var targetAmount: string
    var deadline: Date
    var hasDeadline: bool
    var selectedIcon: string
    var selectedProduct: Option<AmazonProduct>
    /** Opened with an `onAdd` callback, which then receives the saved goal. */
    const hasCallback: bool

    /** The form as opened: nothing typed, no deadline (the picker starts thirty days after
        `now`), the `"target"` icon and no product. */
    constructor(now: Date, hasCallback: bool)
      ensures name == [] && targetAmount == [] && !hasDeadline && deadline == now + DefaultDeadlineOffset
      ensures selectedIcon == "target" && selectedProduct.None? && this.hasCallback == hasCallback
    {
      name := [];
      targetAmount := [];
      deadline := now + DefaultDeadlineOffset;
      hasDeadline := false;
      selectedIcon := "target";
      selectedProduct := None;
      this.hasCallback := hasCallback;
    }

    /** Choosing a product from the search: it becomes the goal's product, its title the
        name, and its current price, written by `format` (two decimals), the target text. */
    method SelectProduct(product: AmazonProduct, format: Amount -> string)
      modifies this
      ensures selectedProduct == Some(product) && name == product.title
      ensures targetAmount == format(product.currentPrice)
      ensures deadline == old(deadline) && hasDeadline == old(hasDeadline) && selectedIcon == old(selectedIcon)
    {
      selectedProduct := Some(product);
      name := product.title;
      targetAmount := format(product.currentPrice);
    }

    /** Tapping one of the offered icons selects it. */
    method SelectIcon(icon: string)
      requires icon in GoalIcons
      modifies this
      ensures selectedIcon == icon && selectedIcon != "target"
      ensures name == old(name) && targetAmount == old(targetAmount) && selectedProduct == old(selectedProduct)
      ensures deadline == old(deadline) && hasDeadline == old(hasDeadline)
    {
      selectedIcon := icon;
    }

    /** The condition `saveGoal` checks: the target reads as a number and the name is not
        empty. */
    predicate CanSave(parse: Parser)
      reads this
    {
      ParseAmount(parse, targetAmount).Some? && name != []
    }

    /** The goal saved for the target read as `target`: nothing saved yet, a deadline only when
        one was set, and the product's details only when a product was chosen. */
    function Built(id: Uuid, target: Amount): (g: Goal)
      reads this
      ensures g.id == id && g.name == name && g.targetAmount == target && g.icon == selectedIcon
      ensures g.currentAmount == 0
      ensures g.deadline.Some? <==> hasDeadline
      ensures g.deadline.Some? ==> g.deadline.value == deadline
      ensures g.amazonProduct.Some? <==> selectedProduct.Some?
      ensures g.amazonProduct.Some? ==> g.amazonProduct.value == ProductInfo(selectedProduct.value)
    {
      var info := match selectedProduct
        case None => None
        case Some(p) => Some(ProductInfo(p));
      Goal(id, name, target, 0, if hasDeadline then Some(deadline) else None, selectedIcon, info)
    }

    /** `saveGoal`, with `id` the fresh identity the new goal gets. Without a readable target
        or a name nothing happens. Otherwise the goal goes to the callback when there is one
        (the result) and is added to the store when there is none: exactly one of the two. */
    method SaveGoal(parse: Parser, id: Uuid, store: GoalsStore) returns (handedOver: Option<Goal>)
      modifies store
      ensures !CanSave(parse) ==> handedOver.None? && store.goals == old(store.goals)
      ensures CanSave(parse) && hasCallback ==>
        handedOver == Some(Built(id, ParseAmount(parse, targetAmount).value)) && store.goals == old(store.goals)
      ensures CanSave(parse) && !hasCallback ==>
        handedOver.None? && store.goals == old(store.goals) + [Built(id, ParseAmount(parse, targetAmount).value)]
    {
      handedOver := None;
      var amount := ParseAmount(parse, targetAmount);
      if amount.None? || name == [] {
        return;
      }
      var goal := Built(id, amount.value);
      if hasCallback {
        handedOver := Some(goal);
      } else {
        store.AddGoal(goal);
      }
    }
  }
}
