/** The Dashboard page's state and its handlers. Each remote call is replaced
    by the service's answer, passed in as a `Reply`; a handler runs to its end
    before the next one starts. */
module DashboardPage {
  import opened Foods
  import opened Payloads
  import opened FoodList

  class Dashboard {
    /** The menu as listed on screen. */
    var foods: seq<Food>
    /** A snapshot of the record chosen for editing, if any. */
    var editingFood: Option<Food>
    /** Whether the add modal is open. */
    var modalOpen: bool
    /** Whether the edit modal is open. */
    var editModalOpen: bool

    /** The page's initial state: no foods, nothing selected, both modals closed. */
    constructor ()
      ensures foods == [] && editingFood == None
      ensures !modalOpen && !editModalOpen
    {
      foods := [];
      editingFood := None;
      modalOpen := false;
      editModalOpen := false;
    }

    /** The first load: the listed foods replace the list. The listing runs
        on a chain the loader neither awaits nor returns, and with no
        rejection handler: a failed listing leaves the list untouched, the
        loader itself still resolves, and the rejection goes unhandled. */
    method LoadFoods(reply: Reply<seq<Food>>) returns (settled: Settled)
      modifies this
      ensures reply.Answered? ==> foods == reply.data && settled == Resolved
      ensures reply.Failed? ==> foods == old(foods) && settled == Unhandled(NetworkFailure)
      ensures editingFood == old(editingFood)
      ensures modalOpen == old(modalOpen) && editModalOpen == old(editModalOpen)
    {
      match reply {
        case Answered(listed) =>
          foods := listed;
          settled := Resolved;
        case Failed =>
          settled := Unhandled(NetworkFailure);
      }
    }

    /** Sends the create body and appends the record the service returns;
        a failed call is caught and the list is left as it was. */
    method HandleAddFood(food: FoodInput, reply: Reply<Food>) returns (body: JsObject, settled: Settled)
      modifies this
      ensures body == CreateBody(food)
      ensures reply.Answered? ==> foods == Append(old(foods), reply.data) && settled == Resolved
      ensures reply.Failed? ==> foods == old(foods) && settled == Caught(NetworkFailure)
      ensures editingFood == old(editingFood)
      ensures modalOpen == old(modalOpen) && editModalOpen == old(editModalOpen)
    {
      body := CreateBody(food);
      match reply {
        case Answered(created) =>
          foods := Append(foods, created);
          settled := Resolved;
        case Failed =>
          settled := Caught(NetworkFailure);
      }
    }

    /** Without a selection, fails before building any request. Otherwise
        sends the merged record to the edited food's id and puts the record
        the service returns in place of every entry carrying the returned id;
        a failed call is caught and the list is left as it was. */
    method HandleUpdateFood(food: FoodInput, reply: Reply<Food>)
      returns (request: Option<UpdateRequest>, settled: Settled)
      modifies this
      ensures old(editingFood).None? ==>
        request == None && settled == Caught(NoFoodBeingEdited) && foods == old(foods)
      ensures old(editingFood).Some? ==> request == Some(UpdateRequestFor(old(editingFood).value, food))
      ensures old(editingFood).Some? && reply.Answered? ==>
        foods == ReplaceById(old(foods), reply.data) && settled == Resolved
      ensures old(editingFood).Some? && reply.Failed? ==>
        foods == old(foods) && settled == Caught(NetworkFailure)
      ensures editingFood == old(editingFood)
      ensures modalOpen == old(modalOpen) && editModalOpen == old(editModalOpen)
    {
      if editingFood.None? {
        request := None;
        settled := Caught(NoFoodBeingEdited);
        return;
      }
      request := Some(UpdateRequestFor(editingFood.value, food));
      match reply {
        case Answered(updated) =>
          foods := ReplaceById(foods, updated);
          settled := Resolved;
        case Failed =>
          settled := Caught(NetworkFailure);
      }
    }

    /** Removes every entry carrying `id` once the service acknowledges the
        delete; a failed call escapes the handler and nothing changes. */
    method HandleDeleteFood(id: Id, reply: Reply<()>) returns (settled: Settled)
      modifies this
      ensures reply.Answered? ==> foods == RemoveById(old(foods), id) && settled == Resolved
      ensures reply.Failed? ==> foods == old(foods) && settled == Thrown(NetworkFailure)
      ensures editingFood == old(editingFood)
      ensures modalOpen == old(modalOpen) && editModalOpen == old(editModalOpen)
    {
      if reply.Failed? {
        settled := Thrown(NetworkFailure);
        return;
      }
      foods := RemoveById(foods, id);
      settled := Resolved;
    }

    /** Opens or closes the add modal. */
    method ToggleModal()
      modifies this
      ensures modalOpen == !old(modalOpen)
      ensures foods == old(foods) && editingFood == old(editingFood)
      ensures editModalOpen == old(editModalOpen)
    {
      modalOpen := !modalOpen;
    }

    /** Opens or closes the edit modal; the selection stays as it was. */
    method ToggleEditModal()
      modifies this
      ensures editModalOpen == !old(editModalOpen)
      ensures foods == old(foods) && editingFood == old(editingFood)
      ensures modalOpen == old(modalOpen)
    {
      editModalOpen := !editModalOpen;
    }

    /** Selects `food` for editing, replacing any earlier selection, and
        opens the edit modal. */
    method HandleEditFood(food: Food)
      modifies this
      ensures editingFood == Some(food) && editModalOpen
      ensures foods == old(foods) && modalOpen == old(modalOpen)
    {
      editingFood := Some(food);
      editModalOpen := true;
    }
  }

  /** Toggling the add modal twice leaves the whole page state as it was. */
  method ToggleModalTwice(d: Dashboard)
    modifies d
    ensures d.modalOpen == old(d.modalOpen)
    ensures d.foods == old(d.foods) && d.editingFood == old(d.editingFood)
    ensures d.editModalOpen == old(d.editModalOpen)
  {
    d.ToggleModal();
    d.ToggleModal();
  }

  /** Toggling the edit modal twice leaves the whole page state as it was. */
  method ToggleEditModalTwice(d: Dashboard)
    modifies d
    ensures d.editModalOpen == old(d.editModalOpen)
    ensures d.foods == old(d.foods) && d.editingFood == old(d.editingFood)
    ensures d.modalOpen == old(d.modalOpen)
  {
    d.ToggleEditModal();
    d.ToggleEditModal();
  }

  /** A delete after an add of a record whose id the list does not hold
      gives back the list the page had before the add. */
  method AddThenDeleteRestores(d: Dashboard, food: FoodInput, created: Food)
    requires forall f :: f in d.foods ==> f.id != created.id
    modifies d
    ensures d.foods == old(d.foods)
  {
    var _, _ := d.HandleAddFood(food, Answered(created));
    var _ := d.HandleDeleteFood(created.id, Answered(()));
    AddThenDelete(old(d.foods), created);
  }

  /** A two-dish menu to start the client methods below from. */
  method TwoDishes() returns (d: Dashboard)
    ensures fresh(d)
    ensures d.foods == [Food(1, "Pizza", "p", "20.00", "cheese", true),
                        Food(2, "Burger", "b", "15.00", "beef", true)]
    ensures d.editingFood == None && !d.modalOpen && !d.editModalOpen
  {
    d := new Dashboard();
    var _ := d.LoadFoods(Answered([Food(1, "Pizza", "p", "20.00", "cheese", true),
                          Food(2, "Burger", "b", "15.00", "beef", true)]));
  }

  /** Creating a salad appends the record the service returns. */
  method AddScenario() {
    var d := TwoDishes();
    var pizza, burger := d.foods[0], d.foods[1];
    var salad := Food(3, "Salad", "x", "9.90", "fresh", true);
    var body, settled := d.HandleAddFood(FoodInput("Salad", "x", "9.90", "fresh"), Answered(salad));
    assert d.foods == [pizza, burger, salad];
    assert body["available"] == JsBool(true) && settled == Resolved;
  }

  /** Updating without a selection sends nothing and changes nothing. */
  method UpdateWithoutSelectionScenario() {
    var d := TwoDishes();
    var before := d.foods;
    var request, settled := d.HandleUpdateFood(FoodInput("Pizza Deluxe", "x", "25.00", "y"), Failed);
    assert request == None && settled == Caught(NoFoodBeingEdited);
    assert d.foods == before;
  }

  /** Editing the pizza replaces exactly the entry with id 1. */
  method UpdateScenario() {
    var d := TwoDishes();
    var pizza, burger := d.foods[0], d.foods[1];
    d.HandleEditFood(pizza);
    var deluxe := Food(1, "Pizza Deluxe", "x", "25.00", "y", true);
    var request, settled := d.HandleUpdateFood(FoodInput("Pizza Deluxe", "x", "25.00", "y"), Answered(deluxe));
    assert request.value.target == 1;
    assert FoodOf(request.value.body) == Some(deluxe);
    assert d.foods[0] == deluxe && d.foods[1] == burger;
    assert d.foods == [deluxe, burger];
  }

  /** Deleting id 2 leaves the pizza alone. */
  method DeleteScenario() {
    var d := TwoDishes();
    var pizza := d.foods[0];
    var settled := d.HandleDeleteFood(2, Answered(()));
    assert d.foods == [pizza];
  }
}
