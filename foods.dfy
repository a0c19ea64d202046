/** The records the dashboard keeps, and the shapes of what its remote calls
    answer and how its handlers finish. */
module Foods {

  datatype Option<+T> = None | Some(value: T)

  /** A food's identifier, assigned by the remote service. */
  type Id = int

  /** One menu item as the dashboard lists it. */
  datatype Food = Food(
    id: Id,
    name: string,
    image: string,
    price: string,
    description: string,
    available: bool)

  /** What the add and edit forms submit: a Food without `id` and `available`. */
  datatype FoodInput = FoodInput(
    name: string,
    image: string,
    price: string,
    description: string)

  /** The remote service's answer to one request: the response data, or a
      rejected promise. */
  datatype Reply<+T> = Answered(data: T) | Failed

  /** The two ways a handler can go wrong. */
  datatype SyncError =
    | NoFoodBeingEdited   // update called while nothing is selected for editing
    | NetworkFailure      // the remote call rejected

  /** How a handler ends. `Resolved`: its promise resolves normally.
      `Caught`: it catches an error, logs it, and then resolves. `Thrown`: its
      own promise rejects, so the error reaches its caller. `Unhandled`: its
      own promise resolves, but it started a promise chain that it neither
      awaits nor returns, and that chain rejects with nobody to handle it. */
  datatype Settled =
    | Resolved
    | Caught(error: SyncError)
    | Thrown(error: SyncError)
    | Unhandled(error: SyncError)
}
