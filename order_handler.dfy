/** The order handler: creating an order after resolving its seat codes, and the three
    lookups keyed by an id from the request. The order repository's bodies are not part
    of this model; each handler receives the results its repository calls would return,
    records the calls it makes, and returns the response it writes. */
module OrderHandler {
  import opened Wrappers
  import opened GoInt
  import opened Models
  import opened Http

  /** `dtos.CreateOrderRequest` after binding. */
  datatype CreateOrderRequest = CreateOrderRequest(
    scheduleId: int, paymentId: int, fullName: string, email: string, phone: string, seatCodes: seq<string>)

  /** `models.Order` as the handler fills it in. */
  datatype Order = Order(userId: Uuid, scheduleId: int, paymentId: int, fullName: string, email: string, phone: string)

  /** A call on the order repository. */
  datatype OrderCall =
    | GetSeatIDsByCodes(codes: seq<string>)
    | CreateOrderCall(order: Order, seatIds: seq<int>)
    | GetSchedulesCall(movieId: int)
    | GetAvailableSeatsCall(scheduleId: int)
    | GetTransactionDetailCall(id: int)
    | GetOrderHistoryCall(userId: Uuid)

  /** The order built from the caller and the request. */
  function OrderFor(userId: Uuid, req: CreateOrderRequest): (o: Order)
    ensures o.userId == userId && o.scheduleId == req.scheduleId && o.paymentId == req.paymentId
    ensures o.fullName == req.fullName && o.email == req.email && o.phone == req.phone
  {
    Order(userId, req.scheduleId, req.paymentId, req.fullName, req.email, req.phone)
  }

  /** `CreateOrder`. `body` is None when binding fails; `seats` and `created` are what the
      seat lookup and the order insert return. */
  method CreateOrder<D>(body: Option<CreateOrderRequest>, claims: ClaimsSlot,
                        seats: Result<seq<int>>, created: Result<D>)
    returns (resp: Response<D>, calls: seq<OrderCall>)
    ensures body.None? ==> resp == Failure(StatusBadRequest, "Invalid request payload") && calls == []
    ensures body.Some? && !claims.Claims? ==> resp == Failure(StatusUnauthorized, "Unauthorized") && calls == []
    ensures body.Some? && claims.Claims? ==> |calls| >= 1 && calls[0] == GetSeatIDsByCodes(body.value.seatCodes)
    ensures body.Some? && claims.Claims? && (seats.Err? || |seats.value| != |body.value.seatCodes|) ==>
      resp == Failure(StatusBadRequest, "Invalid seat codes") && |calls| == 1
    ensures (exists k :: 0 <= k < |calls| && calls[k].CreateOrderCall?) <==>
      body.Some? && claims.Claims? && seats.Ok? && |seats.value| == |body.value.seatCodes|
    ensures forall k :: 0 <= k < |calls| && calls[k].CreateOrderCall? ==>
      calls[k] == CreateOrderCall(OrderFor(claims.userId, body.value), seats.value)
    ensures resp.success <==>
      body.Some? && claims.Claims? && seats.Ok? && |seats.value| == |body.value.seatCodes| && created.Ok?
    ensures resp.success ==> resp == Success(StatusCreated, "", Some(created.value))
    ensures !resp.success && resp.code == StatusInternalServerError ==>
      created.Err? && resp.message == "Failed to create order"
    ensures body.Some? && claims.Claims? && seats.Ok? && |seats.value| == |body.value.seatCodes| ==>
      calls == [GetSeatIDsByCodes(body.value.seatCodes), CreateOrderCall(OrderFor(claims.userId, body.value), seats.value)]
    ensures body.Some? && claims.Claims? && seats.Ok? && |seats.value| == |body.value.seatCodes| && created.Err? ==>
      resp == Failure(StatusInternalServerError, "Failed to create order")
  {
    if body.None? {
      return Failure(StatusBadRequest, "Invalid request payload"), [];
    }
    var req := body.value;
    var caller := GetUserFromContext(claims);
    if caller.Err? {
      return Failure(StatusUnauthorized, "Unauthorized"), [];
    }
    calls := [GetSeatIDsByCodes(req.seatCodes)];
    if seats.Err? || |seats.value| != |req.seatCodes| {
      return Failure(StatusBadRequest, "Invalid seat codes"), calls;
    }
    var order := OrderFor(caller.value.userId, req);
    calls := calls + [CreateOrderCall(order, seats.value)];
    assert calls[1].CreateOrderCall?;
    if created.Err? {
      return Failure(StatusInternalServerError, "Failed to create order"), calls;
    }
    return Success(StatusCreated, "", Some(created.value)), calls;
  }

  /** The shared shape of `GetSchedules` and `GetAvailableSeats`: parse the query
      parameter, 400 when it is not an integer, else call the repository with it and
      answer 500 on its error. */
  method LookupById<D>(param: string, result: Result<D>, invalid: string, failed: string, call: int -> OrderCall)
    returns (resp: Response<D>, calls: seq<OrderCall>)
    ensures Atoi(param).err.Some? ==> resp == Failure(StatusBadRequest, invalid) && calls == []
    ensures Atoi(param).err.None? ==> calls == [call(Atoi(param).value)]
    ensures Atoi(param).err.None? && result.Err? ==> resp == Failure(StatusInternalServerError, failed)
    ensures resp.success <==> Atoi(param).err.None? && result.Ok?
    ensures resp.success ==> resp == Success(StatusOK, "", Some(result.value))
  {
    var parsed := Atoi(param);
    if parsed.err.Some? {
      return Failure(StatusBadRequest, invalid), [];
    }
    calls := [call(parsed.value)];
    if result.Err? {
      return Failure(StatusInternalServerError, failed), calls;
    }
    return Success(StatusOK, "", Some(result.value)), calls;
  }

  /** `GetSchedules`: `movie_id` from the query string (empty when absent). */
  method GetSchedules<D>(movieIdParam: string, result: Result<D>) returns (resp: Response<D>, calls: seq<OrderCall>)
    ensures Atoi(movieIdParam).err.Some? ==> resp == Failure(StatusBadRequest, "Invalid movie_id") && calls == []
    ensures Atoi(movieIdParam).err.None? ==> calls == [GetSchedulesCall(Atoi(movieIdParam).value)]
    ensures Atoi(movieIdParam).err.None? && result.Err? ==> resp == Failure(StatusInternalServerError, "Failed to fetch schedules")
    ensures resp.success <==> Atoi(movieIdParam).err.None? && result.Ok?
    ensures resp.success ==> resp == Success(StatusOK, "", Some(result.value))
  {
    resp, calls := LookupById(movieIdParam, result, "Invalid movie_id", "Failed to fetch schedules", id => GetSchedulesCall(id));
  }

  /** `GetAvailableSeats`: `schedule_id` from the query string (empty when absent). */
  method GetAvailableSeats<D>(scheduleIdParam: string, result: Result<D>) returns (resp: Response<D>, calls: seq<OrderCall>)
    ensures Atoi(scheduleIdParam).err.Some? ==> resp == Failure(StatusBadRequest, "Invalid schedule_id") && calls == []
    ensures Atoi(scheduleIdParam).err.None? ==> calls == [GetAvailableSeatsCall(Atoi(scheduleIdParam).value)]
    ensures Atoi(scheduleIdParam).err.None? && result.Err? ==> resp == Failure(StatusInternalServerError, "Failed to fetch seats")
    ensures resp.success <==> Atoi(scheduleIdParam).err.None? && result.Ok?
    ensures resp.success ==> resp == Success(StatusOK, "", Some(result.value))
  {
    resp, calls := LookupById(scheduleIdParam, result, "Invalid schedule_id", "Failed to fetch seats", id => GetAvailableSeatsCall(id));
  }

  /** `GetTransactionDetail`: the path `id`; a lookup error is answered 404. */
  method GetTransactionDetail<D>(idParam: string, result: Result<D>) returns (resp: Response<D>, calls: seq<OrderCall>)
    ensures Atoi(idParam).err.Some? ==> resp == Failure(StatusBadRequest, "Invalid order ID") && calls == []
    ensures Atoi(idParam).err.None? ==> calls == [GetTransactionDetailCall(Atoi(idParam).value)]
    ensures Atoi(idParam).err.None? && result.Err? ==> resp == Failure(StatusNotFound, "Order not found")
    ensures resp.success <==> Atoi(idParam).err.None? && result.Ok?
    ensures resp.success ==> resp == Success(StatusOK, "", Some(result.value))
  {
    var parsed := Atoi(idParam);
    if parsed.err.Some? {
      return Failure(StatusBadRequest, "Invalid order ID"), [];
    }
    calls := [GetTransactionDetailCall(parsed.value)];
    if result.Err? {
      return Failure(StatusNotFound, "Order not found"), calls;
    }
    return Success(StatusOK, "", Some(result.value)), calls;
  }

  /** `GetOrderHistory`: the caller's orders. */
  method GetOrderHistory<D>(claims: ClaimsSlot, result: Result<D>) returns (resp: Response<D>, calls: seq<OrderCall>)
    ensures !claims.Claims? ==> resp == Failure(StatusUnauthorized, "Unauthorized") && calls == []
    ensures claims.Claims? ==> calls == [GetOrderHistoryCall(claims.userId)]
    ensures claims.Claims? && result.Err? ==> resp == Failure(StatusInternalServerError, "Failed to fetch order history")
    ensures resp.success <==> claims.Claims? && result.Ok?
    ensures resp.success ==> resp == Success(StatusOK, "", Some(result.value))
  {
    var caller := GetUserFromContext(claims);
    if caller.Err? {
      return Failure(StatusUnauthorized, "Unauthorized"), [];
    }
    calls := [GetOrderHistoryCall(caller.value.userId)];
    if result.Err? {
      return Failure(StatusInternalServerError, "Failed to fetch order history"), calls;
    }
    return Success(StatusOK, "", Some(result.value)), calls;
  }
}
