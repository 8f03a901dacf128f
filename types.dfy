/**
 * The records the store and the screens exchange with the backend
 * (types/index.ts), and the error value the HTTP client raises.
 */
module Types {
  import opened Wrappers

  /** The six statuses a delivery record can carry. */
  datatype DeliveryStatus = Pending | Accepted | PickedUp | InTransit | Delivered | Cancelled

  /**
   * One delivery job as the server returns it. The nested pickup, dropoff,
   * business, customer, item and address records are carried by the
   * application without being inspected, and are not part of this model.
   */
  datatype Delivery = Delivery(
    id: int,
    publicId: string,
    status: DeliveryStatus,
    price: real,
    description: Option<string>,
    businessId: int,
    driverId: Option<int>,
    customerId: Option<int>,
    acceptedAt: Option<string>,
    pickedUpAt: Option<string>,
    deliveredAt: Option<string>,
    cancelledAt: Option<string>,
    createdAt: string)

  /**
   * The driver profile. Every text field is optional because the profile
   * comes from a JSON body whose keys may be missing or null.
   */
  datatype User = User(
    id: string,
    fullName: Option<string>,
    email: Option<string>,
    phone: Option<string>,
    vehicleType: Option<string>,
    licenseNumber: Option<string>,
    status: Option<string>,
    name: Option<string>)

  /** The `data` of an HTTP response: a JSON object, a plain text body, or nothing. */
  datatype ResponseBody =
    | JsonBody(message: Option<string>, error: Option<string>, errors: Option<string>)
    | TextBody(text: string)
    | NoBody

  /** An HTTP response: status code and body. */
  datatype HttpResponse = HttpResponse(status: int, data: ResponseBody)

  /**
   * The error the HTTP client raises: the response when the server answered
   * (absent for a network failure) and the error's own `message`.
   */
  datatype ApiError = ApiError(response: Option<HttpResponse>, message: string)

  /** `error.response?.data?.message` */
  function ResponseMessage(e: ApiError): Option<string> {
    if e.response.Some? && e.response.value.data.JsonBody? then e.response.value.data.message else None
  }

  /** `error.response?.data?.error` */
  function ResponseErrorField(e: ApiError): Option<string> {
    if e.response.Some? && e.response.value.data.JsonBody? then e.response.value.data.error else None
  }

  /** `error.response?.data?.errors ? JSON.stringify(error.response?.data?.errors) : null` */
  function ResponseErrorsJson(e: ApiError): Option<string> {
    if e.response.Some? && e.response.value.data.JsonBody? then e.response.value.data.errors else None
  }

  /** `typeof error.response?.data === 'string' ? error.response?.data : null` */
  function ResponseText(e: ApiError): Option<string> {
    if e.response.Some? && e.response.value.data.TextBody? then Some(e.response.value.data.text) else None
  }
}
