/**
 * The server's persistent entities and transfer objects (the `model` and
 * `dto` packages under src/main/java/com/travelapp/travelplanner). Dates are day
 * numbers, timestamps are plain integers and prices whole currency units.
 * A reference from one entity to another is held as the referenced row's id.
 */
module Entities {
  import opened Common

  datatype Role = USER | ADMIN

  /** `Role.name()`. */
  function RoleName(r: Role): (s: string)
    ensures s == "USER" <==> r == USER
    ensures s == "ADMIN" <==> r == ADMIN
  {
    match r
    case USER => "USER"
    case ADMIN => "ADMIN"
  }

  datatype BookingStatus = PENDING | CONFIRMED | CANCELLED

  datatype User = User(id: int, name: string, email: string, passwordHash: string, role: Role, active: bool)

  /** `id` is absent until the destination is saved. */
  datatype Destination = Destination(
    id: Option<int>,
    name: string,
    country: string,
    city: string,
    description: string,
    imageUrl: string,
    price: int)

  datatype Booking = Booking(
    id: int,
    userId: int,
    destinationId: int,
    startDate: int,
    endDate: int,
    travelers: int,
    status: BookingStatus,
    createdAt: int)

  /** One row of the favorites table; the pair (userId, destinationId) is unique. */
  datatype Favorite = Favorite(id: int, userId: int, destinationId: int)

  /** `BookingRequest`; every field may be missing from the JSON body. */
  datatype BookingRequest = BookingRequest(
    destinationId: Option<int>,
    startDate: Option<int>,
    endDate: Option<int>,
    travelers: Option<int>)

  datatype BookingResponse = BookingResponse(
    id: int,
    destination: Destination,
    startDate: int,
    endDate: int,
    travelers: int,
    status: BookingStatus,
    createdAt: int)

  datatype FavoriteResponse = FavoriteResponse(id: int, destination: Destination)

  datatype UserDTO = UserDTO(id: int, name: string, email: string, role: string)

  /**
   * The exceptions a service call ends with: `BadRequestException`,
   * `ResourceNotFoundException`, `BadCredentialsException`, and the
   * database's refusal to delete a row that others still reference.
   */
  datatype Error =
    | BadRequest(message: string)
    | NotFound(message: string)
    | BadCredentials(message: string)
    | IntegrityViolation
}
